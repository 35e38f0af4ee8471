/** The canonical query string of internal/sigv4/canonical.go. */
module CanonicalQuery {
  import opened Wrappers
  import opened ByteOrder
  import opened Bolt
  import opened KeyNames
  import opened Text
  import opened Sorting
  import opened UriEncoding

  /** Query parameters: the values of each name, in the order they were given. */
  type Query = map<Bytes, seq<Bytes>>

  type Pair = (Bytes, Bytes)

  function PairLe(a: Pair, b: Pair): bool {
    a == b || Less(a.0, b.0) || (a.0 == b.0 && Less(a.1, b.1))
  }

  lemma PairLeIsTotal()
    ensures TotalOrder(PairLe)
  {
    forall a, b ensures PairLe(a, b) || PairLe(b, a) {
      Total(a.0, b.0);
      Total(a.1, b.1);
    }
    forall a: Pair, b: Pair | PairLe(a, b) && PairLe(b, a) ensures a == b {
      Asymmetric(a.0, b.0);
      Asymmetric(a.1, b.1);
    }
    forall a, b, c | PairLe(a, b) && PairLe(b, c) ensures PairLe(a, c) {
      if Less(a.0, b.0) && Less(b.0, c.0) { Transitive(a.0, b.0, c.0); }
      if Less(a.1, b.1) && Less(b.1, c.1) { Transitive(a.1, b.1, c.1); }
    }
  }

  lemma Asymmetric(a: Bytes, b: Bytes)
    ensures !(Less(a, b) && Less(b, a)) && !Less(a, a)
  {
    Irreflexive(a);
    if Less(a, b) && Less(b, a) { Transitive(a, b, a); }
  }

  function EncodedPair(k: Bytes, v: Bytes): Pair {
    (Encoded(k, true), Encoded(v, true))
  }

  function PairsFor(k: Bytes, vs: seq<Bytes>): seq<Pair> {
    if vs == [] then [] else [EncodedPair(k, vs[0])] + PairsFor(k, vs[1..])
  }

  /** The encoded pairs, name by name. */
  ghost function PairsIn(q: Query, ks: seq<Bytes>): seq<Pair>
    requires forall k :: k in ks ==> k in q
  {
    if ks == [] then [] else PairsFor(ks[0], q[ks[0]]) + PairsIn(q, ks[1..])
  }

  function Rendered(p: Pair): Bytes {
    Joined(p.0, '=', p.1)
  }

  function Parts(ps: seq<Pair>): seq<Bytes> {
    seq(|ps|, i requires 0 <= i < |ps| => Rendered(ps[i]))
  }

  function Render(ps: seq<Pair>): Bytes {
    Join(Parts(ps), "&")
  }

  /** The names that are not excluded, in some order: which one does not matter. */
  ghost function Names(q: Query, exclude: set<Bytes>): (ks: seq<Bytes>)
    ensures forall k :: k in ks <==> k in q && k !in exclude
  {
    SortedKeysList(q.Keys - exclude);
    SortedKeys(q.Keys - exclude)
  }

  ghost function Canonical(q: Query, exclude: set<Bytes>): Bytes {
    Render(Sort(PairsIn(q, Names(q, exclude)), PairLe))
  }

  // ---- Which pairs there are ----

  ghost predicate QueryBytes(q: Query) {
    forall k :: k in q ==> IsBytes(k) && forall v :: v in q[k] ==> IsBytes(v)
  }

  /** How often the pair occurs among the parameters that are not excluded. */
  ghost function Count(q: Query, exclude: set<Bytes>, k: Bytes, v: Bytes): nat {
    if k in q && k !in exclude then multiset(q[k])[v] else 0
  }

  ghost predicate Distinct(ks: seq<Bytes>) {
    forall i, j :: 0 <= i < j < |ks| ==> ks[i] != ks[j]
  }

  lemma {:induction false} CountFor(k: Bytes, vs: seq<Bytes>, k': Bytes, v: Bytes)
    requires IsBytes(k) && IsBytes(k') && IsBytes(v) && forall x :: x in vs ==> IsBytes(x)
    ensures multiset(PairsFor(k, vs))[EncodedPair(k', v)] == if k == k' then multiset(vs)[v] else 0
  {
    if vs != [] {
      CountFor(k, vs[1..], k', v);
      EncodingInjective(k, k', true);
      EncodingInjective(vs[0], v, true);
      assert vs == [vs[0]] + vs[1..];
    }
  }

  lemma {:induction false} CountIn(q: Query, ks: seq<Bytes>, k: Bytes, v: Bytes)
    requires QueryBytes(q) && Distinct(ks) && IsBytes(k) && IsBytes(v) && forall x :: x in ks ==> x in q
    ensures multiset(PairsIn(q, ks))[EncodedPair(k, v)] == if k in ks then multiset(q[k])[v] else 0
  {
    if ks != [] {
      CountIn(q, ks[1..], k, v);
      CountFor(ks[0], q[ks[0]], k, v);
      assert ks == [ks[0]] + ks[1..];
    }
  }

  lemma {:induction false} FormFor(k: Bytes, vs: seq<Bytes>, p: Pair)
    requires p in PairsFor(k, vs)
    ensures exists v :: v in vs && p == EncodedPair(k, v)
  {
    if p == EncodedPair(k, vs[0]) {
    } else {
      FormFor(k, vs[1..], p);
    }
  }

  lemma {:induction false} FormIn(q: Query, ks: seq<Bytes>, p: Pair)
    requires (forall x :: x in ks ==> x in q) && p in PairsIn(q, ks)
    ensures exists k, v :: k in ks && v in q[k] && p == EncodedPair(k, v)
  {
    if p in PairsFor(ks[0], q[ks[0]]) {
      FormFor(ks[0], q[ks[0]], p);
    } else {
      FormIn(q, ks[1..], p);
    }
  }

  /** `ks` are the names that are not excluded, each once. */
  ghost predicate Lists(q: Query, exclude: set<Bytes>, ks: seq<Bytes>) {
    Distinct(ks) && forall k :: k in ks <==> k in q && k !in exclude
  }

  lemma CountListed(q: Query, exclude: set<Bytes>, ks: seq<Bytes>, k: Bytes, v: Bytes)
    requires QueryBytes(q) && Lists(q, exclude, ks) && IsBytes(k) && IsBytes(v)
    ensures multiset(PairsIn(q, ks))[EncodedPair(k, v)] == Count(q, exclude, k, v)
  {
    CountIn(q, ks, k, v);
  }

  /** The same pairs occur equally often, whatever the order of names and of values. */
  ghost predicate SameParameters(q: Query, q': Query, exclude: set<Bytes>) {
    forall k, v :: IsBytes(k) && IsBytes(v) ==> Count(q, exclude, k, v) == Count(q', exclude, k, v)
  }

  lemma EqualPairs(q: Query, ks: seq<Bytes>, q': Query, ks': seq<Bytes>, exclude: set<Bytes>, p: Pair)
    requires QueryBytes(q) && QueryBytes(q') && Lists(q, exclude, ks) && Lists(q', exclude, ks')
    requires SameParameters(q, q', exclude) && p in PairsIn(q, ks)
    ensures multiset(PairsIn(q, ks))[p] == multiset(PairsIn(q', ks'))[p]
  {
    FormIn(q, ks, p);
    var k, v :| k in ks && v in q[k] && p == EncodedPair(k, v);
    CountListed(q, exclude, ks, k, v);
    CountListed(q', exclude, ks', k, v);
  }

  lemma SamePairs(q: Query, ks: seq<Bytes>, q': Query, ks': seq<Bytes>, exclude: set<Bytes>)
    requires QueryBytes(q) && QueryBytes(q') && Lists(q, exclude, ks) && Lists(q', exclude, ks')
    ensures multiset(PairsIn(q, ks)) == multiset(PairsIn(q', ks')) <==> SameParameters(q, q', exclude)
  {
    if multiset(PairsIn(q, ks)) == multiset(PairsIn(q', ks')) {
      forall k, v | IsBytes(k) && IsBytes(v) ensures Count(q, exclude, k, v) == Count(q', exclude, k, v) {
        CountListed(q, exclude, ks, k, v);
        CountListed(q', exclude, ks', k, v);
      }
    }
    if SameParameters(q, q', exclude) {
      forall p ensures multiset(PairsIn(q, ks))[p] == multiset(PairsIn(q', ks'))[p] {
        if p in PairsIn(q, ks) {
          EqualPairs(q, ks, q', ks', exclude, p);
        } else if p in PairsIn(q', ks') {
          EqualPairs(q', ks', q, ks, exclude, p);
        }
      }
    }
  }

  // ---- The rendered form ----

  ghost predicate Clean(ps: seq<Pair>) {
    forall p :: p in ps ==> '=' !in p.0 && '&' !in p.0 && '&' !in p.1
  }

  lemma EncodedIsClean(q: Query, ks: seq<Bytes>)
    requires forall x :: x in ks ==> x in q
    ensures Clean(PairsIn(q, ks))
  {
    forall p | p in PairsIn(q, ks) ensures '=' !in p.0 && '&' !in p.0 && '&' !in p.1 {
      FormIn(q, ks, p);
      var k, v :| k in ks && v in q[k] && p == EncodedPair(k, v);
      EncodedAlphabet(k, true);
      EncodedAlphabet(v, true);
    }
  }

  lemma PartsAreClean(ps: seq<Pair>)
    requires Clean(ps)
    ensures forall s :: s in Parts(ps) ==> '&' !in s && s != ""
  {
    forall i | 0 <= i < |ps| ensures '&' !in Rendered(ps[i]) && Rendered(ps[i]) != "" {
      assert ps[i] in ps;
    }
  }

  lemma RenderInjective(a: seq<Pair>, b: seq<Pair>)
    requires Clean(a) && Clean(b) && Render(a) == Render(b)
    ensures a == b
  {
    PartsAreClean(a);
    PartsAreClean(b);
    if a == [] || b == [] {
      NonEmptyRender(a);
      NonEmptyRender(b);
    } else {
      JoinInjective(Parts(a), Parts(b), '&');
      assert |a| == |b|;
      forall i | 0 <= i < |a| ensures a[i] == b[i] {
        assert Parts(a)[i] == Parts(b)[i];
        assert a[i] in a && b[i] in b;
        JoinedInjective('=', a[i].0, a[i].1, b[i].0, b[i].1);
      }
    }
  }

  lemma NonEmptyRender(ps: seq<Pair>)
    ensures Render(ps) == "" <==> ps == []
  {
    if ps != [] {
      assert Parts(ps)[0] == Rendered(ps[0]);
    }
  }

  lemma CleanSort(ps: seq<Pair>)
    requires Clean(ps)
    ensures Clean(Sort(ps, PairLe))
  {
    PairLeIsTotal();
    SortSorts(ps, PairLe);
    forall p | p in Sort(ps, PairLe) ensures p in ps {
      assert p in multiset(Sort(ps, PairLe));
    }
  }

  lemma NamesAreListed(q: Query, exclude: set<Bytes>)
    ensures Lists(q, exclude, Names(q, exclude))
  {
    SortedKeysList(q.Keys - exclude);
    var ks := Names(q, exclude);
    forall i, j | 0 <= i < j < |ks| ensures ks[i] != ks[j] {
      Irreflexive(ks[i]);
    }
  }

  /**
   The canonical form depends on the pairs that are not excluded and on nothing else: it
   forgets the order of names and values, and it keeps different multisets of pairs apart.
   */
  lemma CanonicalIffSameParameters(q: Query, q': Query, exclude: set<Bytes>)
    requires QueryBytes(q) && QueryBytes(q')
    ensures Canonical(q, exclude) == Canonical(q', exclude) <==> SameParameters(q, q', exclude)
  {
    var ks, ks' := Names(q, exclude), Names(q', exclude);
    NamesAreListed(q, exclude);
    NamesAreListed(q', exclude);
    PairLeIsTotal();
    SamePairs(q, ks, q', ks', exclude);
    SortForgetsOrder(PairsIn(q, ks), PairsIn(q', ks'), PairLe);
    if Canonical(q, exclude) == Canonical(q', exclude) {
      EncodedIsClean(q, ks);
      EncodedIsClean(q', ks');
      CleanSort(PairsIn(q, ks));
      CleanSort(PairsIn(q', ks'));
      RenderInjective(Sort(PairsIn(q, ks), PairLe), Sort(PairsIn(q', ks'), PairLe));
    }
  }

  // ---- What the canonical form reads as ----

  /** The name and the value, as they stand in the query string. */
  function FieldOf(part: Bytes): Pair {
    var h := Cut(part, '=');
    (h.before, if h.after.Some? then h.after.value else "")
  }

  /** The fields of a query string. */
  function Fields(c: Bytes): seq<Pair> {
    if c == "" then []
    else
      var parts := Split(c, '&');
      seq(|parts|, i requires 0 <= i < |parts| => FieldOf(parts[i]))
  }

  function Decoded(p: Pair): Pair {
    (Unescaped(p.0), Unescaped(p.1))
  }

  function AllDecoded(ps: seq<Pair>): seq<Pair> {
    seq(|ps|, i requires 0 <= i < |ps| => Decoded(ps[i]))
  }

  /** Ascending by name, and by value where the names are equal. */
  ghost predicate InOrder(ps: seq<Pair>) {
    forall i, j :: 0 <= i < j < |ps| ==>
      if ps[i].0 == ps[j].0 then ps[i].1 == ps[j].1 || Less(ps[i].1, ps[j].1) else Less(ps[i].0, ps[j].0)
  }

  /**
   `c` is a query string with nothing unescaped but unreserved characters, its fields are in
   ascending order of name and then value, as they stand, and they decode to exactly the
   parameters that are not excluded, each as often as it was given.
   */
  ghost predicate ReadsAs(c: Bytes, q: Query, exclude: set<Bytes>) {
    && Escaped(c, "&=", "")
    && (forall p :: p in Fields(c) ==> Escaped(p.0, "", "") && Escaped(p.1, "", ""))
    && InOrder(Fields(c))
    && forall k, v :: IsBytes(k) && IsBytes(v) ==>
         multiset(AllDecoded(Fields(c)))[(k, v)] == Count(q, exclude, k, v)
  }

  /** These are encoded pairs of byte strings. */
  ghost predicate Encodings(ps: seq<Pair>) {
    forall p :: p in ps ==> exists k, v :: IsBytes(k) && IsBytes(v) && p == EncodedPair(k, v)
  }

  lemma PairsAreEncodings(q: Query, ks: seq<Bytes>)
    requires QueryBytes(q) && forall x :: x in ks ==> x in q
    ensures Encodings(PairsIn(q, ks))
  {
    forall p | p in PairsIn(q, ks) ensures exists k, v :: IsBytes(k) && IsBytes(v) && p == EncodedPair(k, v) {
      FormIn(q, ks, p);
      var k, v :| k in ks && v in q[k] && p == EncodedPair(k, v);
    }
  }

  lemma {:induction false} CountDecoded(ps: seq<Pair>, k: Bytes, v: Bytes)
    requires Encodings(ps) && IsBytes(k) && IsBytes(v)
    ensures multiset(AllDecoded(ps))[(k, v)] == multiset(ps)[EncodedPair(k, v)]
  {
    hide Encodings;
    hide EncodedPair;
    hide Decoded;
    if ps != [] {
      var p, rest := ps[0], ps[1..];
      EncodingsSplit(ps);
      CountDecoded(rest, k, v);
      DecodedPair(p, k, v);
      assert AllDecoded(ps) == [Decoded(p)] + AllDecoded(rest);
      assert ps == [p] + rest;
    }
  }

  lemma EncodingsSplit(ps: seq<Pair>)
    requires ps != [] && Encodings(ps)
    ensures Encodings([ps[0]]) && Encodings(ps[1..])
  {
    assert ps[0] in ps && forall x :: x in ps[1..] ==> x in ps;
  }

  lemma DecodedPair(p: Pair, k: Bytes, v: Bytes)
    requires Encodings([p]) && IsBytes(k) && IsBytes(v)
    ensures Decoded(p) == (k, v) <==> p == EncodedPair(k, v)
  {
    assert p in [p];
    var a, b :| IsBytes(a) && IsBytes(b) && p == EncodedPair(a, b);
    EncodingRoundTrip(a, true);
    EncodingRoundTrip(b, true);
    EncodingRoundTrip(k, true);
    EncodingRoundTrip(v, true);
  }

  /** Both halves of an encoded pair are escaped, and keep clear of the separators. */
  lemma PairEscaped(p: Pair)
    requires Encodings([p])
    ensures Escaped(p.0, "", "") && Escaped(p.1, "", "") && Escaped(Rendered(p), "&=", "")
    ensures '=' !in p.0 && '&' !in p.0 && '&' !in p.1
  {
    assert p in [p];
    var k, v :| IsBytes(k) && IsBytes(v) && p == EncodedPair(k, v);
    EncodedIsEscaped(k, true);
    EncodedIsEscaped(v, true);
    EncodedAlphabet(k, true);
    EncodedAlphabet(v, true);
    EscapedMore(p.0, "", "&=", "");
    EscapedMore(p.1, "", "&=", "");
    EscapedConcat(p.0, "=", "&=", "");
    EscapedConcat(p.0 + "=", p.1, "&=", "");
    assert Rendered(p) == p.0 + "=" + p.1;
  }

  lemma {:induction false} RenderEscaped(ps: seq<Pair>)
    requires Encodings(ps)
    ensures Escaped(Render(ps), "&=", "")
  {
    if ps != [] {
      var rest := ps[1..];
      assert ps[0] in ps && forall x :: x in rest ==> x in ps;
      PairEscaped(ps[0]);
      RenderEscaped(rest);
      assert Parts(ps) == [Rendered(ps[0])] + Parts(rest);
      if rest == [] {
        assert Render(ps) == Rendered(ps[0]);
      } else {
        assert Render(ps) == Rendered(ps[0]) + "&" + Render(rest);
        EscapedConcat(Rendered(ps[0]), "&", "&=", "");
        EscapedConcat(Rendered(ps[0]) + "&", Render(rest), "&=", "");
      }
    }
  }

  lemma FieldsOfRender(ps: seq<Pair>)
    requires Clean(ps)
    ensures Fields(Render(ps)) == ps
  {
    NonEmptyRender(ps);
    if ps != [] {
      PartsAreClean(ps);
      SplitJoin(Parts(ps), '&');
      forall i | 0 <= i < |ps| ensures FieldOf(Rendered(ps[i])) == ps[i] {
        assert ps[i] in ps;
        CutJoined(ps[i].0, '=', ps[i].1);
      }
    }
  }

  lemma SortedPairs(q: Query, exclude: set<Bytes>) returns (ps: seq<Pair>)
    requires QueryBytes(q)
    ensures Canonical(q, exclude) == Render(ps) && Sorted(ps, PairLe) && Encodings(ps) && Clean(ps)
    ensures multiset(ps) == multiset(PairsIn(q, Names(q, exclude)))
  {
    var ks := Names(q, exclude);
    var all := PairsIn(q, ks);
    ps := Sort(all, PairLe);
    PairLeIsTotal();
    SortSorts(all, PairLe);
    PairsAreEncodings(q, ks);
    EncodedIsClean(q, ks);
    CleanSort(all);
    forall p | p in ps ensures p in all { assert p in multiset(ps); }
  }

  lemma SortedIsInOrder(ps: seq<Pair>)
    requires Sorted(ps, PairLe)
    ensures InOrder(ps)
  {
    forall i, j | 0 <= i < j < |ps| && ps[i].0 == ps[j].0 ensures ps[i].1 == ps[j].1 || Less(ps[i].1, ps[j].1) {
      Irreflexive(ps[i].0);
      assert PairLe(ps[i], ps[j]);
    }
    forall i, j | 0 <= i < j < |ps| && ps[i].0 != ps[j].0 ensures Less(ps[i].0, ps[j].0) {
      assert PairLe(ps[i], ps[j]);
    }
  }

  /** The canonical form reads as the parameters it was made of. */
  lemma CanonicalReadsBack(q: Query, exclude: set<Bytes>)
    requires QueryBytes(q)
    ensures ReadsAs(Canonical(q, exclude), q, exclude)
  {
    hide Canonical;
    hide Rendered;
    var ps := SortedPairs(q, exclude);
    FieldsOfRender(ps);
    RenderEscaped(ps);
    SortedIsInOrder(ps);
    NamesAreListed(q, exclude);
    forall p | p in ps ensures Escaped(p.0, "", "") && Escaped(p.1, "", "") { PairEscaped(p); }
    forall k, v | IsBytes(k) && IsBytes(v) ensures multiset(AllDecoded(ps))[(k, v)] == Count(q, exclude, k, v) {
      CountDecoded(ps, k, v);
      CountListed(q, exclude, Names(q, exclude), k, v);
    }
  }

  lemma {:induction false} PairsSnoc(q: Query, ks: seq<Bytes>, k: Bytes)
    requires (forall x :: x in ks ==> x in q) && k in q
    ensures PairsIn(q, ks + [k]) == PairsIn(q, ks) + PairsFor(k, q[k])
  {
    if ks == [] {
      assert [k][1..] == [] && PairsIn(q, []) == [];
      assert PairsIn(q, [k]) == PairsFor(k, q[k]) + [];
    } else {
      assert (ks + [k])[1..] == ks[1..] + [k];
      PairsSnoc(q, ks[1..], k);
    }
  }

  lemma {:induction false} ValuesSnoc(k: Bytes, vs: seq<Bytes>, v: Bytes)
    ensures PairsFor(k, vs + [v]) == PairsFor(k, vs) + [EncodedPair(k, v)]
  {
    if vs == [] {
      assert [v][1..] == [];
    } else {
      assert (vs + [v])[1..] == vs[1..] + [v];
      ValuesSnoc(k, vs[1..], v);
    }
  }

  method EncodeValues(k: Bytes, vs: seq<Bytes>) returns (pairs: seq<Pair>)
    ensures pairs == PairsFor(k, vs)
  {
    pairs := [];
    var ek := UriEncode(k, true);
    var i := 0;
    while i < |vs|
      invariant 0 <= i <= |vs| && pairs == PairsFor(k, vs[..i])
    {
      var ev := UriEncode(vs[i], true);
      assert vs[..i + 1] == vs[..i] + [vs[i]];
      ValuesSnoc(k, vs[..i], vs[i]);
      pairs := pairs + [(ek, ev)];
      i := i + 1;
    }
    assert vs[..i] == vs;
  }

  method RenderPairs(sorted: seq<Pair>) returns (canonical: Bytes)
    ensures canonical == Render(sorted)
  {
    var parts: seq<Bytes> := [];
    while |parts| < |sorted|
      invariant |parts| <= |sorted| && parts == Parts(sorted[..|parts|])
    {
      var p := sorted[|parts|];
      parts := parts + [p.0 + "=" + p.1];
    }
    assert sorted[..|parts|] == sorted;
    canonical := Join(parts, "&");
  }

  /** Builds the canonical form, visiting the names in any order. */
  method CanonicalQueryString(q: Query, exclude: set<Bytes>) returns (canonical: Bytes)
    requires QueryBytes(q)
    ensures canonical == Canonical(q, exclude) && ReadsAs(canonical, q, exclude)
  {
    hide ReadsAs;
    var pairs: seq<Pair> := [];
    var rest := q.Keys;
    ghost var ks: seq<Bytes> := [];
    while rest != {}
      invariant rest <= q.Keys && Distinct(ks)
      invariant forall k :: k in ks <==> k in q && k !in exclude && k !in rest
      invariant pairs == PairsIn(q, ks)
      decreases rest
    {
      var k :| k in rest;
      rest := rest - {k};
      if k in exclude { continue; }
      var more := EncodeValues(k, q[k]);
      PairsSnoc(q, ks, k);
      pairs := pairs + more;
      ks := ks + [k];
    }
    OrderOfNames(q, exclude, ks);
    CanonicalReadsBack(q, exclude);
    canonical := RenderPairs(Sort(pairs, PairLe));
  }

  lemma OrderOfNames(q: Query, exclude: set<Bytes>, ks: seq<Bytes>)
    requires QueryBytes(q) && Lists(q, exclude, ks)
    ensures Canonical(q, exclude) == Render(Sort(PairsIn(q, ks), PairLe))
  {
    NamesAreListed(q, exclude);
    PairLeIsTotal();
    SamePairs(q, ks, q, Names(q, exclude), exclude);
    SortForgetsOrder(PairsIn(q, ks), PairsIn(q, Names(q, exclude)), PairLe);
  }

  lemma {:induction false} SameValuesSamePairs(q: Query, q': Query, ks: seq<Bytes>)
    requires forall k :: k in ks ==> k in q && k in q' && q[k] == q'[k]
    ensures PairsIn(q, ks) == PairsIn(q', ks)
  {
    if ks != [] {
      SameValuesSamePairs(q, q', ks[1..]);
    }
  }

  /** An excluded parameter can be set to anything. */
  lemma ExcludedIsIrrelevant(q: Query, exclude: set<Bytes>, k: Bytes, vs: seq<Bytes>)
    requires k in exclude
    ensures Canonical(q[k := vs], exclude) == Canonical(q, exclude)
  {
    assert q[k := vs].Keys - exclude == q.Keys - exclude;
    SameValuesSamePairs(q, q[k := vs], Names(q, exclude));
  }

  lemma {:induction false} JoinAlphabet(parts: seq<Bytes>, sep: Bytes, c: char)
    requires c !in sep && forall p :: p in parts ==> c !in p
    ensures c !in Join(parts, sep)
    decreases |parts|
  {
    if |parts| > 1 {
      JoinAlphabet(parts[1..], sep, c);
    }
  }

  /** The canonical form is one line. */
  lemma CanonicalAlphabet(q: Query, exclude: set<Bytes>)
    ensures '\n' !in Canonical(q, exclude)
  {
    var ks := Names(q, exclude);
    var pairs := PairsIn(q, ks);
    var sorted := Sort(pairs, PairLe);
    PairLeIsTotal();
    SortSorts(pairs, PairLe);
    forall i | 0 <= i < |sorted| ensures '\n' !in Rendered(sorted[i]) {
      assert sorted[i] in multiset(sorted);
      PairIsOneLine(q, ks, sorted[i]);
    }
    JoinAlphabet(Parts(sorted), "&", '\n');
  }

  lemma PairIsOneLine(q: Query, ks: seq<Bytes>, p: Pair)
    requires (forall x :: x in ks ==> x in q) && p in PairsIn(q, ks)
    ensures '\n' !in Rendered(p)
  {
    FormIn(q, ks, p);
    var k, v :| k in ks && v in q[k] && p == EncodedPair(k, v);
    EncodedAlphabet(k, true);
    EncodedAlphabet(v, true);
  }
}
