/** What a reader of signed chunks can be made to deliver by input that was cut off or tampered with. */
module ChunkSafety {
  import opened Wrappers
  import opened Text
  import opened Signing
  import opened ChunkCodec

  // ---- Truncation ----

  lemma IndexOfPrefix(s: Bytes, c: char, j: nat)
    requires j <= |s|
    ensures Index(s[..j], c) == if Index(s, c) < j then Index(s, c) else j
  {
    var i, n := Index(s, c), Index(s[..j], c);
    assert forall x :: 0 <= x < i ==> s[x] == s[..i][x];
    assert forall x :: 0 <= x < n ==> s[x] == s[..j][..n][x];
  }

  lemma ReadLineOfPrefix(s: Bytes, j: nat)
    requires j <= |s|
    ensures var r := ReadLine(s);
      ReadLine(s[..j]) ==
      if r.None? || j < |s| - |r.value.rest| then None
      else Some(Line(r.value.text, r.value.rest[..j - (|s| - |r.value.rest|)]))
  {
    IndexOfPrefix(s, '\n', j);
    var i := Index(s, '\n');
    if i < j {
      assert s[..j][..i + 1] == s[..i + 1];
      assert s[..j][i + 1..] == s[i + 1..][..j - i - 1];
    }
  }

  lemma ReadHeaderOfPrefix(s: Bytes, j: nat)
    requires j <= |s|
    ensures var r := ReadHeader(s);
      ReadHeader(s[..j]) ==
      if r.None? || j < |s| - |r.value.rest| then None
      else Some(Line(r.value.text, r.value.rest[..j - (|s| - |r.value.rest|)]))
  {
    ReadLineOfPrefix(s, j);
    var first := ReadLine(s);
    if first.Some? && first.value.text == "" && j >= |s| - |first.value.rest| {
      ReadLineOfPrefix(first.value.rest, j - (|s| - |first.value.rest|));
    }
  }

  lemma RestIsShorter(k: Context, body: Bytes, head: Head, prev: Bytes)
    requires TakeChunk(k, body, head, prev).Success?
    ensures |TakeChunk(k, body, head, prev).value.rest| <= |body|
  {
  }

  lemma TakeChunkOfPrefix(k: Context, body: Bytes, head: Head, prev: Bytes, j: nat)
    requires j <= |body| && TakeChunk(k, body, head, prev).Success?
    ensures var c := TakeChunk(k, body, head, prev).value;
      var used := |body| - |c.rest|;
      if j < used then TakeChunk(k, body[..j], head, prev).Failure?
      else TakeChunk(k, body[..j], head, prev) == Success(Chunk(c.data, c.sig, c.rest[..j - used]))
  {
    if j >= head.size + 2 {
      assert body[..j][..head.size] == body[..head.size];
      assert body[..j][head.size + 2..] == body[head.size + 2..][..j - head.size - 2];
    }
  }

  /** A chunk that is read in full reads the same in a longer or shorter input; cut short it is an error. */
  lemma NextChunkOfPrefix(k: Context, s: Bytes, prev: Bytes, j: nat)
    requires j <= |s| && NextChunk(k, s, prev).Success?
    ensures var c := NextChunk(k, s, prev).value;
      var used := |s| - |c.rest|;
      if j < used then NextChunk(k, s[..j], prev).Failure?
      else NextChunk(k, s[..j], prev) == Success(Chunk(c.data, c.sig, c.rest[..j - used]))
  {
    hide ChunkCodec.ReadHeader;
    hide ChunkCodec.ParseHead;
    hide ChunkCodec.TakeChunk;
    ReadHeaderOfPrefix(s, j);
    var line := ReadHeader(s).value;
    var h := |s| - |line.rest|;
    RestIsShorter(k, line.rest, ParseHead(line.text).value, prev);
    if j >= h {
      TakeChunkOfPrefix(k, line.rest, ParseHead(line.text).value, prev, j - h);
    }
  }

  /** One signed chunk: the signature before it, its data and its signature. */
  datatype Link = Link(prev: Bytes, data: Bytes, sig: Bytes)

  /** The chunks a reader accepts, the empty one that ends the input included. */
  function Accepted(k: Context, s: Bytes, prev: Bytes): seq<Link>
    decreases |s|
  {
    match NextChunk(k, s, prev)
    case Failure(_) => []
    case Success(c) => [Link(prev, c.data, c.sig)] + if c.data == "" then [] else Accepted(k, c.rest, c.sig)
  }

  /** The chunk that decoding takes off the input, if there is one. */
  lemma Step(k: Context, s: Bytes, prev: Bytes) returns (c: Option<Chunk>)
    ensures c.Some? ==> |c.value.rest| < |s| && c.value.sig == k.ChunkSignature(prev, c.value.data)
    ensures var d := Decode(k, s, prev);
      match c
      case None => d.end.Bad? && d.chunks == [] && d.unread == "" && Accepted(k, s, prev) == []
      case Some(x) =>
        var e := Decode(k, x.rest, x.sig);
        && d == (if x.data == "" then Decoded([], Clean, x.rest) else Decoded([x.data] + e.chunks, e.end, e.unread))
        && Accepted(k, s, prev) == [Link(prev, x.data, x.sig)] + if x.data == "" then [] else Accepted(k, x.rest, x.sig)
  {
    match NextChunk(k, s, prev)
    case Failure(_) => c := None;
    case Success(x) => c := Some(x);
  }

  /** The same chunk comes off a cut input, unless the cut is before its end. */
  lemma CutStep(k: Context, s: Bytes, prev: Bytes, j: nat) returns (c: Chunk)
    requires j <= |s| && Decode(k, s, prev).end == Clean
    ensures |c.rest| < |s|
    ensures var d, e, cut, used := Decode(k, s, prev), Decode(k, c.rest, c.sig), Decode(k, s[..j], prev), |s| - |c.rest|;
      && d == (if c.data == "" then Decoded([], Clean, c.rest) else Decoded([c.data] + e.chunks, e.end, e.unread))
      && (j < used ==> cut.end.Bad? && cut.chunks == [])
      && (j >= used ==>
        var f := Decode(k, c.rest[..j - used], c.sig);
        cut == if c.data == "" then Decoded([], Clean, c.rest[..j - used]) else Decoded([c.data] + f.chunks, f.end, f.unread))
  {
    c := NextChunk(k, s, prev).value;
    NextChunkOfPrefix(k, s, prev, j);
  }

  lemma {:induction false} UnreadIsSuffix(k: Context, s: Bytes, prev: Bytes)
    ensures |Decode(k, s, prev).unread| <= |s|
    decreases |s|
  {
    var c := Step(k, s, prev);
    if c.Some? {
      UnreadIsSuffix(k, c.value.rest, c.value.sig);
    }
  }

  /**
   Cutting an input that ends cleanly: what is left still ends cleanly exactly when all the
   bytes up to that end are there, and never delivers anything else.
   */
  lemma {:induction false} TruncationSurfaces(k: Context, s: Bytes, prev: Bytes, j: nat)
    requires j <= |s| && Decode(k, s, prev).end == Clean
    ensures var d, cut := Decode(k, s, prev), Decode(k, s[..j], prev);
      && (cut.end == Clean <==> j >= |s| - |d.unread|)
      && (cut.end == Clean ==> cut.chunks == d.chunks)
      && cut.chunks <= d.chunks
    decreases |s|
  {
    hide ChunkCodec.NextChunk;
    var c := CutStep(k, s, prev, j);
    var used := |s| - |c.rest|;
    UnreadIsSuffix(k, c.rest, c.sig);
    if j >= used && c.data != "" {
      TruncationSurfaces(k, c.rest, c.sig, j - used);
    }
  }

  /** No strict prefix of what the writer sends is taken for the whole. */
  lemma CutOffEncoding(k: Context, chunks: seq<Bytes>, seed: Bytes, j: nat)
    requires k.crypto.Sized() && Sendable(chunks) && j < |Encode(k, chunks, seed)|
    ensures var d := Decode(k, Encode(k, chunks, seed)[..j], seed); d.end.Bad? && d.chunks <= chunks
  {
    var s := Encode(k, chunks, seed);
    RoundTrip(k, chunks, seed, "");
    assert s + "" == s;
    TruncationSurfaces(k, s, seed, j);
  }

  // ---- Tampering ----

  /** Each link names the signature of the one before it, from the seed on. */
  ghost predicate Linked(seed: Bytes, ls: seq<Link>) {
    && (ls != [] ==> ls[0].prev == seed)
    && (forall i :: 0 < i < |ls| ==> ls[i].prev == ls[i - 1].sig)
  }

  /** Each signature covers its data and the signature before it. */
  ghost predicate Signed(k: Context, ls: seq<Link>) {
    forall l :: l in ls ==> l.sig == k.ChunkSignature(l.prev, l.data)
  }

  function DataOf(ls: seq<Link>): seq<Bytes> {
    seq(|ls|, i requires 0 <= i < |ls| => ls[i].data)
  }

  /**
   Everything delivered is the data of one verified chain from the seed, and the end is clean
   exactly when that chain ends with a verified empty chunk.
   */
  lemma {:induction false} DeliveredIsChain(k: Context, s: Bytes, seed: Bytes)
    ensures var d, ls := Decode(k, s, seed), Accepted(k, s, seed);
      && Linked(seed, ls) && Signed(k, ls)
      && DataOf(ls) == d.chunks + (if d.end == Clean then [""] else [])
      && "" !in d.chunks
    decreases |s|
  {
    var r := Step(k, s, seed);
    if r.Some? {
      var c := r.value;
      var first := Link(seed, c.data, c.sig);
      if c.data == "" {
        assert DataOf([first]) == [""];
      } else {
        DeliveredIsChain(k, c.rest, c.sig);
        ChainCons(first, Accepted(k, c.rest, c.sig));
        SignedCons(k, first, Accepted(k, c.rest, c.sig));
        var e := Decode(k, c.rest, c.sig);
        SeqCons(first.data, e.chunks, if e.end == Clean then [""] else []);
      }
    }
  }

  lemma SeqCons(x: Bytes, a: seq<Bytes>, b: seq<Bytes>)
    ensures [x] + (a + b) == [x] + a + b
    ensures x != "" && "" !in a ==> "" !in [x] + a
  {
  }

  lemma ChainCons(first: Link, rest: seq<Link>)
    requires Linked(first.sig, rest)
    ensures Linked(first.prev, [first] + rest)
    ensures DataOf([first] + rest) == [first.data] + DataOf(rest)
  {
  }

  lemma SignedCons(k: Context, first: Link, rest: seq<Link>)
    requires Signed(k, rest) && first.sig == k.ChunkSignature(first.prev, first.data)
    ensures Signed(k, [first] + rest)
  {
    forall l | l in [first] + rest ensures l == first || l in rest {
    }
  }

  /** The chain that a writer signs. */
  function Issued(k: Context, chunks: seq<Bytes>, seed: Bytes): seq<Link> {
    if chunks == [] then [Link(seed, "", k.ChunkSignature(seed, ""))]
    else
      var sig := k.ChunkSignature(seed, chunks[0]);
      [Link(seed, chunks[0], sig)] + Issued(k, chunks[1..], sig)
  }

  lemma {:induction false} IssuedIsLinked(k: Context, chunks: seq<Bytes>, seed: Bytes)
    ensures Linked(seed, Issued(k, chunks, seed)) && DataOf(Issued(k, chunks, seed)) == chunks + [""]
    decreases |chunks|
  {
    if chunks == [] {
      var last := Link(seed, "", k.ChunkSignature(seed, ""));
      assert Issued(k, chunks, seed) == [last];
      assert DataOf([last]) == [""] == chunks + [""];
    } else {
      var sig := k.ChunkSignature(seed, chunks[0]);
      IssuedIsLinked(k, chunks[1..], sig);
      ChainCons(Link(seed, chunks[0], sig), Issued(k, chunks[1..], sig));
      assert chunks == [chunks[0]] + chunks[1..];
    }
  }

  /** The seed and the signatures of the chain are all different. */
  ghost predicate Fresh(ls: seq<Link>) {
    forall i, j :: 0 <= i <= j < |ls| ==> ls[i].prev != ls[j].sig
  }

  /** In such a chain the signature before a link tells its place. */
  lemma PlaceOf(seed: Bytes, issued: seq<Link>, j: nat, n: nat)
    requires Linked(seed, issued) && Fresh(issued) && j < |issued| && n <= |issued|
    requires issued[j].prev == if n == 0 then seed else issued[n - 1].sig
    ensures j == n
  {
    assert j > 0 ==> issued[j].prev == issued[j - 1].sig;
    assert n < |issued| ==> issued[n].prev == if n == 0 then seed else issued[n - 1].sig;
  }

  /** A chain from the same seed whose links were all issued is an initial part of what was issued. */
  lemma {:induction false} ChainOfIssued(seed: Bytes, ls: seq<Link>, issued: seq<Link>, n: nat)
    requires Linked(seed, ls) && Linked(seed, issued) && Fresh(issued) && n <= |ls|
    requires forall l :: l in ls ==> l in issued
    ensures n <= |issued| && ls[..n] == issued[..n]
    decreases n
  {
    if n > 0 {
      ChainOfIssued(seed, ls, issued, n - 1);
      var l := ls[n - 1];
      assert l in ls;
      var j :| 0 <= j < |issued| && issued[j] == l;
      if n > 1 {
        assert ls[n - 2] == ls[..n - 1][n - 2] == issued[..n - 1][n - 2] == issued[n - 2];
      }
      PlaceOf(seed, issued, j, n - 1);
      assert ls[..n] == ls[..n - 1] + [l] && issued[..n] == issued[..n - 1] + [l];
    }
  }

  // ---- Tampering ----

  lemma {:induction false} IssuedIsSigned(k: Context, chunks: seq<Bytes>, seed: Bytes)
    ensures Signed(k, Issued(k, chunks, seed))
    decreases |chunks|
  {
    if chunks != [] {
      var sig := k.ChunkSignature(seed, chunks[0]);
      IssuedIsSigned(k, chunks[1..], sig);
      SignedCons(k, Link(seed, chunks[0], sig), Issued(k, chunks[1..], sig));
    }
  }

  /** A chunk's string to sign tells the signature before it and the digest of its data. */
  lemma ChunkTextInjective(k: Context, prev: Bytes, data: Bytes, prev': Bytes, data': Bytes)
    requires GoodDigests(k.crypto) && k.ChunkText(prev, data) == k.ChunkText(prev', data')
    ensures prev == prev' && k.crypto.HashHex(data) == k.crypto.HashHex(data')
  {
    var h, h' := k.crypto.HashHex(data), k.crypto.HashHex(data');
    var e := k.crypto.HashHex("");
    ChunkTextParts(k, prev, data);
    ChunkTextParts(k, prev', data');
    var a, z, z' := k.ChunkFront(), "\n" + (e + ("\n" + h)), "\n" + (e + ("\n" + h'));
    assert |z| == |z'|;
    assert (a + prev + z)[|a|..|a| + |prev|] == prev && (a + prev' + z')[|a|..|a| + |prev'|] == prev';
    assert (a + prev + z)[|a| + |prev|..] == z && (a + prev' + z')[|a| + |prev'|..] == z';
    assert z[|z| - |h|..] == h && z'[|z'| - |h'|..] == h';
  }

  lemma ChunkTextParts(k: Context, prev: Bytes, data: Bytes)
    ensures k.ChunkText(prev, data)
         == k.ChunkFront() + prev + ("\n" + (k.crypto.HashHex("") + ("\n" + k.crypto.HashHex(data))))
  {
    var e, h, z := k.crypto.HashHex(""), k.crypto.HashHex(data), k.scope.ScopeString();
    var parts := [ALGORITHM + "-PAYLOAD", k.amzDate, z, prev, e, h];
    assert parts[1..] == [k.amzDate, z, prev, e, h] && parts[1..][1..] == [z, prev, e, h];
    assert [z, prev, e, h][1..] == [prev, e, h] && [prev, e, h][1..] == [e, h] && [e, h][1..] == [h];
    assert Join([e, h], "\n") == e + ("\n" + h);
    assert Join([prev, e, h], "\n") == prev + ("\n" + (e + ("\n" + h)));
    assert Join([z, prev, e, h], "\n") == z + "\n" + Join([prev, e, h], "\n");
    assert Join(parts[1..], "\n") == k.amzDate + "\n" + Join([z, prev, e, h], "\n");
    assert Join(parts, "\n") == ALGORITHM + "-PAYLOAD" + "\n" + Join(parts[1..], "\n");
  }

  /** The hash functions have no collision on what two chunks' signatures are made of. */
  predicate NoChunkCollision(k: Context, l: Link, m: Link) {
    && NoCollision(x => k.crypto.hmac(SigningKey(k.crypto, k.secret, k.scope), x),
                   k.ChunkText(l.prev, l.data), k.ChunkText(m.prev, m.data))
    && NoCollision(k.crypto.sha256, l.data, m.data)
  }

  /** Two chunks with one signature are the same chunk at the same place. */
  lemma SameSignature(k: Context, l: Link, m: Link)
    requires GoodDigests(k.crypto) && NoChunkCollision(k, l, m) && l.sig == m.sig
    requires l.sig == k.ChunkSignature(l.prev, l.data) && m.sig == k.ChunkSignature(m.prev, m.data)
    ensures l == m
  {
    var key := SigningKey(k.crypto, k.secret, k.scope);
    HexInjective(k.crypto.hmac(key, k.ChunkText(l.prev, l.data)), k.crypto.hmac(key, k.ChunkText(m.prev, m.data)));
    ChunkTextInjective(k, l.prev, l.data, m.prev, m.data);
    HexInjective(k.crypto.sha256(l.data), k.crypto.sha256(m.data));
  }

  /** No two chunks of these chains collide. */
  ghost predicate Separate(k: Context, ls: seq<Link>, ms: seq<Link>) {
    forall i, j :: 0 <= i < |ls| && 0 <= j < |ms| ==> NoChunkCollision(k, ls[i], ms[j])
  }

  /** If no signature of the chain is the seed, the signatures are all different. */
  lemma {:induction false} NotBefore(k: Context, seed: Bytes, ls: seq<Link>, i: nat, j: nat)
    requires GoodDigests(k.crypto) && Linked(seed, ls) && Signed(k, ls) && Separate(k, ls, ls)
    requires forall n :: 0 <= n < |ls| ==> ls[n].sig != seed
    requires i <= j < |ls|
    ensures ls[i].prev != ls[j].sig
    decreases i
  {
    if i > 0 {
      assert ls[i].prev == ls[i - 1].sig && ls[j].prev == ls[j - 1].sig;
      if ls[i - 1].sig == ls[j].sig {
        assert ls[i - 1] in ls && ls[j] in ls;
        SameSignature(k, ls[i - 1], ls[j]);
        NotBefore(k, seed, ls, i - 1, j - 1);
      }
    }
  }

  /**
   If every signature the reader accepts is one that the writer issued, none of those is the
   seed, and the hash functions do not collide on the chunks concerned, the reader delivers an
   initial part of what the writer sent, and all of it when the end is clean: chunks cannot be
   altered, dropped, repeated or reordered.
   */
  lemma NothingButSent(k: Context, s: Bytes, sent: seq<Bytes>, seed: Bytes)
    requires GoodDigests(k.crypto) && "" !in sent
    requires forall m :: m in Issued(k, sent, seed) ==> m.sig != seed
    requires forall l :: l in Accepted(k, s, seed) ==> exists m :: m in Issued(k, sent, seed) && m.sig == l.sig
    requires Separate(k, Accepted(k, s, seed), Issued(k, sent, seed))
    requires Separate(k, Issued(k, sent, seed), Issued(k, sent, seed))
    ensures var d := Decode(k, s, seed); d.chunks <= sent && (d.end == Clean ==> d.chunks == sent)
  {
    hide NoChunkCollision;
    var ls, issued, d := Accepted(k, s, seed), Issued(k, sent, seed), Decode(k, s, seed);
    DeliveredIsChain(k, s, seed);
    IssuedIsLinked(k, sent, seed);
    IssuedIsSigned(k, sent, seed);
    forall i, j | 0 <= i <= j < |issued| ensures issued[i].prev != issued[j].sig {
      NotBefore(k, seed, issued, i, j);
    }
    forall l | l in ls ensures l in issued {
      var m :| m in issued && m.sig == l.sig;
      SameSignature(k, l, m);
    }
    ChainOfIssued(seed, ls, issued, |ls|);
    assert ls[..|ls|] == ls;
    DataOfPrefix(issued, |ls|);
    InitialData(DataOf(ls), d.chunks, sent, d.end == Clean);
  }

  lemma DataOfPrefix(ls: seq<Link>, n: nat)
    requires n <= |ls|
    ensures DataOf(ls[..n]) <= DataOf(ls)
  {
  }

  lemma InitialData(data: seq<Bytes>, got: seq<Bytes>, sent: seq<Bytes>, clean: bool)
    requires data <= sent + [""] && data == got + (if clean then [""] else [])
    requires "" !in sent && "" !in got
    ensures got <= sent && (clean ==> got == sent)
  {
    var all := sent + [""];
    assert forall i :: 0 <= i < |data| ==> data[i] == all[i];
    assert forall i :: 0 <= i < |got| ==> data[i] == got[i] && got[i] in got;
    assert forall i :: 0 <= i < |sent| ==> all[i] == sent[i] && sent[i] in sent;
    assert all[|sent|] == "";
    if clean { assert data[|got|] == ""; }
  }
}
