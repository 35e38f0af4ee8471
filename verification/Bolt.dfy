/** A bbolt bucket seen by one read transaction: byte-sorted keys under a moving cursor. */
module Bolt {
  import opened Wrappers
  import opened ByteOrder

  ghost predicate IsLeast(k: Bytes, s: set<Bytes>) {
    k in s && forall j :: j in s && j != k ==> Less(k, j)
  }

  lemma {:induction false} LeastExists(s: set<Bytes>)
    requires s != {}
    ensures exists k :: IsLeast(k, s)
    decreases |s|
  {
    var x :| x in s;
    if s == {x} {
      assert IsLeast(x, s);
    } else {
      LeastExists(s - {x});
      var k :| IsLeast(k, s - {x});
      Total(k, x);
      if Less(k, x) {
        assert IsLeast(k, s);
      } else {
        forall j | j in s && j != x ensures Less(x, j) {
          if j != k { Transitive(x, k, j); }
        }
        assert IsLeast(x, s);
      }
    }
  }

  lemma LeastUnique(k: Bytes, j: Bytes, s: set<Bytes>)
    requires IsLeast(k, s) && IsLeast(j, s)
    ensures k == j
  {
    if k != j {
      Transitive(k, j, k);
      Irreflexive(k);
    }
  }

  /** The keys in byte order. */
  ghost function SortedKeys(s: set<Bytes>): seq<Bytes>
    decreases |s|
  {
    if s == {} then []
    else
      LeastExists(s);
      var k :| IsLeast(k, s);
      [k] + SortedKeys(s - {k})
  }

  lemma SortedCons(s: set<Bytes>, k: Bytes)
    requires IsLeast(k, s)
    ensures SortedKeys(s) == [k] + SortedKeys(s - {k})
  {
    var j :| IsLeast(j, s) && SortedKeys(s) == [j] + SortedKeys(s - {j});
    LeastUnique(k, j, s);
  }

  /** Byte order lists every key once, in strictly ascending order. */
  lemma {:induction false} SortedKeysList(s: set<Bytes>)
    ensures Ascending(SortedKeys(s)) && |SortedKeys(s)| == |s|
    ensures forall k :: k in SortedKeys(s) <==> k in s
    decreases |s|
  {
    if s != {} {
      LeastExists(s);
      var k :| IsLeast(k, s);
      SortedCons(s, k);
      var rest := SortedKeys(s - {k});
      SortedKeysList(s - {k});
      forall i, j | 0 <= i < j < |[k] + rest| ensures Less(([k] + rest)[i], ([k] + rest)[j]) {
        if i == 0 { assert rest[j - 1] in rest; }
      }
    }
  }

  /** There is only one way to list a set of keys in ascending order. */
  lemma {:induction false} SortedUnique(a: seq<Bytes>, s: set<Bytes>)
    requires Ascending(a) && forall k :: k in a <==> k in s
    ensures a == SortedKeys(s)
    decreases |a|
  {
    if a == [] {
      assert s == {};
    } else {
      var k, b := a[0], a[1..];
      forall j | j in s && j != k ensures Less(k, j) {
        assert j in a;
      }
      assert k in a && IsLeast(k, s);
      forall j ensures j in b <==> j in s - {k} {
        if j in b {
          var i :| 0 <= i < |b| && b[i] == j;
          assert Less(a[0], a[i + 1]);
          Irreflexive(k);
          assert a[i + 1] in a;
        }
        if j in s - {k} {
          var i :| 0 <= i < |a| && a[i] == j;
          assert b[i - 1] == j;
        }
      }
      SortedUnique(b, s - {k});
      SortedCons(s, k);
    }
  }

  /** The keys of an initial segment are listed first. */
  lemma InitialSegment(a: set<Bytes>, s: set<Bytes>)
    requires a <= s && forall x, y :: x in a && y in s - a ==> Less(x, y)
    ensures SortedKeys(s) == SortedKeys(a) + SortedKeys(s - a)
  {
    SortedKeysList(a);
    SortedKeysList(s - a);
    var l, r := SortedKeys(a), SortedKeys(s - a);
    forall i, j | 0 <= i < j < |l + r| ensures Less((l + r)[i], (l + r)[j]) {
      if i < |l| <= j { assert l[i] in l && r[j - |l|] in r; }
    }
    assert forall k :: k in l + r <==> k in l || k in r;
    SortedUnique(l + r, s);
  }

  lemma AppendGreatest(s: set<Bytes>, k: Bytes)
    requires k !in s && forall j :: j in s ==> Less(j, k)
    ensures SortedKeys(s + {k}) == SortedKeys(s) + [k]
  {
    InitialSegment(s, s + {k});
    assert s + {k} - s == {k};
    assert IsLeast(k, {k});
    SortedCons({k}, k);
    assert {k} - {k} == {};
  }

  /** Reading the first unread key that a scan is about. */
  lemma ReadOne(hits: set<Bytes>, rest: set<Bytes>, k: Bytes, done: seq<Bytes>)
    requires IsLeast(k, rest) && k in hits
    requires SortedKeys(hits) == done + SortedKeys(hits * rest)
    ensures SortedKeys(hits) == done + [k] + SortedKeys(hits * (rest - {k}))
  {
    SortedCons(hits * rest, k);
    assert hits * rest - {k} == hits * (rest - {k});
  }

  /** Keys from `from` on. */
  ghost function Onwards(keys: set<Bytes>, from: Bytes): set<Bytes> {
    set j | j in keys && !Less(j, from)
  }

  lemma LeastIsFirst(k: Bytes, keys: set<Bytes>, from: Bytes)
    requires IsLeast(k, Onwards(keys, from))
    ensures Onwards(keys, k) == Onwards(keys, from)
  {
    forall j | j in keys ensures !Less(j, k) <==> !Less(j, from) {
      if !Less(j, k) && Less(j, from) {
        Total(from, k);
        Total(k, j);
        if Less(from, k) {
          Transitive(j, from, k);
        }
      }
      if !Less(j, from) && Less(j, k) {
        Irreflexive(j);
        Transitive(j, k, j);
      }
    }
  }

  lemma AfterFirst(k: Bytes, keys: set<Bytes>)
    requires k in keys
    ensures IsLeast(k, Onwards(keys, k))
    ensures Onwards(keys, k) - {k} == set j | j in keys && Less(k, j)
  {
    forall j | j in keys ensures Less(k, j) <==> !Less(j, k) && j != k {
      Total(k, j);
      Irreflexive(k);
      if Less(k, j) && Less(j, k) { Transitive(k, j, k); }
    }
    Irreflexive(k);
  }

  lemma FirstAfter(prev: Bytes, k: Bytes, keys: set<Bytes>)
    requires IsLeast(k, set j | j in keys && Less(prev, j))
    ensures Onwards(keys, k) == set j | j in keys && Less(prev, j)
  {
    forall j | j in keys ensures Less(prev, j) <==> !Less(j, k) {
      Total(j, k);
      Irreflexive(k);
      if Less(prev, j) && Less(j, k) { Transitive(j, k, j); Irreflexive(j); }
      if Less(k, j) { Transitive(prev, k, j); }
    }
  }

  /** Once a key from the prefix on lacks the prefix, all later keys lack it. */
  lemma PrefixRunEnds(p: Bytes, k: Bytes, keys: set<Bytes>)
    requires IsLeast(k, Onwards(keys, k)) && !Less(k, p) && !(p <= k)
    ensures forall j :: j in Onwards(keys, k) ==> !(p <= j)
  {
    forall j | j in Onwards(keys, k) ensures !(p <= j) {
      if j != k { PrefixContiguous(p, k, j); }
    }
  }

  ghost function WithPrefix(keys: set<Bytes>, p: Bytes): set<Bytes> {
    set k | k in keys && p <= k
  }

  lemma WithPrefixOnwards(keys: set<Bytes>, p: Bytes)
    ensures WithPrefix(keys, p) <= Onwards(keys, p)
  {
    forall k | k in keys && p <= k ensures !Less(k, p) {
      NotBeforePrefix(p, k);
    }
  }

  class Cursor<V> {
    const entries: map<Bytes, V>
    var current: Option<Bytes>

    constructor (entries: map<Bytes, V>)
      ensures this.entries == entries && current == None
    {
      this.entries := entries;
      this.current := None;
    }

    ghost predicate Valid()
      reads this
    {
      current.Some? ==> current.value in entries
    }

    /** The keys from the current one on. */
    ghost function Rest(): set<Bytes>
      reads this
    {
      if current.None? then {} else Onwards(entries.Keys, current.value)
    }

    /** Moves to the first key that is not before `from`. */
    method Seek(from: Bytes)
      modifies this
      ensures Valid() && Rest() == Onwards(entries.Keys, from)
      ensures current.Some? ==> IsLeast(current.value, Rest())
    {
      if exists k :: k in entries.Keys && !Less(k, from) {
        var x :| x in entries.Keys && !Less(x, from);
        assert x in Onwards(entries.Keys, from);
        LeastExists(Onwards(entries.Keys, from));
        ghost var w :| IsLeast(w, Onwards(entries.Keys, from));
        assert w in entries.Keys && !Less(w, from)
          && forall j :: j in entries.Keys && !Less(j, from) && j != w ==> Less(w, j);
        var k :| k in entries.Keys && !Less(k, from)
          && forall j :: j in entries.Keys && !Less(j, from) && j != k ==> Less(k, j);
        assert IsLeast(k, Onwards(entries.Keys, from));
        LeastIsFirst(k, entries.Keys, from);
        current := Some(k);
      } else {
        current := None;
      }
    }

    /** Moves to the key after the current one. */
    method Next()
      requires Valid() && current.Some?
      modifies this
      ensures Valid() && Rest() == old(Rest()) - {old(current.value)}
      ensures current.Some? ==> IsLeast(current.value, Rest())
    {
      var prev := current.value;
      AfterFirst(prev, entries.Keys);
      ghost var after := set j | j in entries.Keys && Less(prev, j);
      if exists k :: k in entries.Keys && Less(prev, k) {
        var x :| x in entries.Keys && Less(prev, x);
        assert x in after;
        LeastExists(after);
        ghost var w :| IsLeast(w, after);
        assert w in entries.Keys && Less(prev, w)
          && forall j :: j in entries.Keys && Less(prev, j) && j != w ==> Less(w, j);
        var k :| k in entries.Keys && Less(prev, k)
          && forall j :: j in entries.Keys && Less(prev, j) && j != k ==> Less(k, j);
        FirstAfter(prev, k, entries.Keys);
        current := Some(k);
      } else {
        current := None;
      }
    }

    /** Visits the keys with the prefix, in order: seeks it and goes on while keys have it. */
    method PrefixKeys(p: Bytes) returns (ks: seq<Bytes>)
      modifies this
      ensures ks == SortedKeys(WithPrefix(entries.Keys, p))
      ensures forall k :: k in ks <==> k in entries && p <= k
    {
      ghost var hits := WithPrefix(entries.Keys, p);
      WithPrefixOnwards(entries.Keys, p);
      ks := [];
      Seek(p);
      assert hits * Rest() == hits;
      while current.Some? && p <= current.value
        invariant Valid()
        invariant current.Some? ==> IsLeast(current.value, Rest())
        invariant forall j :: j in Rest() ==> j in entries && !Less(j, p)
        invariant SortedKeys(hits) == ks + SortedKeys(hits * Rest())
        decreases Rest()
      {
        ReadOne(hits, Rest(), current.value, ks);
        ks := ks + [current.value];
        Next();
      }
      if current.Some? {
        PrefixRunEnds(p, current.value, entries.Keys);
      }
      assert hits * Rest() == {};
      SortedKeysList(hits);
    }
  }
}
