/** Grouping the keys of a listing by delimiter: what each key is listed as, and in which order. */
module Grouping {
  import opened Wrappers
  import opened ByteOrder
  import opened Bolt
  import opened KeyNames
  import opened ObjectStore

  predicate OccursAt(s: Bytes, d: Bytes, i: nat) {
    i + |d| <= |s| && s[i..i + |d|] == d
  }

  predicate Occurs(s: Bytes, d: Bytes) {
    exists i :: 0 <= i <= |s| && OccursAt(s, d, i)
  }

  /** `cp` is the key's common prefix: the key up to and with the first delimiter after the prefix. */
  ghost predicate IsGroup(prefix: Bytes, d: Bytes, key: Bytes, cp: Bytes) {
    && prefix <= cp <= key
    && var i := |cp| - |prefix| - |d|;
    i >= 0 && OccursAt(key[|prefix|..], d, i) && forall j: nat :: j < i ==> !OccursAt(key[|prefix|..], d, j)
  }

  ghost predicate Grouped(prefix: Bytes, d: Bytes, key: Bytes) {
    d != "" && prefix <= key && Occurs(key[|prefix|..], d)
  }

  lemma {:induction false} FirstOccurrence(s: Bytes, d: Bytes, n: nat)
    requires OccursAt(s, d, n)
    ensures exists i: nat :: i <= n && OccursAt(s, d, i) && forall j: nat :: j < i ==> !OccursAt(s, d, j)
    decreases n
  {
    if j: nat :| j < n && OccursAt(s, d, j) {
      FirstOccurrence(s, d, j);
    }
  }

  lemma SameInside(s: Bytes, t: Bytes, n: nat, i: nat, j: nat)
    requires n <= |s| && n <= |t| && s[..n] == t[..n] && i <= j <= n
    ensures s[i..j] == t[i..j]
  {
    forall x | i <= x < j ensures s[x] == t[x] {
      assert s[..n][x] == t[..n][x];
    }
  }

  /** A key that starts with the common prefix of a listed key has that very common prefix. */
  lemma OneGroupOnly(prefix: Bytes, d: Bytes, key: Bytes, cp: Bytes, other: Bytes)
    requires IsGroup(prefix, d, key, cp) && cp <= other
    ensures IsGroup(prefix, d, other, cp)
  {
    var i := |cp| - |prefix| - |d|;
    var s, t := key[|prefix|..], other[|prefix|..];
    assert forall x :: 0 <= x < |cp| ==> key[x] == cp[x] == other[x];
    assert s[..i + |d|] == t[..i + |d|];
    SameInside(s, t, i + |d|, i, i + |d|);
    forall j: nat | j < i ensures !OccursAt(t, d, j) {
      SameInside(s, t, i + |d|, j, j + |d|);
      assert !OccursAt(s, d, j);
    }
  }

  lemma GroupUnique(prefix: Bytes, d: Bytes, key: Bytes, a: Bytes, b: Bytes)
    requires IsGroup(prefix, d, key, a) && IsGroup(prefix, d, key, b)
    ensures a == b
  {
    var i, j := |a| - |prefix| - |d|, |b| - |prefix| - |d|;
    assert i == j;
  }

  lemma {:induction false} BeforeExtends(a: Bytes, b: Bytes, k: Bytes, l: Bytes)
    requires Less(a, b) && !(a <= b) && a <= k && b <= l
    ensures Less(k, l)
  {
    assert a != "";
    if a[0] == b[0] {
      assert k[1..][..|a| - 1] == a[1..] && l[1..][..|b| - 1] == b[1..];
      assert !(a[1..] <= b[1..]) by { assert a == [a[0]] + a[1..] && b == [b[0]] + b[1..]; }
      BeforeExtends(a[1..], b[1..], k[1..], l[1..]);
    }
  }

  /** Keys of different groups are in the order of their common prefixes. */
  lemma GroupsInOrder(prefix: Bytes, d: Bytes, k: Bytes, a: Bytes, l: Bytes, b: Bytes)
    requires Less(k, l) && IsGroup(prefix, d, k, a) && IsGroup(prefix, d, l, b) && a != b
    ensures Less(a, b)
  {
    if b <= a {
      OneGroupOnly(prefix, d, l, b, k);
      GroupUnique(prefix, d, k, a, b);
    } else {
      Total(a, b);
      if Less(b, a) {
        BeforeExtends(b, a, l, k);
        Transitive(k, l, k);
        Irreflexive(k);
      }
    }
  }

  ghost function GroupOf(prefix: Bytes, d: Bytes, key: Bytes): (cp: Bytes)
    requires Grouped(prefix, d, key)
    ensures IsGroup(prefix, d, key, cp)
  {
    var s := key[|prefix|..];
    var n :| 0 <= n <= |s| && OccursAt(s, d, n);
    FirstOccurrence(s, d, n);
    var i: nat :| i <= n && OccursAt(s, d, i) && forall j: nat :: j < i ==> !OccursAt(s, d, j);
    GroupAt(prefix, d, key, i);
    key[..|prefix| + i + |d|]
  }

  lemma GroupAt(prefix: Bytes, d: Bytes, key: Bytes, i: nat)
    requires prefix <= key && OccursAt(key[|prefix|..], d, i)
    requires forall j: nat :: j < i ==> !OccursAt(key[|prefix|..], d, j)
    ensures |prefix| + i + |d| <= |key| && IsGroup(prefix, d, key, key[..|prefix| + i + |d|])
    ensures key[..|prefix| + i + |d|] == prefix + key[|prefix|..][..i + |d|]
  {
  }

  /** The listed keys that have no delimiter after the prefix. */
  ghost function Ungrouped(s: set<Bytes>, prefix: Bytes, d: Bytes): set<Bytes> {
    set k | k in s && !Grouped(prefix, d, k)
  }

  ghost function Groups(s: set<Bytes>, prefix: Bytes, d: Bytes): set<Bytes> {
    set k | k in s && Grouped(prefix, d, k) :: GroupOf(prefix, d, k)
  }

  /** Every listed key is listed itself or lies under exactly one common prefix, never both. */
  lemma GroupingPartitions(s: set<Bytes>, prefix: Bytes, d: Bytes, key: Bytes)
    requires key in s && forall k :: k in s ==> prefix <= k
    ensures key in Ungrouped(s, prefix, d) <==> forall cp :: cp in Groups(s, prefix, d) ==> !(cp <= key)
    ensures forall a, b :: a in Groups(s, prefix, d) && b in Groups(s, prefix, d) && a <= key && b <= key ==> a == b
    ensures forall a, b :: a in Groups(s, prefix, d) && b in Groups(s, prefix, d) && a <= b ==> a == b
  {
    forall cp | cp in Groups(s, prefix, d) && cp <= key
      ensures Grouped(prefix, d, key) && cp == GroupOf(prefix, d, key)
    {
      InGroup(s, prefix, d, cp, key);
    }
    forall a, b | a in Groups(s, prefix, d) && b in Groups(s, prefix, d) && a <= b ensures a == b {
      var k :| k in s && Grouped(prefix, d, k) && b == GroupOf(prefix, d, k);
      InGroup(s, prefix, d, a, k);
    }
    if Grouped(prefix, d, key) {
      assert GroupOf(prefix, d, key) in Groups(s, prefix, d);
    }
  }

  lemma InGroup(s: set<Bytes>, prefix: Bytes, d: Bytes, cp: Bytes, key: Bytes)
    requires cp in Groups(s, prefix, d) && cp <= key
    ensures Grouped(prefix, d, key) && cp == GroupOf(prefix, d, key)
  {
    var k :| k in s && Grouped(prefix, d, k) && cp == GroupOf(prefix, d, k);
    OneGroupOnly(prefix, d, k, cp, key);
    var i := |cp| - |prefix| - |d|;
    assert OccursAt(key[|prefix|..], d, i);
    GroupUnique(prefix, d, key, cp, GroupOf(prefix, d, key));
  }

  ghost function First(ks: seq<Bytes>, i: nat): set<Bytes>
    requires i <= |ks|
  {
    set k | k in ks[..i]
  }

  lemma AddUngrouped(ks: seq<Bytes>, i: nat, prefix: Bytes, d: Bytes)
    requires i < |ks| && Ascending(ks) && !Grouped(prefix, d, ks[i])
    ensures SortedKeys(Ungrouped(First(ks, i + 1), prefix, d)) == SortedKeys(Ungrouped(First(ks, i), prefix, d)) + [ks[i]]
    ensures Groups(First(ks, i + 1), prefix, d) == Groups(First(ks, i), prefix, d)
  {
    var s := Ungrouped(First(ks, i), prefix, d);
    Irreflexive(ks[i]);
    assert First(ks, i + 1) == First(ks, i) + {ks[i]};
    assert Ungrouped(First(ks, i + 1), prefix, d) == s + {ks[i]};
    AppendGreatest(s, ks[i]);
  }

  lemma AddGrouped(ks: seq<Bytes>, i: nat, prefix: Bytes, d: Bytes)
    requires i < |ks| && Ascending(ks) && Grouped(prefix, d, ks[i])
    ensures Ungrouped(First(ks, i + 1), prefix, d) == Ungrouped(First(ks, i), prefix, d)
    ensures var cp, s := GroupOf(prefix, d, ks[i]), Groups(First(ks, i), prefix, d);
      Groups(First(ks, i + 1), prefix, d) == s + {cp}
      && (cp !in s ==> SortedKeys(s + {cp}) == SortedKeys(s) + [cp])
  {
    var cp, s := GroupOf(prefix, d, ks[i]), Groups(First(ks, i), prefix, d);
    assert First(ks, i + 1) == First(ks, i) + {ks[i]};
    assert Groups(First(ks, i + 1), prefix, d) == s + {cp};
    if cp !in s {
      forall a | a in s ensures Less(a, cp) {
        var k :| k in First(ks, i) && Grouped(prefix, d, k) && a == GroupOf(prefix, d, k);
        GroupsInOrder(prefix, d, k, a, ks[i], cp);
      }
      AppendGreatest(s, cp);
    }
  }

  /** What is listed after some first keys comes after what was listed from them. */
  lemma FirstsAreInitial(ks: seq<Bytes>, i: nat, s: set<Bytes>, prefix: Bytes, d: Bytes)
    requires i <= |ks| && ks <= SortedKeys(s)
    ensures SortedKeys(Ungrouped(First(ks, i), prefix, d)) <= SortedKeys(Ungrouped(s, prefix, d))
    ensures SortedKeys(Groups(First(ks, i), prefix, d)) <= SortedKeys(Groups(s, prefix, d))
  {
    var a, keys := First(ks, i), SortedKeys(s);
    SortedKeysList(s);
    forall x, y | x in a && y in s - a ensures Less(x, y) {
      var m :| 0 <= m < i && ks[m] == x;
      assert y in keys;
      var n :| 0 <= n < |keys| && keys[n] == y;
      assert keys[m] == x;
      assert forall q :: 0 <= q < i ==> keys[q] == ks[q] && ks[q] in ks[..i];
    }
    assert a <= s by {
      forall x | x in a ensures x in s {
        var m :| 0 <= m < i && ks[m] == x;
        assert keys[m] in keys;
      }
    }
    InitialSegment(Ungrouped(a, prefix, d), Ungrouped(s, prefix, d));
    forall x, y | x in Groups(a, prefix, d) && y in Groups(s, prefix, d) - Groups(a, prefix, d) ensures Less(x, y) {
      var k :| k in a && Grouped(prefix, d, k) && x == GroupOf(prefix, d, k);
      var l :| l in s && Grouped(prefix, d, l) && y == GroupOf(prefix, d, l);
      GroupsInOrder(prefix, d, k, x, l, y);
    }
    InitialSegment(Groups(a, prefix, d), Groups(s, prefix, d));
  }

  /** What the loop has listed after reading i keys. */
  ghost predicate Shown(ks: seq<Bytes>, i: nat, prefix: Bytes, d: Bytes, shown: seq<Bytes>, cps: seq<Bytes>) {
    && i <= |ks|
    && shown == SortedKeys(Ungrouped(First(ks, i), prefix, d))
    && cps == SortedKeys(Groups(First(ks, i), prefix, d))
  }

  lemma ShownAtFirst(ks: seq<Bytes>, prefix: Bytes, d: Bytes)
    ensures Shown(ks, 0, prefix, d, [], [])
  {
    assert First(ks, 0) == {};
  }

  /** The code's cut at the first delimiter is the key's group. */
  lemma CutIsGroup(prefix: Bytes, d: Bytes, key: Bytes, idx: nat)
    requires d != "" && prefix <= key && OccursAt(key[|prefix|..], d, idx)
    requires forall j: nat :: j < idx ==> !OccursAt(key[|prefix|..], d, j)
    ensures Grouped(prefix, d, key) && prefix + key[|prefix|..][..idx + |d|] == GroupOf(prefix, d, key)
  {
    GroupAt(prefix, d, key, idx);
    GroupUnique(prefix, d, key, key[..|prefix| + idx + |d|], GroupOf(prefix, d, key));
  }

  lemma ShowGroup(ks: seq<Bytes>, i: nat, prefix: Bytes, d: Bytes, shown: seq<Bytes>, cps: seq<Bytes>, cp: Bytes)
    requires i < |ks| && Ascending(ks) && Shown(ks, i, prefix, d, shown, cps)
    requires Grouped(prefix, d, ks[i]) && cp == GroupOf(prefix, d, ks[i])
    ensures Shown(ks, i + 1, prefix, d, shown, if cp in cps then cps else cps + [cp])
  {
    AddGrouped(ks, i, prefix, d);
    var g := Groups(First(ks, i), prefix, d);
    SortedKeysList(g);
    if cp in g { assert g + {cp} == g; }
  }

  lemma ShowKey(ks: seq<Bytes>, i: nat, prefix: Bytes, d: Bytes, shown: seq<Bytes>, cps: seq<Bytes>)
    requires i < |ks| && Ascending(ks) && Shown(ks, i, prefix, d, shown, cps)
    requires !Grouped(prefix, d, ks[i])
    ensures Shown(ks, i + 1, prefix, d, shown + [ks[i]], cps)
  {
    AddUngrouped(ks, i, prefix, d);
  }

  /** The i-th key is to be listed as an object, but n objects and common prefixes precede it. */
  ghost predicate IsFull(ks: seq<Bytes>, i: nat, prefix: Bytes, d: Bytes, n: int) {
    && i < |ks| && !Grouped(prefix, d, ks[i])
    && |Ungrouped(First(ks, i), prefix, d)| + |Groups(First(ks, i), prefix, d)| >= n
  }

  /** The listing ends with the i-th of the keys, the first that there is no room for, or with all of them. */
  ghost predicate StopsAt(ks: seq<Bytes>, i: nat, prefix: Bytes, d: Bytes, n: int) {
    i <= |ks| && (i < |ks| ==> IsFull(ks, i, prefix, d, n)) && forall j :: 0 <= j < i ==> !IsFull(ks, j, prefix, d, n)
  }

  /**
   What a listing of the keys `s` is: of the first 4n keys, those up to the one it stops at,
   each as itself or under its common prefix; truncated exactly when that is not all.
   */
  ghost predicate IsListing(s: set<Bytes>, prefix: Bytes, d: Bytes, n: int,
                            shown: seq<Bytes>, cps: seq<Bytes>, truncated: bool)
  {
    var ks := Take(SortedKeys(s), 4 * n);
    exists i: nat :: StopsAt(ks, i, prefix, d, n) && Shown(ks, i, prefix, d, shown, cps) && (truncated <==> i < |s|)
  }

  lemma ListingDone(s: set<Bytes>, prefix: Bytes, d: Bytes, n: int, ks: seq<Bytes>, i: nat,
                    shown: seq<Bytes>, cps: seq<Bytes>, truncated: bool)
    requires n >= 1 && ks == Take(SortedKeys(s), 4 * n) && Shown(ks, i, prefix, d, shown, cps)
    requires StopsAt(ks, i, prefix, d, n) && (truncated <==> |s| > 4 * n || i < |ks|)
    ensures IsListing(s, prefix, d, n, shown, cps, truncated)
  {
    hide Shown;
    hide IsFull;
    SortedKeysSize(s);
  }

  /** Both lists are initial segments of the full lists, and they are the full lists unless truncated. */
  lemma ListingIsInitial(s: set<Bytes>, prefix: Bytes, d: Bytes, n: int, shown: seq<Bytes>, cps: seq<Bytes>,
                         truncated: bool)
    requires n >= 1 && IsListing(s, prefix, d, n, shown, cps, truncated)
    ensures var keys, groups := SortedKeys(Ungrouped(s, prefix, d)), SortedKeys(Groups(s, prefix, d));
      shown <= keys && cps <= groups && (!truncated ==> shown == keys && cps == groups)
  {
    hide Bolt.SortedKeys;
    var ks := Take(SortedKeys(s), 4 * n);
    var i: nat :| StopsAt(ks, i, prefix, d, n) && Shown(ks, i, prefix, d, shown, cps) && (truncated <==> i < |s|);
    FirstsAreInitial(ks, i, s, prefix, d);
    SortedKeysSize(s);
    AllRead(ks, s);
  }

  /** Without a delimiter a listing is the first n keys, truncated exactly when there are more. */
  lemma FlatIsFirstKeys(s: set<Bytes>, prefix: Bytes, n: int, shown: seq<Bytes>, cps: seq<Bytes>, truncated: bool)
    requires n >= 1 && IsListing(s, prefix, "", n, shown, cps, truncated)
    ensures shown == Take(SortedKeys(s), n) && cps == [] && (truncated <==> |s| > n)
  {
    hide Bolt.SortedKeys;
    var ks := Take(SortedKeys(s), 4 * n);
    var i: nat :| StopsAt(ks, i, prefix, "", n) && Shown(ks, i, prefix, "", shown, cps) && (truncated <==> i < |s|);
    SortedKeysSize(s);
    FlatDone(ks, i, prefix, shown, cps);
    FlatStop(ks, i, prefix, n);
  }

  lemma FlatStop(ks: seq<Bytes>, i: nat, prefix: Bytes, n: int)
    requires n >= 1 && Ascending(ks) && StopsAt(ks, i, prefix, "", n)
    ensures i == if |ks| <= n then |ks| else n
  {
    FirstsCounted(ks, i, prefix);
    if n < |ks| {
      FirstsCounted(ks, n, prefix);
      assert IsFull(ks, n, prefix, "", n);
    }
  }

  lemma FirstsCounted(ks: seq<Bytes>, i: nat, prefix: Bytes)
    requires i <= |ks| && Ascending(ks)
    ensures |Ungrouped(First(ks, i), prefix, "")| + |Groups(First(ks, i), prefix, "")| == i
  {
    NoGroups(First(ks, i), prefix);
    SortedUnique(ks[..i], First(ks, i));
    SortedKeysList(First(ks, i));
  }

  /** A listing that can show everything, in at most n entries and from at most 4n keys, does. */
  lemma FittingIsWhole(s: set<Bytes>, prefix: Bytes, d: Bytes, n: int, shown: seq<Bytes>, cps: seq<Bytes>,
                       truncated: bool)
    requires n >= 1 && IsListing(s, prefix, d, n, shown, cps, truncated)
    requires |s| <= 4 * n && |Ungrouped(s, prefix, d)| + |Groups(s, prefix, d)| <= n
    ensures !truncated && shown == SortedKeys(Ungrouped(s, prefix, d)) && cps == SortedKeys(Groups(s, prefix, d))
  {
    hide Bolt.SortedKeys;
    var ks := Take(SortedKeys(s), 4 * n);
    var i: nat :| StopsAt(ks, i, prefix, d, n) && Shown(ks, i, prefix, d, shown, cps) && (truncated <==> i < |s|);
    SortedKeysSize(s);
    if i < |ks| {
      OneMoreToCome(ks, i, s, prefix, d);
      assert false;
    }
    ListingIsInitial(s, prefix, d, n, shown, cps, truncated);
  }

  /** Before an ungrouped key, not everything has been listed. */
  lemma OneMoreToCome(ks: seq<Bytes>, i: nat, s: set<Bytes>, prefix: Bytes, d: Bytes)
    requires i < |ks| && Ascending(ks) && (forall k :: k in ks ==> k in s) && !Grouped(prefix, d, ks[i])
    ensures |Ungrouped(First(ks, i), prefix, d)| + |Groups(First(ks, i), prefix, d)|
          < |Ungrouped(s, prefix, d)| + |Groups(s, prefix, d)|
  {
    var a := First(ks, i);
    assert ks[i] !in a by { Irreflexive(ks[i]); }
    assert ks[i] in ks;
    assert a <= s by { forall k | k in a ensures k in s { assert k in ks; } }
    assert Ungrouped(a, prefix, d) + {ks[i]} <= Ungrouped(s, prefix, d);
    Smaller(Ungrouped(a, prefix, d) + {ks[i]}, Ungrouped(s, prefix, d));
    assert Groups(a, prefix, d) <= Groups(s, prefix, d);
    Smaller(Groups(a, prefix, d), Groups(s, prefix, d));
  }

  lemma Smaller(a: set<Bytes>, b: set<Bytes>)
    requires a <= b
    ensures |a| <= |b|
  {
    assert b == a + (b - a);
  }

  /**
   Common prefixes are never refused: where all keys are grouped, all their prefixes are
   listed, and so there may be more than n.
   */
  lemma GroupsAreNotLimited(s: set<Bytes>, prefix: Bytes, d: Bytes, n: int, shown: seq<Bytes>, cps: seq<Bytes>,
                            truncated: bool)
    requires n >= 1 && IsListing(s, prefix, d, n, shown, cps, truncated)
    requires |s| <= 4 * n && forall k :: k in s ==> Grouped(prefix, d, k)
    ensures !truncated && shown == [] && cps == SortedKeys(Groups(s, prefix, d))
  {
    hide Bolt.SortedKeys;
    var ks := Take(SortedKeys(s), 4 * n);
    var i: nat :| StopsAt(ks, i, prefix, d, n) && Shown(ks, i, prefix, d, shown, cps) && (truncated <==> i < |s|);
    SortedKeysSize(s);
    assert forall j :: 0 <= j < |ks| ==> ks[j] in SortedKeys(s);
    assert Ungrouped(s, prefix, d) == {};
    SortedKeysSize(Ungrouped(s, prefix, d));
    ListingIsInitial(s, prefix, d, n, shown, cps, truncated);
  }

  lemma SortedKeysSize(s: set<Bytes>)
    ensures Ascending(SortedKeys(s)) && |SortedKeys(s)| == |s| && forall k :: k in SortedKeys(s) <==> k in s
  {
    SortedKeysList(s);
  }

  lemma AllRead(ks: seq<Bytes>, s: set<Bytes>)
    requires ks == Take(SortedKeys(s), |ks|)
    ensures |ks| == |s| ==> First(ks, |ks|) == s
  {
    SortedKeysList(s);
    assert ks[..|ks|] == ks;
  }

  lemma NoGroups(s: set<Bytes>, prefix: Bytes)
    ensures Ungrouped(s, prefix, "") == s && Groups(s, prefix, "") == {}
  {
  }

  lemma FlatDone(ks: seq<Bytes>, i: nat, prefix: Bytes, shown: seq<Bytes>, cps: seq<Bytes>)
    requires Shown(ks, i, prefix, "", shown, cps) && Ascending(ks)
    ensures shown == ks[..i] && cps == []
  {
    assert Ungrouped(First(ks, i), prefix, "") == First(ks, i);
    assert Groups(First(ks, i), prefix, "") == {};
    SortedUnique(ks[..i], First(ks, i));
  }

  /** A listing's keys all have the prefix. */
  lemma PageKeys(t: Table, bucket: Bytes, prefix: Bytes, after: Bytes, n: int)
    ensures var ks := Page(t, bucket, prefix, after, n);
      Ascending(ks) && forall i :: 0 <= i < |ks| ==> prefix <= ks[i]
  {
    var s := Listed(t, bucket, prefix, after);
    SortedKeysList(s);
    var ks := Page(t, bucket, prefix, after, n);
    forall i | 0 <= i < |ks| ensures prefix <= ks[i] {
      assert SortedKeys(s)[i] in s;
    }
  }
}
