/**
 The object table of internal/store/objects.go: a nested table bucket -> key -> mapping kept
 in one flat, byte-sorted bbolt bucket, and its prefix scan.
 */
module ObjectStore {
  import opened Wrappers
  import opened ByteOrder
  import opened Bolt
  import opened KeyNames
  import opened Pbs

  datatype ObjectMapping = ObjectMapping(bucket: Bytes, key: Bytes, at: Coord, size: nat, etag: Bytes)

  function ObjectMapKey(bucket: Bytes, key: Bytes): Bytes {
    Pair(bucket, key)
  }

  function FlatKey(m: ObjectMapping): Bytes {
    ObjectMapKey(m.bucket, m.key)
  }

  /** The nested table that the flat one stands for. */
  type Table = map<(Bytes, Bytes), ObjectMapping>

  /** The first n, all of them when there are fewer, none when n is negative. */
  function Take<T>(s: seq<T>, n: int): seq<T> {
    if n <= 0 then [] else if n < |s| then s[..n] else s
  }

  ghost predicate Past(after: Bytes, key: Bytes) {
    after == "" || Less(after, key)
  }

  ghost predicate FlatPast(bucket: Bytes, after: Bytes, flat: Bytes) {
    after == "" || Less(Pair(bucket, after), flat)
  }

  /** The keys of `bucket` that a listing is about. */
  ghost function Listed(t: Table, bucket: Bytes, prefix: Bytes, after: Bytes): set<Bytes> {
    set x | x in t.Keys && x.0 == bucket && prefix <= x.1 && Past(after, x.1) :: x.1
  }

  function Keys(ms: seq<ObjectMapping>): seq<Bytes> {
    seq(|ms|, i requires 0 <= i < |ms| => ms[i].key)
  }

  class DB {
    var objects: map<Bytes, ObjectMapping>

    constructor ()
      ensures Valid() && Objects() == map[]
    {
      objects := map[];
    }

    ghost predicate Valid()
      reads this
    {
      forall k :: k in objects ==> k == FlatKey(objects[k]) && NulFree(objects[k].bucket)
    }

    ghost function Objects(): Table
      requires Valid()
      reads this
    {
      map x | x in (set m | m in objects.Values :: (m.bucket, m.key)) :: objects[ObjectMapKey(x.0, x.1)]
    }

    /** The flat table has an entry exactly where the nested one has. */
    lemma Refines(bucket: Bytes, key: Bytes)
      requires Valid() && NulFree(bucket)
      ensures Lookup(objects, ObjectMapKey(bucket, key)) == Lookup(Objects(), (bucket, key))
    {
      var k := ObjectMapKey(bucket, key);
      if k in objects {
        var m := objects[k];
        assert m in objects.Values;
        PairInjective(bucket, key, m.bucket, m.key);
      }
      if (bucket, key) in Objects() {
        var m :| m in objects.Values && m.bucket == bucket && m.key == key;
        assert k in objects;
      }
    }

    /** Two valid flat tables that agree entry by entry stand for the same nested table. */
    lemma Extensional(t: Table)
      requires Valid()
      requires forall x :: x in t ==> NulFree(x.0)
      requires forall b, k :: NulFree(b) ==> Lookup(objects, ObjectMapKey(b, k)) == Lookup(t, (b, k))
      ensures Objects() == t
    {
      forall x: (Bytes, Bytes) | NulFree(x.0) ensures Lookup(Objects(), x) == Lookup(t, x) {
        Refines(x.0, x.1);
      }
      forall x | x in Objects() ensures NulFree(x.0) {
        var m :| m in objects.Values && (m.bucket, m.key) == x;
      }
      forall x ensures Lookup(Objects(), x) == Lookup(t, x) {
        if !NulFree(x.0) { assert x !in Objects() && x !in t; }
      }
      assert forall x :: (x in t <==> x in Objects()) && (x in t ==> t[x] == Objects()[x]) by {
        forall x ensures (x in t <==> x in Objects()) && (x in t ==> t[x] == Objects()[x]) {
          assert Lookup(Objects(), x) == Lookup(t, x);
        }
      }
    }

    method PutObjectMapping(m: ObjectMapping)
      requires Valid() && NulFree(m.bucket)
      modifies this
      ensures Valid() && Objects() == old(Objects())[(m.bucket, m.key) := m]
    {
      ghost var t := Objects();
      forall b, k | NulFree(b)
        ensures Lookup(objects, ObjectMapKey(b, k)) == Lookup(t, (b, k))
        ensures ObjectMapKey(b, k) == FlatKey(m) <==> (b, k) == (m.bucket, m.key)
      {
        Refines(b, k);
        PairInjective(b, k, m.bucket, m.key);
      }
      KeysNulFree();
      objects := objects[FlatKey(m) := m];
      Extensional(t[(m.bucket, m.key) := m]);
    }

    lemma KeysNulFree()
      requires Valid()
      ensures forall x :: x in Objects() ==> NulFree(x.0)
    {
    }

    method GetObjectMapping(bucket: Bytes, key: Bytes) returns (m: Option<ObjectMapping>)
      requires Valid() && NulFree(bucket)
      ensures m == Lookup(Objects(), (bucket, key))
    {
      Refines(bucket, key);
      m := Lookup(objects, ObjectMapKey(bucket, key));
    }

    /** False is ErrNotFound. */
    method DeleteObjectMapping(bucket: Bytes, key: Bytes) returns (found: bool)
      requires Valid() && NulFree(bucket)
      modifies this
      ensures Valid() && Objects() == old(Objects()) - {(bucket, key)}
      ensures found <==> (bucket, key) in old(Objects())
    {
      Refines(bucket, key);
      ghost var t := Objects();
      forall b, k | NulFree(b)
        ensures Lookup(objects, ObjectMapKey(b, k)) == Lookup(t, (b, k))
        ensures ObjectMapKey(b, k) == ObjectMapKey(bucket, key) <==> (b, k) == (bucket, key)
      {
        Refines(b, k);
        PairInjective(b, k, bucket, key);
      }
      KeysNulFree();
      var k := ObjectMapKey(bucket, key);
      found := k in objects;
      if found {
        objects := objects - {k};
      }
      Extensional(t - {(bucket, key)});
    }

    /** The flat keys that a listing is about. */
    ghost function Hits(bucket: Bytes, prefix: Bytes, after: Bytes): set<Bytes>
      reads this
    {
      set k | k in objects.Keys && Pair(bucket, prefix) <= k && FlatPast(bucket, after, k)
    }

    /** The scan of the flat table lists the same keys, in the same order, as the nested one. */
    lemma HitsAreListed(bucket: Bytes, prefix: Bytes, after: Bytes)
      requires Valid() && NulFree(bucket)
      ensures var keys := SortedKeys(Listed(Objects(), bucket, prefix, after));
        SortedKeys(Hits(bucket, prefix, after)) == seq(|keys|, i requires 0 <= i < |keys| => Pair(bucket, keys[i]))
    {
      var s := Listed(Objects(), bucket, prefix, after);
      var hits := Hits(bucket, prefix, after);
      var keys := SortedKeys(s);
      SortedKeysList(s);
      var flat := seq(|keys|, i requires 0 <= i < |keys| => Pair(bucket, keys[i]));
      forall i, j | 0 <= i < j < |flat| ensures Less(flat[i], flat[j]) {
        CommonPrefix(bucket + [NUL], keys[i], keys[j]);
      }
      forall k ensures k in flat <==> k in hits {
        if k in flat {
          var i :| 0 <= i < |flat| && flat[i] == k;
          assert keys[i] in s;
          ListedIsHit(bucket, prefix, after, keys[i]);
        }
        if k in hits {
          var m := objects[k];
          assert m in objects.Values;
          PairPrefix(bucket, prefix, m.bucket, m.key);
          ListedIsHit(bucket, prefix, after, m.key);
          assert m.key in keys;
          var i :| 0 <= i < |keys| && keys[i] == m.key;
          assert flat[i] == k;
        }
      }
      SortedUnique(flat, hits);
    }

    lemma ListedIsHit(bucket: Bytes, prefix: Bytes, after: Bytes, key: Bytes)
      requires Valid() && NulFree(bucket)
      ensures key in Listed(Objects(), bucket, prefix, after) <==> Pair(bucket, key) in Hits(bucket, prefix, after)
    {
      Refines(bucket, key);
      PairPrefix(bucket, prefix, bucket, key);
      CommonPrefix(bucket + [NUL], after, key);
    }

    lemma HitsFollowPrefix(bucket: Bytes, prefix: Bytes, after: Bytes)
      ensures Hits(bucket, prefix, after) <= Onwards(objects.Keys, Pair(bucket, prefix))
    {
      forall k | k in Hits(bucket, prefix, after) ensures !Less(k, Pair(bucket, prefix)) {
        NotBeforePrefix(Pair(bucket, prefix), k);
      }
    }

    /** The mappings found at flat keys of the bucket are those of the object keys. */
    lemma FoundMappings(bucket: Bytes, flat: seq<Bytes>, keys: seq<Bytes>, ms: seq<ObjectMapping>)
      requires Valid() && NulFree(bucket) && |flat| == |ms| <= |keys|
      requires forall i :: 0 <= i < |flat| ==> flat[i] == Pair(bucket, keys[i])
      requires forall i :: 0 <= i < |flat| ==> flat[i] in objects && objects[flat[i]] == ms[i]
      ensures Keys(ms) == keys[..|ms|]
      ensures forall m :: m in ms ==> Lookup(Objects(), (bucket, m.key)) == Some(m)
    {
      forall i | 0 <= i < |ms| ensures ms[i].key == keys[i] && Lookup(Objects(), (bucket, keys[i])) == Some(ms[i]) {
        PairInjective(bucket, keys[i], ms[i].bucket, ms[i].key);
        Refines(bucket, keys[i]);
      }
    }

    /** What a scan that stopped with `left` still unread has found. */
    lemma ScanIsListing(bucket: Bytes, prefix: Bytes, after: Bytes, maxKeys: int,
                        flat: seq<Bytes>, ms: seq<ObjectMapping>, left: set<Bytes>)
      requires Valid() && NulFree(bucket) && |flat| == |ms|
      requires SortedKeys(Hits(bucket, prefix, after)) == flat + SortedKeys(left)
      requires |ms| <= (if maxKeys > 0 then maxKeys else 0)
      requires left == {} || |ms| >= maxKeys
      requires forall i :: 0 <= i < |flat| ==> flat[i] in objects && objects[flat[i]] == ms[i]
      ensures var listed := Listed(Objects(), bucket, prefix, after);
        && Keys(ms) == Take(SortedKeys(listed), maxKeys)
        && (left != {} <==> |listed| > if maxKeys > 0 then maxKeys else 0)
      ensures forall m :: m in ms ==> Lookup(Objects(), (bucket, m.key)) == Some(m)
    {
      HitsAreListed(bucket, prefix, after);
      var listed := Listed(Objects(), bucket, prefix, after);
      var keys := SortedKeys(listed);
      SortedKeysList(listed);
      SortedKeysList(left);
      assert forall i :: 0 <= i < |flat| ==> flat[i] == SortedKeys(Hits(bucket, prefix, after))[i];
      FoundMappings(bucket, flat, keys, ms);
    }

    /** The read transaction of ListObjects: `flat` are the keys whose mappings it collects. */
    method Scan(bucket: Bytes, prefix: Bytes, startAfter: Bytes, maxKeys: int)
      returns (mappings: seq<ObjectMapping>, truncated: bool, flat: seq<Bytes>, ghost left: set<Bytes>)
      ensures SortedKeys(Hits(bucket, prefix, startAfter)) == flat + SortedKeys(left)
      ensures |flat| == |mappings| <= if maxKeys > 0 then maxKeys else 0
      ensures forall i :: 0 <= i < |flat| ==> flat[i] in objects && objects[flat[i]] == mappings[i]
      ensures if truncated then left != {} && |mappings| >= maxKeys else left == {}
    {
      hide Bolt.SortedKeys;
      var prefixBytes := Pair(bucket, prefix);
      var startAfterKey := Pair(bucket, startAfter);
      ghost var hits := Hits(bucket, prefix, startAfter);
      mappings, truncated, flat := [], false, [];
      var c := new Cursor(objects);
      c.Seek(prefixBytes);
      assert hits * c.Rest() == hits by { HitsFollowPrefix(bucket, prefix, startAfter); }
      while c.current.Some? && prefixBytes <= c.current.value
        invariant c.Valid() && c.entries == objects
        invariant c.current.Some? ==> IsLeast(c.current.value, c.Rest())
        invariant forall j :: j in c.Rest() ==> j in objects && !Less(j, prefixBytes)
        invariant SortedKeys(hits) == flat + SortedKeys(hits * c.Rest())
        invariant |flat| == |mappings| <= if maxKeys > 0 then maxKeys else 0
        invariant forall i :: 0 <= i < |flat| ==> flat[i] in objects && objects[flat[i]] == mappings[i]
        decreases c.Rest()
      {
        var k := c.current.value;
        if startAfter != "" && !Less(startAfterKey, k) {
          assert hits * c.Rest() == hits * (c.Rest() - {k});
          c.Next();
          continue;
        }
        assert k in hits * c.Rest();
        if |mappings| >= maxKeys {
          return mappings, true, flat, hits * c.Rest();
        }
        ReadOne(hits, c.Rest(), k, flat);
        mappings := mappings + [objects[k]];
        flat := flat + [k];
        c.Next();
      }
      if c.current.Some? {
        PrefixRunEnds(prefixBytes, c.current.value, objects.Keys);
      }
      left := hits * c.Rest();
    }

    /**
     The first maxKeys mappings of the bucket, in key order, whose key has the prefix and comes
     after `startAfter`; `truncated` says exactly whether there are more.
     */
    method ListObjects(bucket: Bytes, prefix: Bytes, startAfter: Bytes, maxKeys: int)
      returns (mappings: seq<ObjectMapping>, truncated: bool)
      requires Valid() && NulFree(bucket)
      ensures Keys(mappings) == Page(Objects(), bucket, prefix, startAfter, maxKeys)
      ensures forall m :: m in mappings ==> Lookup(Objects(), (bucket, m.key)) == Some(m)
      ensures truncated <==> |Listed(Objects(), bucket, prefix, startAfter)| > if maxKeys > 0 then maxKeys else 0
    {
      var flat;
      ghost var left;
      mappings, truncated, flat, left := Scan(bucket, prefix, startAfter, maxKeys);
      ScanIsListing(bucket, prefix, startAfter, maxKeys, flat, mappings, left);
    }
  }

  // ---- Pagination ----

  /** One page, as ListObjects returns it. */
  ghost function Page(t: Table, bucket: Bytes, prefix: Bytes, after: Bytes, n: int): seq<Bytes> {
    Take(SortedKeys(Listed(t, bucket, prefix, after)), n)
  }

  /** What is listed after the last key of a full page is the rest of the listing, unless that key is empty. */
  lemma NextPage(t: Table, bucket: Bytes, prefix: Bytes, after: Bytes, n: nat)
    requires 1 <= n < |Listed(t, bucket, prefix, after)|
    ensures var keys := SortedKeys(Listed(t, bucket, prefix, after));
      && n < |keys|
      && (keys[n - 1] != "" ==>
            && SortedKeys(Listed(t, bucket, prefix, keys[n - 1])) == keys[n..]
            && |Listed(t, bucket, prefix, keys[n - 1])| < |Listed(t, bucket, prefix, after)|)
  {
    SortedKeysList(Listed(t, bucket, prefix, after));
    if SortedKeys(Listed(t, bucket, prefix, after))[n - 1] != "" { RestIsListed(t, bucket, prefix, after, n); }
  }

  lemma RestIsListed(t: Table, bucket: Bytes, prefix: Bytes, after: Bytes, n: nat)
    requires var keys := SortedKeys(Listed(t, bucket, prefix, after)); 1 <= n < |keys| && keys[n - 1] != ""
    ensures var keys := SortedKeys(Listed(t, bucket, prefix, after));
      SortedKeys(Listed(t, bucket, prefix, keys[n - 1])) == keys[n..]
    ensures var keys := SortedKeys(Listed(t, bucket, prefix, after));
      |Listed(t, bucket, prefix, keys[n - 1])| < |Listed(t, bucket, prefix, after)|
  {
    var s := Listed(t, bucket, prefix, after);
    var keys := SortedKeys(s);
    SortedKeysList(s);
    var last, rest := keys[n - 1], keys[n..];
    assert last in keys;
    var s' := Listed(t, bucket, prefix, last);
    forall k ensures k in rest <==> k in s' {
      if k in rest {
        var i :| 0 <= i < |rest| && rest[i] == k;
        assert keys[n + i] == k && k in keys;
      }
      if k in s' {
        if after != "" { Transitive(after, last, k); }
        assert k in s && k in keys;
        var i :| 0 <= i < |keys| && keys[i] == k;
        if i < n {
          if i < n - 1 { Transitive(k, last, k); }
          Irreflexive(k);
        }
        assert rest[i - n] == k;
      }
    }
    SortedUnique(rest, s');
    SortedKeysList(s');
  }

  datatype Paging = Paging(keys: seq<Bytes>, finished: bool)

  /** The keys of at most m pages, each asked for after the last key of the one before. */
  ghost function Pages(t: Table, bucket: Bytes, prefix: Bytes, after: Bytes, n: nat, m: nat): Paging
    requires 1 <= n
    decreases m
  {
    var page := Page(t, bucket, prefix, after, n);
    if m == 0 then Paging([], false)
    else if |Listed(t, bucket, prefix, after)| <= n || page == [] then Paging(page, true)
    else
      var rest := Pages(t, bucket, prefix, page[|page| - 1], n, m - 1);
      Paging(page + rest.keys, rest.finished)
  }

  /** The first page is the empty key, there are more keys, and "after the empty key" means "from the start". */
  ghost predicate Stuck(t: Table, bucket: Bytes, prefix: Bytes, after: Bytes, n: nat) {
    n == 1 && prefix == "" && after == "" && (bucket, "") in t && |Listed(t, bucket, prefix, after)| > 1
  }

  /** The empty key comes first, and only in a listing from the start. */
  lemma EmptyKeyIsFirst(t: Table, bucket: Bytes, prefix: Bytes, after: Bytes, n: nat)
    requires 1 <= n < |Listed(t, bucket, prefix, after)|
    ensures var keys := SortedKeys(Listed(t, bucket, prefix, after));
      n < |keys| && (keys[n - 1] == "" <==> Stuck(t, bucket, prefix, after, n))
  {
    var s := Listed(t, bucket, prefix, after);
    var keys := SortedKeys(s);
    SortedKeysList(s);
    if keys[n - 1] == "" {
      assert "" in keys;
      assert n > 1 ==> Less(keys[n - 2], keys[n - 1]);
    }
    if Stuck(t, bucket, prefix, after, n) {
      assert (bucket, "") in t.Keys && "" in s && "" in keys;
      var i :| 0 <= i < |keys| && keys[i] == "";
      assert forall j :: 0 <= j < i ==> Less(keys[j], keys[i]);
    }
  }

  lemma {:induction false} StuckForever(t: Table, bucket: Bytes, n: nat, m: nat)
    requires Stuck(t, bucket, "", "", n)
    ensures !Pages(t, bucket, "", "", n, m).finished
    decreases m
  {
    EmptyKeyIsFirst(t, bucket, "", "", n);
    if m > 0 { StuckForever(t, bucket, n, m - 1); }
  }

  /** A page that is not the last one, and what is asked for after it. */
  lemma OnePageMore(t: Table, bucket: Bytes, prefix: Bytes, after: Bytes, n: nat, m: nat)
    requires 1 <= n < |Listed(t, bucket, prefix, after)| && 0 < m
    ensures var keys := SortedKeys(Listed(t, bucket, prefix, after));
      && n < |keys|
      && Pages(t, bucket, prefix, after, n, m)
      == Paging(keys[..n] + Pages(t, bucket, prefix, keys[n - 1], n, m - 1).keys,
                Pages(t, bucket, prefix, keys[n - 1], n, m - 1).finished)
  {
    SortedKeysList(Listed(t, bucket, prefix, after));
  }

  lemma {:induction false} EnoughPages(t: Table, bucket: Bytes, prefix: Bytes, after: Bytes, n: nat, m: nat)
    requires 1 <= n && !Stuck(t, bucket, prefix, after, n) && m > |Listed(t, bucket, prefix, after)|
    ensures Pages(t, bucket, prefix, after, n, m) == Paging(SortedKeys(Listed(t, bucket, prefix, after)), true)
    decreases m
  {
    hide Bolt.SortedKeys;
    hide Listed;
    var keys := SortedKeys(Listed(t, bucket, prefix, after));
    SortedKeysList(Listed(t, bucket, prefix, after));
    if n < |Listed(t, bucket, prefix, after)| {
      EmptyKeyIsFirst(t, bucket, prefix, after, n);
      NextPage(t, bucket, prefix, after, n);
      OnePageMore(t, bucket, prefix, after, n, m);
      hide Pages;
      EnoughPages(t, bucket, prefix, keys[n - 1], n, m - 1);
      assert keys == keys[..n] + keys[n..];
    }
  }

  /**
   Pagination from the last key of each page comes to an end with every matching key once, in
   byte order, for every table and page size, but for the one case in which it repeats its
   first page forever: a page of one that is the empty key, with more keys behind it.
   */
  lemma PagesCoverListingIff(t: Table, bucket: Bytes, prefix: Bytes, after: Bytes, n: nat)
    requires 1 <= n
    ensures (exists m :: Pages(t, bucket, prefix, after, n, m) == Paging(SortedKeys(Listed(t, bucket, prefix, after)), true))
       <==> !Stuck(t, bucket, prefix, after, n)
  {
    if Stuck(t, bucket, prefix, after, n) {
      forall m: nat ensures !Pages(t, bucket, prefix, after, n, m).finished {
        StuckForever(t, bucket, n, m);
      }
    } else {
      EnoughPages(t, bucket, prefix, after, n, |Listed(t, bucket, prefix, after)| + 1);
    }
  }
}
