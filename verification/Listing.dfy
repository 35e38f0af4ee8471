/** ListObjects of internal/backend/backend.go: the over-fetch and the delimiter grouping. */
module Listing {
  import opened Wrappers
  import opened Bolt
  import opened KeyNames
  import opened ObjectStore
  import opened Grouping

  datatype ObjectInfo = ObjectInfo(key: Bytes, size: nat, etag: Bytes)

  function InfoOf(m: ObjectMapping): ObjectInfo {
    ObjectInfo(m.key, m.size, m.etag)
  }

  function InfoKeys(os: seq<ObjectInfo>): seq<Bytes> {
    seq(|os|, i requires 0 <= i < |os| => os[i].key)
  }

  /** The first place where d occurs in s, or -1. */
  method IndexOf(s: Bytes, d: Bytes) returns (idx: int)
    ensures idx >= 0 ==> OccursAt(s, d, idx) && forall j: nat :: j < idx ==> !OccursAt(s, d, j)
    ensures idx < 0 <==> !Occurs(s, d)
  {
    var i := 0;
    while i + |d| <= |s|
      invariant forall j: nat :: j < i ==> !OccursAt(s, d, j)
    {
      if s[i..i + |d|] == d {
        assert OccursAt(s, d, i);
        return i;
      }
      i := i + 1;
    }
    return -1;
  }

  /** The common prefix that a key is grouped under, if there is a delimiter after the prefix. */
  method CommonPrefixOf(prefix: Bytes, delimiter: Bytes, key: Bytes) returns (cp: Option<Bytes>)
    requires prefix <= key
    ensures cp.Some? <==> Grouped(prefix, delimiter, key)
    ensures cp.Some? ==> cp.value == GroupOf(prefix, delimiter, key)
  {
    var rest := key[|prefix|..];
    if delimiter != "" {
      var idx := IndexOf(rest, delimiter);
      if idx >= 0 {
        CutIsGroup(prefix, delimiter, key, idx);
        return Some(prefix + rest[..idx + |delimiter|]);
      }
    }
    return None;
  }

  lemma InfoKeysSnoc(os: seq<ObjectInfo>, o: ObjectInfo)
    ensures InfoKeys(os + [o]) == InfoKeys(os) + [o.key]
  {
  }

  /** The code's count of entries is the number of keys and common prefixes listed. */
  lemma Fullness(ks: seq<Bytes>, i: nat, prefix: Bytes, d: Bytes, n: int, shown: seq<Bytes>, cps: seq<Bytes>)
    requires i < |ks| && Shown(ks, i, prefix, d, shown, cps)
    ensures IsFull(ks, i, prefix, d, n) <==> !Grouped(prefix, d, ks[i]) && |shown| + |cps| >= n
  {
    hide Bolt.SortedKeys;
    SortedKeysSize(Ungrouped(First(ks, i), prefix, d));
    SortedKeysSize(Groups(First(ks, i), prefix, d));
  }

  /** Lists objects and common prefixes from at most four times as many mappings as asked for. */
  method ListObjects(db: DB, bucket: Bytes, prefix: Bytes, delimiter: Bytes, startAfter: Bytes, maxKeys: int)
    returns (objects: seq<ObjectInfo>, commonPrefixes: seq<Bytes>, truncated: bool)
    requires db.Valid() && NulFree(bucket) && 1 <= maxKeys
    ensures IsListing(Listed(db.Objects(), bucket, prefix, startAfter), prefix, delimiter, maxKeys,
                      InfoKeys(objects), commonPrefixes, truncated)
    ensures forall o :: o in objects ==>
      (bucket, o.key) in db.Objects() && o == InfoOf(db.Objects()[(bucket, o.key)])
  {
    hide Grouping.Shown;
    hide Grouping.IsFull;
    hide Grouping.IsListing;
    hide Grouping.Grouped;
    hide ObjectStore.Listed;
    var mappings;
    mappings, truncated := db.ListObjects(bucket, prefix, startAfter, maxKeys * 4);
    ghost var s := Listed(db.Objects(), bucket, prefix, startAfter);
    ghost var ks := Keys(mappings);
    PageKeys(db.Objects(), bucket, prefix, startAfter, maxKeys * 4);
    ghost var more := truncated;
    var seenPrefixes: set<Bytes> := {};
    objects, commonPrefixes := [], [];
    var i := 0;
    ShownAtFirst(ks, prefix, delimiter);
    assert InfoKeys([]) == [];
    while i < |mappings|
      invariant 0 <= i <= |mappings| && truncated == more
      invariant Shown(ks, i, prefix, delimiter, InfoKeys(objects), commonPrefixes)
      invariant forall j :: 0 <= j < i ==> !IsFull(ks, j, prefix, delimiter, maxKeys)
      invariant forall cp :: cp in seenPrefixes <==> cp in commonPrefixes
      invariant forall o :: o in objects ==>
        (bucket, o.key) in db.Objects() && o == InfoOf(db.Objects()[(bucket, o.key)])
    {
      var m := mappings[i];
      assert ks[i] == m.key;
      var cp := CommonPrefixOf(prefix, delimiter, m.key);
      Fullness(ks, i, prefix, delimiter, maxKeys, InfoKeys(objects), commonPrefixes);
      if cp.Some? {
        ShowGroup(ks, i, prefix, delimiter, InfoKeys(objects), commonPrefixes, cp.value);
        if cp.value !in seenPrefixes {
          seenPrefixes := seenPrefixes + {cp.value};
          commonPrefixes := commonPrefixes + [cp.value];
        }
        i := i + 1;
        continue;
      }
      if |objects| + |commonPrefixes| >= maxKeys {
        truncated := true;
        break;
      }
      ShowKey(ks, i, prefix, delimiter, InfoKeys(objects), commonPrefixes);
      InfoKeysSnoc(objects, InfoOf(m));
      objects := objects + [InfoOf(m)];
      i := i + 1;
    }
    ListingDone(s, prefix, delimiter, maxKeys, ks, i, InfoKeys(objects), commonPrefixes, truncated);
  }
}
