/** The multipart tables of internal/store/multipart.go. */
module MultipartStore {
  import opened Wrappers
  import opened ByteOrder
  import opened Bolt
  import opened KeyNames
  import opened Decimals

  datatype MultipartUpload = MultipartUpload(id: Bytes, bucket: Bytes, key: Bytes, lastActivityAt: int)

  datatype PartInfo = PartInfo(number: nat, etag: Bytes, size: nat, tempPath: Bytes)

  function PartKey(id: Bytes, n: nat): Bytes {
    Joined(id, '/', Padded(8, n))
  }

  predicate SlashFree(id: Bytes) {
    '/' !in id
  }

  lemma PartKeyInjective(id1: Bytes, n1: nat, id2: Bytes, n2: nat)
    requires SlashFree(id1) && SlashFree(id2)
    ensures PartKey(id1, n1) == PartKey(id2, n2) <==> id1 == id2 && n1 == n2
    ensures Joined(id1, '/', "") <= PartKey(id2, n2) <==> id1 == id2
  {
    JoinedInjective('/', id1, Padded(8, n1), id2, Padded(8, n2));
    JoinedPrefix('/', id1, "", id2, Padded(8, n2));
    PaddedValue(8, n1);
    PaddedValue(8, n2);
  }

  /** Numbers of at most eight digits sort bytewise as they sort numerically. */
  lemma PartKeyOrder(id: Bytes, m: nat, n: nat)
    requires m < 100000000 && n < 100000000
    ensures Less(PartKey(id, m), PartKey(id, n)) <==> m < n
  {
    CommonPrefix(id + "/", Padded(8, m), Padded(8, n));
    assert Pow10(8) == 100000000 by { PowersOfTen(); }
    PaddedWidth(8, m);
    PaddedWidth(8, n);
    PaddedValue(8, m);
    PaddedValue(8, n);
    ByteOrderIsNumeric(Padded(8, m), Padded(8, n));
  }

  lemma PowersOfTen()
    ensures Pow10(8) == 100000000
  {
    assert Pow10(2) == 100;
    assert Pow10(4) == 10000;
    assert Pow10(6) == 1000000;
  }

  /** The nested table upload -> part number -> part. */
  type Parts = map<(Bytes, nat), PartInfo>

  /** The upload that a part key belongs to. */
  ghost function Owner(k: Bytes): Bytes {
    if k == "" || k[0] == '/' then "" else [k[0]] + Owner(k[1..])
  }

  lemma {:induction false} OwnerOfPartKey(id: Bytes, rest: Bytes)
    requires SlashFree(id)
    ensures Owner(Joined(id, '/', rest)) == id
  {
    var k := Joined(id, '/', rest);
    if id != "" {
      assert k[1..] == Joined(id[1..], '/', rest);
      OwnerOfPartKey(id[1..], rest);
    }
  }

  ghost predicate PartsOk(parts: map<Bytes, PartInfo>) {
    forall k :: k in parts ==> SlashFree(Owner(k)) && k == PartKey(Owner(k), parts[k].number)
  }

  /** The nested table that a flat one stands for. */
  ghost function Nested(parts: map<Bytes, PartInfo>): Parts
    requires PartsOk(parts)
  {
    map x | x in (set k | k in parts :: (Owner(k), parts[k].number)) :: parts[PartKey(x.0, x.1)]
  }

  lemma PartRefines(parts: map<Bytes, PartInfo>, id: Bytes, n: nat)
    requires PartsOk(parts) && SlashFree(id)
    ensures Lookup(parts, PartKey(id, n)) == Lookup(Nested(parts), (id, n))
    ensures PartKey(id, n) in parts ==> parts[PartKey(id, n)].number == n
  {
    OwnerOfPartKey(id, Padded(8, n));
    if PartKey(id, n) in parts {
      PartKeyInjective(id, n, id, parts[PartKey(id, n)].number);
    }
  }

  lemma NestedKeys(parts: map<Bytes, PartInfo>)
    requires PartsOk(parts)
    ensures forall x :: x in Nested(parts) ==> SlashFree(x.0) && PartKey(x.0, x.1) in parts
  {
  }

  /** Flat tables that agree entry by entry with a nested one stand for it. */
  lemma PartsExtensional(parts: map<Bytes, PartInfo>, t: Parts)
    requires PartsOk(parts) && forall x :: x in t ==> SlashFree(x.0)
    requires forall id, n: nat :: SlashFree(id) ==> Lookup(parts, PartKey(id, n)) == Lookup(t, (id, n))
    ensures Nested(parts) == t
  {
    NestedKeys(parts);
    forall x: (Bytes, nat) ensures Lookup(Nested(parts), x) == Lookup(t, x) {
      if SlashFree(x.0) { PartRefines(parts, x.0, x.1); }
    }
    forall x ensures (x in t <==> x in Nested(parts)) && (x in t ==> t[x] == Nested(parts)[x]) {
      assert Lookup(Nested(parts), x) == Lookup(t, x);
    }
  }

  ghost function Without(t: Parts, id: Bytes): Parts {
    map x | x in t && x.0 != id :: t[x]
  }

  /** Removing the keys under "id/" removes exactly that upload's parts. */
  lemma CascadeIsExact(parts: map<Bytes, PartInfo>, id: Bytes)
    requires PartsOk(parts) && SlashFree(id)
    ensures var left := parts - WithPrefix(parts.Keys, id + "/");
      PartsOk(left) && Nested(left) == Without(Nested(parts), id)
  {
    var left := parts - WithPrefix(parts.Keys, id + "/");
    var t := Without(Nested(parts), id);
    NestedKeys(parts);
    forall u, n: nat | SlashFree(u) ensures Lookup(left, PartKey(u, n)) == Lookup(t, (u, n)) {
      PartRefines(parts, u, n);
      PartKeyInjective(id, n, u, n);
      assert Joined(id, '/', "") == id + "/";
    }
    PartsExtensional(left, t);
  }

  lemma PutIsNested(parts: map<Bytes, PartInfo>, id: Bytes, p: PartInfo)
    requires PartsOk(parts) && SlashFree(id)
    ensures var more := parts[PartKey(id, p.number) := p];
      PartsOk(more) && Nested(more) == Nested(parts)[(id, p.number) := p]
  {
    var more := parts[PartKey(id, p.number) := p];
    OwnerOfPartKey(id, Padded(8, p.number));
    NestedKeys(parts);
    forall u, n: nat | SlashFree(u)
      ensures Lookup(more, PartKey(u, n)) == Lookup(Nested(parts)[(id, p.number) := p], (u, n))
    {
      PartRefines(parts, u, n);
      PartKeyInjective(id, p.number, u, n);
    }
    PartsExtensional(more, Nested(parts)[(id, p.number) := p]);
  }

  ghost predicate NumbersFit(t: Parts) {
    forall x :: x in t ==> x.1 < 100000000
  }

  /** `ps` lists the parts of one upload, each once, by number. */
  ghost predicate ListsParts(t: Parts, id: Bytes, ps: seq<PartInfo>) {
    && (forall p :: p in ps ==> Lookup(t, (id, p.number)) == Some(p))
    && (forall x :: x in t && x.0 == id ==> t[x] in ps)
    && (NumbersFit(t) ==> forall i, j :: 0 <= i < j < |ps| ==> ps[i].number < ps[j].number)
  }

  /** The values under "id/", in key order, are the upload's parts in numeric order. */
  lemma ScanListsParts(parts: map<Bytes, PartInfo>, id: Bytes, ks: seq<Bytes>, ps: seq<PartInfo>)
    requires PartsOk(parts) && SlashFree(id) && |ks| == |ps|
    requires ks == SortedKeys(WithPrefix(parts.Keys, id + "/"))
    requires forall i :: 0 <= i < |ks| ==> ks[i] in parts && parts[ks[i]] == ps[i]
    ensures ListsParts(Nested(parts), id, ps)
  {
    var t := Nested(parts);
    SortedKeysList(WithPrefix(parts.Keys, id + "/"));
    assert Joined(id, '/', "") == id + "/";
    forall i | 0 <= i < |ks| ensures ks[i] == PartKey(id, ps[i].number) && Lookup(t, (id, ps[i].number)) == Some(ps[i]) {
      assert ks[i] in ks;
      PartKeyInjective(id, 0, Owner(ks[i]), ps[i].number);
      PartRefines(parts, id, ps[i].number);
    }
    NestedKeys(parts);
    forall x | x in t && x.0 == id ensures t[x] in ps {
      PartRefines(parts, id, x.1);
      PartKeyInjective(id, 0, id, x.1);
      var k := PartKey(id, x.1);
      assert k in ks;
      var i :| 0 <= i < |ks| && ks[i] == k;
      assert ps[i] == t[x];
    }
    if NumbersFit(t) {
      forall i, j | 0 <= i < j < |ps| ensures ps[i].number < ps[j].number {
        assert (id, ps[i].number) in t && (id, ps[j].number) in t;
        PartKeyOrder(id, ps[i].number, ps[j].number);
      }
    }
  }

  predicate Matches(u: MultipartUpload, bucket: Bytes, key: Bytes) {
    u.bucket == bucket && u.key == key
  }

  type Uploads = map<Bytes, MultipartUpload>

  ghost function StaleIds(uploads: Uploads, cutoff: int): set<Bytes> {
    set id | id in uploads && uploads[id].lastActivityAt < cutoff
  }

  /** The ids of the first n uploads. */
  ghost function IdsOf(us: seq<MultipartUpload>, n: nat): set<Bytes>
    requires n <= |us|
  {
    set i | 0 <= i < n :: us[i].id
  }

  lemma OneMoreId(us: seq<MultipartUpload>, n: nat)
    requires n < |us|
    ensures IdsOf(us, n + 1) == IdsOf(us, n) + {us[n].id} && us[n].id in IdsOf(us, |us|)
  {
  }

  lemma AppendId(us: seq<MultipartUpload>, u: MultipartUpload)
    ensures IdsOf(us + [u], |us| + 1) == IdsOf(us, |us|) + {u.id}
  {
    OneMoreId(us + [u], |us|);
    assert forall i :: 0 <= i < |us| ==> (us + [u])[i] == us[i];
  }

  class DB {
    var uploads: map<Bytes, MultipartUpload>
    var parts: map<Bytes, PartInfo>

    constructor ()
      ensures Valid() && uploads == map[] && Parts() == map[]
    {
      uploads, parts := map[], map[];
    }

    ghost predicate Valid()
      reads this
    {
      PartsOk(parts) && forall id :: id in uploads ==> uploads[id].id == id && SlashFree(id)
    }

    ghost function Parts(): Parts
      requires Valid()
      reads this
    {
      Nested(parts)
    }

    method CreateUpload(u: MultipartUpload)
      requires Valid() && SlashFree(u.id)
      modifies this
      ensures Valid() && uploads == old(uploads)[u.id := u] && Parts() == old(Parts())
    {
      uploads := uploads[u.id := u];
    }

    method GetUpload(id: Bytes) returns (u: Option<MultipartUpload>)
      ensures u == Lookup(uploads, id)
    {
      u := Lookup(uploads, id);
    }

    /** False is ErrNotFound. */
    method TouchUpload(id: Bytes, now: int) returns (found: bool)
      requires Valid()
      modifies this
      ensures Valid() && Parts() == old(Parts()) && found == (id in old(uploads))
      ensures uploads == if found then old(uploads)[id := old(uploads)[id].(lastActivityAt := now)] else old(uploads)
    {
      found := id in uploads;
      if found {
        uploads := uploads[id := uploads[id].(lastActivityAt := now)];
      }
    }

    method PutPart(id: Bytes, p: PartInfo)
      requires Valid() && SlashFree(id)
      modifies this
      ensures Valid() && uploads == old(uploads) && Parts() == old(Parts())[(id, p.number) := p]
    {
      PutIsNested(parts, id, p);
      parts := parts[PartKey(id, p.number) := p];
    }

    /** Removes the upload and, whatever other uploads exist, exactly its own parts. */
    method DeleteUpload(id: Bytes) returns (found: bool)
      requires Valid() && SlashFree(id)
      modifies this
      ensures Valid() && found == (id in old(uploads)) && uploads == old(uploads) - {id}
      ensures Parts() == if found then Without(old(Parts()), id) else old(Parts())
    {
      if id !in uploads {
        return false;
      }
      uploads := uploads - {id};
      var prefix := id + "/";
      CascadeIsExact(parts, id);
      var c := new Cursor(parts);
      var toDelete := c.PrefixKeys(prefix);
      assert WithPrefix(parts.Keys, prefix) == set k | k in toDelete;
      DeleteParts(toDelete);
      return true;
    }

    method DeleteParts(toDelete: seq<Bytes>)
      modifies this`parts
      ensures parts == old(parts) - set k | k in toDelete
    {
      var i := 0;
      while i < |toDelete|
        invariant 0 <= i <= |toDelete|
        invariant forall k :: k in parts <==> k in old(parts) && k !in toDelete[..i]
        invariant forall k :: k in parts ==> parts[k] == old(parts)[k]
      {
        parts := parts - {toDelete[i]};
        i := i + 1;
      }
    }

    /** The upload's parts, each once and in ascending order of their numbers. */
    method ListParts(id: Bytes) returns (ps: seq<PartInfo>)
      requires Valid() && SlashFree(id)
      ensures ListsParts(Parts(), id, ps)
    {
      hide PartsOk;
      hide ListsParts;
      var c := new Cursor(parts);
      var ks := c.PrefixKeys(id + "/");
      assert forall i :: 0 <= i < |ks| ==> ks[i] in parts by { SortedKeysList(WithPrefix(parts.Keys, id + "/")); }
      hide Bolt.SortedKeys;
      ps := [];
      while |ps| < |ks|
        invariant |ps| <= |ks|
        invariant forall i :: 0 <= i < |ps| ==> ks[i] in parts && parts[ks[i]] == ps[i]
      {
        ps := ps + [parts[ks[|ps|]]];
      }
      ScanListsParts(parts, id, ks, ps);
    }

    /** Every upload whose last activity was before the cutoff. */
    method ListUploadsOlderThan(cutoff: int) returns (us: seq<MultipartUpload>)
      requires Valid()
      ensures forall i :: 0 <= i < |us| ==> Lookup(uploads, us[i].id) == Some(us[i]) && us[i].lastActivityAt < cutoff
      ensures IdsOf(us, |us|) == StaleIds(uploads, cutoff)
    {
      us := [];
      var ids := ListAllUploadIDs();
      var i := 0;
      while i < |ids|
        invariant 0 <= i <= |ids|
        invariant forall j :: 0 <= j < |us| ==> Lookup(uploads, us[j].id) == Some(us[j]) && us[j].lastActivityAt < cutoff
        invariant IdsOf(us, |us|) == set j | 0 <= j < i && uploads[ids[j]].lastActivityAt < cutoff :: ids[j]
      {
        var u := uploads[ids[i]];
        if u.lastActivityAt < cutoff {
          AppendId(us, u);
          us := us + [u];
        }
        i := i + 1;
      }
    }

    /** Every upload for the object. */
    method FindUploadsByBucketKey(bucket: Bytes, key: Bytes) returns (us: seq<MultipartUpload>)
      requires Valid()
      ensures forall i :: 0 <= i < |us| ==> Lookup(uploads, us[i].id) == Some(us[i]) && Matches(us[i], bucket, key)
      ensures IdsOf(us, |us|) == set id | id in uploads && Matches(uploads[id], bucket, key)
    {
      us := [];
      var ids := ListAllUploadIDs();
      var i := 0;
      while i < |ids|
        invariant 0 <= i <= |ids|
        invariant forall j :: 0 <= j < |us| ==> Lookup(uploads, us[j].id) == Some(us[j]) && Matches(us[j], bucket, key)
        invariant IdsOf(us, |us|) == set j | 0 <= j < i && Matches(uploads[ids[j]], bucket, key) :: ids[j]
      {
        var u := uploads[ids[i]];
        if Matches(u, bucket, key) {
          AppendId(us, u);
          us := us + [u];
        }
        i := i + 1;
      }
    }

    /** Every upload id, once, in byte order: the keys that ForEach visits. */
    method ListAllUploadIDs() returns (ids: seq<Bytes>)
      ensures ids == SortedKeys(uploads.Keys)
      ensures forall id :: id in ids <==> id in uploads
    {
      var c := new Cursor(uploads);
      ids := c.PrefixKeys("");
      assert WithPrefix(uploads.Keys, "") == uploads.Keys;
    }
  }
}
