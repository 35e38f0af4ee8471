/** How CompleteMultipartUpload checks the client's part list against the recorded parts. */
module Completion {
  import opened Wrappers
  import opened MultipartStore
  import P = ProtocolState
  import S = ProtocolSteps

  type Table = map<nat, PartInfo>

  /** The last record of each number. */
  function ByNumber(stored: seq<PartInfo>): Table {
    if stored == [] then map[]
    else ByNumber(stored[..|stored| - 1])[stored[|stored| - 1].number := stored[|stored| - 1]]
  }

  lemma {:induction false} ByNumberHolds(stored: seq<PartInfo>, i: nat)
    requires i < |stored|
    ensures stored[i].number in ByNumber(stored)
    ensures (forall j :: i < j < |stored| ==> stored[i].number < stored[j].number) ==>
      ByNumber(stored)[stored[i].number] == stored[i]
    decreases |stored|
  {
    if i < |stored| - 1 {
      ByNumberHolds(stored[..|stored| - 1], i);
    }
  }

  /** The recorded ETags, as the protocol keeps them. */
  ghost function Etags(id: Bytes, m: Table): map<P.PartId, Bytes> {
    map p: P.PartId | p in (set n | n in m :: P.PartId(id, n)) :: m[p.number].etag
  }

  predicate Recorded(m: Table, p: P.PartRef) {
    p.number in m && m[p.number].etag == p.etag
  }

  lemma EtagOf(id: Bytes, m: Table, p: P.PartRef)
    ensures Lookup(Etags(id, m), P.PartId(id, p.number)) == Some(p.etag) <==> Recorded(m, p)
  {
    if p.number in m {
      assert P.PartId(id, p.number) in Etags(id, m);
    }
  }

  /** The first n listed parts pass every check. */
  predicate Passes(m: Table, parts: seq<P.PartRef>, n: nat)
    requires n <= |parts|
  {
    && (n > 0 ==> 0 < parts[0].number)
    && (forall i :: 0 < i < n ==> parts[i - 1].number < parts[i].number)
    && (forall i :: 0 <= i < n ==> Recorded(m, parts[i]))
  }

  lemma PassesIsValid(id: Bytes, m: Table, parts: seq<P.PartRef>)
    ensures S.ValidList(Etags(id, m), id, parts) <==> parts != [] && Passes(m, parts, |parts|)
  {
    forall i | 0 <= i < |parts|
      ensures Lookup(Etags(id, m), P.PartId(id, parts[i].number)) == Some(parts[i].etag) <==> Recorded(m, parts[i])
    {
      EtagOf(id, m, parts[i]);
    }
  }

  method IndexParts(stored: seq<PartInfo>) returns (byNumber: Table)
    ensures byNumber == ByNumber(stored)
  {
    byNumber := map[];
    var k := 0;
    while k < |stored|
      invariant 0 <= k <= |stored| && byNumber == ByNumber(stored[..k])
    {
      assert stored[..k + 1][..k] == stored[..k];
      byNumber := byNumber[stored[k].number := stored[k]];
      k := k + 1;
    }
    assert stored[..k] == stored;
  }

  /** The scratch paths of the listed parts, or None when the list is refused. */
  method CheckParts(id: Bytes, stored: seq<PartInfo>, parts: seq<P.PartRef>) returns (paths: Option<seq<Bytes>>)
    ensures paths.Some? <==> S.ValidList(Etags(id, ByNumber(stored)), id, parts)
    ensures paths.Some? ==> |paths.value| == |parts|
    ensures paths.Some? ==> forall i :: 0 <= i < |parts| ==>
      parts[i].number in ByNumber(stored) && paths.value[i] == ByNumber(stored)[parts[i].number].tempPath
  {
    var byNumber := IndexParts(stored);
    PassesIsValid(id, byNumber, parts);
    if |parts| == 0 { return None; }
    var found: seq<Bytes> := [];
    var prevPartNumber := 0;
    var i := 0;
    while i < |parts|
      invariant 0 <= i == |found| <= |parts| && Passes(byNumber, parts, i)
      invariant prevPartNumber == if i == 0 then 0 else parts[i - 1].number
      invariant forall j :: 0 <= j < i ==> found[j] == byNumber[parts[j].number].tempPath
    {
      var p := parts[i];
      if p.number <= prevPartNumber { return None; }
      prevPartNumber := p.number;
      if p.number !in byNumber { return None; }
      if byNumber[p.number].etag != p.etag { return None; }
      found := found + [byNumber[p.number].tempPath];
      i := i + 1;
    }
    return Some(found);
  }

  function Refs(ps: seq<PartInfo>): seq<P.PartRef> {
    seq(|ps|, i requires 0 <= i < |ps| => P.PartRef(ps[i].number, ps[i].etag))
  }

  /** What ListParts shows a client, Complete accepts, unless there is nothing to list. */
  lemma ListedPartsComplete(t: Parts, id: Bytes, ps: seq<PartInfo>)
    requires ListsParts(t, id, ps) && NumbersFit(t) && forall x :: x in t ==> 1 <= x.1
    ensures S.ValidList(Etags(id, ByNumber(ps)), id, Refs(ps)) <==> ps != []
  {
    forall i | 0 <= i < |ps| ensures 1 <= ps[i].number && Recorded(ByNumber(ps), Refs(ps)[i]) {
      assert ps[i] in ps && (id, ps[i].number) in t;
      ByNumberHolds(ps, i);
    }
    PassesIsValid(id, ByNumber(ps), Refs(ps));
  }
}
