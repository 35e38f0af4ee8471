/**
 Two runs that go wrong, for every pair of part bodies: a part is uploaded again after a call
 that concatenated it failed at PBS.Backup, and the repeated call commits the old `final.img`.
 */
module ProtocolStale {
  import opened Wrappers
  import opened Pbs
  import opened ProtocolState
  import opened ProtocolSteps
  import opened ProtocolInv
  import opened ProtocolRuns
  import opened ProtocolContent
  import opened ProtocolSolo
  import opened ProtocolRetry

  lemma Joins(e: Env, front: seq<Label>, base: State, ls: seq<Label>, t: Tid, r: Request, c: Core, pc: Pc)
    requires Reaches(e, front, base) && Leads(e, base, ls, t, r, c, pc)
    ensures Reaches(e, front + ls, With(base, t, r, c, pc))
  {
    RunConcat(e, INIT, front, ls);
  }

  /** The list of the one part, as a client that uploaded these bytes names it. */
  function OnePart(e: Env, b: Bytes): seq<PartRef> {
    [PartRef(1, e.md5(b))]
  }

  function Requests(e: Env, k: ObjKey, u: UploadId, b1: Bytes, b2: Bytes): seq<Request> {
    [CreateMultipartUpload(k), UploadPart(k, PartId(u, 1), b1), CompleteMultipartUpload(k, u, OnePart(e, b1)),
     UploadPart(k, PartId(u, 1), b2), CompleteMultipartUpload(k, u, OnePart(e, b2))]
  }

  /** The first n requests have been answered, in order, and nothing has been stored. */
  ghost predicate Served(s: State, rs: seq<Request>, n: nat) {
    && n <= |rs| && Quiet(s) && s.core.v == INIT.core.v
    && (forall t: Tid :: t in s.procs <==> t < n) && (forall t: Tid :: t in s.reqs <==> t < n)
    && forall t :: 0 <= t < n ==> s.reqs[t] == rs[t]
  }

  /** The part's record and file, and `final.img`. */
  ghost predicate Scratch(e: Env, d: Desk, k: ObjKey, u: UploadId, b: Bytes, final: Option<Bytes>) {
    && Lookup(d.uploads, u) == Some(k) && Lookup(d.parts, PartId(u, 1)) == Some(e.md5(b))
    && Lookup(d.files, Final(u)) == final
  }

  ghost predicate Uploaded(d: Desk, u: UploadId, b: Bytes) {
    Lookup(d.files, PartFile(PartId(u, 1))) == Some(b)
  }

  lemma NextServed(s: State, rs: seq<Request>, n: nat, c: Core, resp: Resp)
    requires Served(s, rs, n) && n < |rs| && c.v == s.core.v
    ensures Newcomer(s, n) && Served(With(s, n, rs[n], c, Done(resp)), rs, n + 1)
  {
  }

  lemma PartUploaded(e: Env, d: Desk, k: ObjKey, u: UploadId, b: Bytes, final: Option<Bytes>)
    requires Lookup(d.uploads, u) == Some(k) && Lookup(d.files, Final(u)) == final
    ensures var f := PutPart(PartWritten(d, PartId(u, 1), b), PartId(u, 1), e.md5(b));
      Scratch(e, f, k, u, b, final) && Uploaded(f, u, b)
  {
  }

  lemma NoneServed(e: Env, rs: seq<Request>)
    ensures Reaches(e, [], INIT) && Served(INIT, rs, 0)
  {
  }

  lemma FirstCreate(e: Env, k: ObjKey, u: UploadId, rs: seq<Request>) returns (s: State)
    requires rs != [] && rs[0] == CreateMultipartUpload(k)
    ensures Reaches(e, CreateRun(0, k, u), s) && Served(s, rs, 1)
    ensures Lookup(s.core.d.uploads, u) == Some(k) && Lookup(s.core.d.files, Final(u)) == None
  {
    hide ProtocolSolo.Leads;
    hide ProtocolRuns.Reaches;
    hide Served;
    var c0 := INIT.core.(d := NewUpload(INIT.core.d, u, k));
    NoneServed(e, rs);
    Creates(e, INIT, 0, k, u);
    NextServed(INIT, rs, 0, c0, Created(u));
    Joins(e, [], INIT, CreateRun(0, k, u), 0, rs[0], c0, Done(Created(u)));
    assert [] + CreateRun(0, k, u) == CreateRun(0, k, u);
    s := With(INIT, 0, rs[0], c0, Done(Created(u)));
  }

  lemma FirstUpload(e: Env, k: ObjKey, u: UploadId, b1: Bytes, b2: Bytes) returns (ls: seq<Label>, s: State)
    ensures Reaches(e, ls, s) && Smooth(ls) && Served(s, Requests(e, k, u, b1, b2), 2)
    ensures Scratch(e, s.core.d, k, u, b1, None) && Uploaded(s.core.d, u, b1)
  {
    hide ProtocolRuns.Reaches;
    hide Served;
    hide Scratch;
    hide Uploaded;
    var rs := Requests(e, k, u, b1, b2);
    var s1 := FirstCreate(e, k, u, rs);
    ls, s := UploadsNext(e, CreateRun(0, k, u), s1, k, u, rs, 1, b1, None);
  }

  lemma UploadsNext(e: Env, front: seq<Label>, base: State, k: ObjKey, u: UploadId,
      rs: seq<Request>, n: nat, b: Bytes, final: Option<Bytes>)
    returns (ls: seq<Label>, s: State)
    requires Reaches(e, front, base) && Served(base, rs, n) && n < |rs|
    requires rs[n] == UploadPart(k, PartId(u, 1), b)
    requires Lookup(base.core.d.uploads, u) == Some(k) && Lookup(base.core.d.files, Final(u)) == final
    ensures ls == front + UploadRun(n, k, PartId(u, 1), b) && Reaches(e, ls, s) && Served(s, rs, n + 1)
    ensures Scratch(e, s.core.d, k, u, b, final) && Uploaded(s.core.d, u, b)
    ensures forall t :: t in base.procs ==> t in s.procs && s.procs[t] == base.procs[t]
  {
    hide ProtocolSolo.Leads;
    hide ProtocolRuns.Reaches;
    var p, d := PartId(u, 1), base.core.d;
    var c := base.core.(d := PutPart(PartWritten(d, p, b), p, e.md5(b)));
    NextServed(base, rs, n, c, PartStored);
    Uploads(e, base, n, k, p, b);
    PartUploaded(e, d, k, u, b, final);
    Joins(e, front, base, UploadRun(n, k, p, b), n, rs[n], c, Done(PartStored));
    ls, s := front + UploadRun(n, k, p, b), With(base, n, rs[n], c, Done(PartStored));
  }

  lemma ListChecks(e: Env, d: Desk, k: ObjKey, u: UploadId, b: Bytes, final: Option<Bytes>)
    requires Scratch(e, d, k, u, b, final)
    ensures ValidList(d.parts, u, OnePart(e, b))
  {
  }

  lemma PlannedPart(e: Env, d: Desk, u: UploadId, b: Bytes, all: seq<Piece>)
    requires Uploaded(d, u, b)
    ensures AllThere(Plan(d, u, OnePart(e, b)))
    ensures AsPlanned(OnePart(e, b), Plan(d, u, OnePart(e, b)), all) ==> Cat(all) == b
  {
    assert Source(u, OnePart(e, b)[0]) == PartFile(PartId(u, 1));
    if AsPlanned(OnePart(e, b), Plan(d, u, OnePart(e, b)), all) {
      assert all[..|all| - 1] == [];
    }
  }

  /** The first call concatenates the part, and is about to back it up. */
  lemma FirstConcat(e: Env, base: State, k: ObjKey, u: UploadId, b: Bytes) returns (ls: seq<Label>, c: Core)
    requires Inv(e, base) && Quiet(base) && Newcomer(base, 2)
    requires Scratch(e, base.core.d, k, u, b, None) && Uploaded(base.core.d, u, b)
    ensures Smooth(ls) && c.v == base.core.v && Lookup(c.d.files, Final(u)) == Some(b)
    ensures Leads(e, base, ls, 2, CompleteMultipartUpload(k, u, OnePart(e, b)), c, Clock(Job(k, Final(u), b, Some(u))))
  {
    hide ProtocolSolo.Leads;
    hide ProtocolSolo.Quiet;
    hide ProtocolRuns.Inv;
    var list := OnePart(e, b);
    var r := CompleteMultipartUpload(k, u, list);
    ListChecks(e, base.core.d, k, u, b, None);
    Prepares(e, base, 2, k, u, list);
    var c1 := base.core.(d := MkDir(base.core.d, u));
    PlannedPart(e, c1.d, u, b, []);
    var more, d, all := Concats(e, base, LookRun(2, k, u, list), 2, r, c1, k, u, list, Ok);
    PlannedPart(e, c1.d, u, b, all);
    ls, c := LookRun(2, k, u, list) + [Step(2, Ok)] + more, d;
  }

  lemma StillRecorded(e: Env, base: State, ls: seq<Label>, t: Tid, r: Request, c: Core, j: Job, u: UploadId)
    requires Inv(e, base) && Leads(e, base, ls, t, r, c, Clock(j)) && j.via == Some(u)
    ensures Lookup(c.d.uploads, u) == Some(j.key)
  {
    hide ProtocolRuns.Inv;
    hide ProtocolSolo.Leads;
    LeadsKeeps(e, base, ls, t, r, c, Clock(j));
    assert u in Claims(Clock(j));
  }

  /** PBS.Backup of the first call fails. */
  lemma FirstFails(e: Env, k: ObjKey, u: UploadId, b1: Bytes, b2: Bytes)
    returns (front: seq<Label>, m: State, back: seq<Label>, s: State)
    ensures Reaches(e, front, m) && 2 in m.procs && m.procs[2].Backing? && Smooth(front) && Smooth(back)
    ensures Reaches(e, front + [Step(2, Fail(Other, false))] + back, s)
    ensures Served(s, Requests(e, k, u, b1, b2), 3) && s.procs[2] == Done(Failed)
    ensures Lookup(s.core.d.uploads, u) == Some(k) && Lookup(s.core.d.files, Final(u)) == Some(b1)
  {
    hide Scratch;
    hide Uploaded;
    hide ProtocolSolo.Quiet;
    hide ProtocolSolo.Leads;
    hide ProtocolRuns.Reaches;
    hide ProtocolRuns.Inv;
    var rs := Requests(e, k, u, b1, b2);
    var before, base := FirstUpload(e, k, u, b1, b2);
    ReachableInv(e, before, base);
    var ls, c := FirstConcat(e, base, k, u, b1);
    var j := Job(k, Final(u), b1, Some(u));
    StillRecorded(e, base, ls, 2, rs[2], c, j, u);
    NextServed(base, rs, 2, c, Failed);
    Fails(e, base, ls, 2, rs[2], c, j);
    var at := ls + [Step(2, Time(0))] + [Lock(2)];
    Joins(e, before, base, at, 2, rs[2], c, Backing(j, 0, 0, 1));
    back := [Step(2, Ok)] + [Release(2)];
    Joins(e, before, base, at + [Step(2, Fail(Other, false))] + [Step(2, Ok)] + [Release(2)], 2, rs[2], c,
          Done(Failed));
    front, m, s := before + at, With(base, 2, rs[2], c, Backing(j, 0, 0, 1)), With(base, 2, rs[2], c, Done(Failed));
    assert before + (at + [Step(2, Fail(Other, false))] + [Step(2, Ok)] + [Release(2)])
        == front + [Step(2, Fail(Other, false))] + back;
  }

  /** The part is uploaded again, and a second call with its new ETag is about to commit. */
  lemma SecondCall(e: Env, k: ObjKey, u: UploadId, b1: Bytes, b2: Bytes)
    returns (front: seq<Label>, m: State, back: seq<Label>, s: State, more: seq<Label>, c: Core)
    ensures Reaches(e, front, m) && 2 in m.procs && m.procs[2].Backing? && Smooth(front) && Smooth(back) && Smooth(more)
    ensures Reaches(e, front + [Step(2, Fail(Other, false))] + back, s)
    ensures Served(s, Requests(e, k, u, b1, b2), 4) && s.procs[2] == Done(Failed)
    ensures Scratch(e, s.core.d, k, u, b2, Some(b1)) && Uploaded(s.core.d, u, b2) && c == s.core.(d := MkDir(s.core.d, u))
    ensures Leads(e, s, more, 4, Requests(e, k, u, b1, b2)[4], c, Clock(Job(k, Final(u), b1, Some(u))))
  {
    hide ProtocolSolo.Leads;
    hide ProtocolSolo.Quiet;
    hide ProtocolRuns.Reaches;
    var rs := Requests(e, k, u, b1, b2);
    var back1, base;
    front, m, back1, base := FirstFails(e, k, u, b1, b2);
    var ls;
    ls, s := UploadsNext(e, front + [Step(2, Fail(Other, false))] + back1, base, k, u, rs, 3, b2, Some(b1));
    back := back1 + UploadRun(3, k, PartId(u, 1), b2);
    assert ls == front + [Step(2, Fail(Other, false))] + back;
    ListChecks(e, s.core.d, k, u, b2, Some(b1));
    Prepares(e, s, 4, k, u, OnePart(e, b2));
    c := s.core.(d := MkDir(s.core.d, u));
    Reuses(e, s, LookRun(4, k, u, OnePart(e, b2)), 4, rs[4], c, k, u, OnePart(e, b2));
    more := LookRun(4, k, u, OnePart(e, b2)) + [Step(4, Ok), Step(4, Ok)];
  }

  /**
   The run of five requests, one after the other, in which no call fails but the first PBS.Backup:
   the second CompleteMultipartUpload names the new ETag of the part, and stores its old bytes.
   */
  lemma StaleFinalIsStored(e: Env, k: ObjKey, u: UploadId, b1: Bytes, b2: Bytes)
    returns (front: seq<Label>, m: State, back: seq<Label>, s: State)
    ensures Reaches(e, front, m) && 2 in m.procs && m.procs[2].Backing? && Smooth(front) && Smooth(back)
    ensures Reaches(e, front + [Step(2, Fail(Other, false))] + back, s)
    ensures forall t: Tid :: t in s.reqs <==> t < 5
    ensures forall t: Tid :: t < 5 ==> s.reqs[t] == Requests(e, k, u, b1, b2)[t]
    ensures 2 in s.procs && s.procs[2] == Done(Failed) && 4 in s.procs && s.procs[4] == Done(Stored)
    ensures s.core.v.log == [Put(4, k, b1)] && Abstract(s.core.v) == map[k := b1]
  {
    hide ProtocolSolo.Leads;
    hide ProtocolSolo.Quiet;
    hide ProtocolRuns.Reaches;
    var back1, base, more, c;
    front, m, back1, base, more, c := SecondCall(e, k, u, b1, b2);
    var r, j := Requests(e, k, u, b1, b2)[4], Job(k, Final(u), b1, Some(u));
    var d;
    more, d := StoresFinal(e, base, more, 4, r, c, j, k, u);
    back := back1 + more;
    s := With(base, 4, r, d, Done(Stored));
    var ls := front + [Step(2, Fail(Other, false))] + back1;
    Joins(e, ls, base, more, 4, r, d, Done(Stored));
    assert ls + more == front + [Step(2, Fail(Other, false))] + back;
    StoredMap(e, ls + more, s, k, b1);
  }

  lemma StoredMap(e: Env, ls: seq<Label>, s: State, k: ObjKey, b: Bytes)
    requires Reaches(e, ls, s) && s.core.v.log == [Put(4, k, b)]
    ensures Abstract(s.core.v) == map[k := b]
  {
    ReachableInv(e, ls, s);
    assert s.core.v.log[..0] == [];
    assert Replay(s.core.v.log) == ApplyEffect(Replay([]), Put(4, k, b));
  }

  lemma StoresFinal(e: Env, base: State, ls: seq<Label>, t: Tid, r: Request, c: Core, j: Job, k: ObjKey, u: UploadId)
    returns (all: seq<Label>, d: Core)
    requires Quiet(base) && Leads(e, base, ls, t, r, c, Clock(j)) && Smooth(ls) && c.v == INIT.core.v
    requires j == Job(k, Final(u), j.body, Some(u)) && Final(u) in c.d.files
    ensures Leads(e, base, all, t, r, d, Done(Stored)) && Smooth(all) && d.v.log == [Put(t, k, j.body)]
  {
    hide ProtocolSolo.Leads;
    hide ProtocolSolo.Quiet;
    Commits(e, base, ls, t, r, c, j, 0);
    d := Cleans(e, base, ls + CommitRun(t, 0), t, r, Committed(e, c, t, j, 0), k, u);
    all := ls + CommitRun(t, 0) + [Step(t, Ok), Step(t, Ok), Release(t)];
  }

  /**
   A state in which repeats of a failed call do not all store what it tried to store, although
   every call carries one list and no part is opened any more.
   */
  lemma RepeatsMayDiffer(e: Env, k: ObjKey, u: UploadId, b1: Bytes, b2: Bytes) returns (ls: seq<Label>, s: State)
    requires b1 != b2
    ensures Reaches(e, ls, s) && 4 in s.procs && s.procs[4] == Ungroup(Job(k, Final(u), b1, Some(u)), None)
    ensures OneList(s, u, OnePart(e, b2)) && !RepeatsStore(e, s, u, OnePart(e, b2), b1)
  {
    hide ProtocolSolo.Leads;
    hide ProtocolRuns.Reaches;
    var front, m, back, base, more, c := SecondCall(e, k, u, b1, b2);
    var r, j := Requests(e, k, u, b1, b2)[4], Job(k, Final(u), b1, Some(u));
    FailsAtBackup(e, base, more, 4, r, c, j);
    var all := more + [Step(4, Time(0))] + [Lock(4)] + [Step(4, Fail(Other, false))];
    s := With(base, 4, r, c, Ungroup(j, None));
    ls := front + [Step(2, Fail(Other, false))] + back + all;
    Joins(e, front + [Step(2, Fail(Other, false))] + back, base, all, 4, r, c, Ungroup(j, None));
    Disagree(e, s.core.d, u, b1, b2);
    hide RepeatsStore;
    RepeatsStoreTheSameIff(e, ls, s, 4, u, OnePart(e, b2));
  }

  lemma FailsAtBackup(e: Env, base: State, ls: seq<Label>, t: Tid, r: Request, c: Core, j: Job)
    requires Quiet(base) && Leads(e, base, ls, t, r, c, Clock(j))
    ensures Leads(e, base, ls + [Step(t, Time(0))] + [Lock(t)] + [Step(t, Fail(Other, false))], t, r, c, Ungroup(j, None))
  {
    hide ProtocolSolo.Leads;
    Fails(e, base, ls, t, r, c, j);
    Steps(e, base, ls + [Step(t, Time(0))] + [Lock(t)], t, r, c, Backing(j, 0, 0, 1), Fail(Other, false), c,
          Ungroup(j, None));
  }

  lemma Disagree(e: Env, d: Desk, u: UploadId, b1: Bytes, b2: Bytes)
    requires Uploaded(d, u, b2) && b1 != b2
    ensures !PartsAgree(d, u, OnePart(e, b2), b1)
  {
    var list := OnePart(e, b2);
    assert Source(u, list[0]) == PartFile(PartId(u, 1));
    var ps := PiecesOf(d, u, list);
    assert ps[..0] == [] && ps[0].bytes == b2;
    assert Cat(ps) == Cat(ps[..0]) + b2;
  }
}
