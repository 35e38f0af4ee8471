/** Runs of one request with no other beside it, step by step. */
module ProtocolSolo {
  import opened Wrappers
  import opened Pbs
  import opened ProtocolState
  import opened ProtocolSteps
  import opened ProtocolInv
  import opened ProtocolProof
  import opened ProtocolRuns

  /** No request is running. */
  predicate Quiet(s: State) {
    forall t :: t in s.procs ==> Over(s.procs[t])
  }

  predicate Newcomer(s: State, t: Tid) {
    t !in s.procs && t !in s.reqs
  }

  /** The base state with request t added. */
  function With(base: State, t: Tid, r: Request, c: Core, pc: Pc): State {
    State(c, base.procs[t := pc], base.reqs[t := r], base.gc)
  }

  /** The labels lead from the base state to this point of request t. */
  ghost predicate Leads(e: Env, base: State, ls: seq<Label>, t: Tid, r: Request, c: Core, pc: Pc) {
    Run(e, base, ls) == Some(With(base, t, r, c, pc))
  }

  lemma Arrives(e: Env, base: State, t: Tid, r: Request)
    requires Newcomer(base, t)
    ensures Leads(e, base, [Start(t, r)], t, r, base.core, Entry(r, base.core))
  {
    RunSnoc(e, base, [], base, Start(t, r));
    assert [] + [Start(t, r)] == [Start(t, r)];
  }

  lemma Steps(e: Env, base: State, ls: seq<Label>, t: Tid, r: Request, c: Core, pc: Pc, o: Outcome, d: Core, next: Pc)
    requires Leads(e, base, ls, t, r, c, pc) && Local(e, c, t, pc, o) == Some(Next(d, next))
    ensures Leads(e, base, ls + [Step(t, o)], t, r, d, next)
  {
    hide ProtocolSteps.Local;
    var s := With(base, t, r, c, pc);
    RunSnoc(e, base, ls, s, Step(t, o));
    assert Move(s.(core := d), t, next) == With(base, t, r, d, next);
  }

  lemma TakesKey(e: Env, base: State, ls: seq<Label>, t: Tid, r: Request, c: Core, k: ObjKey, next: Pc)
    requires Leads(e, base, ls, t, r, c, Wait(k, next)) && KeyFree(base, k)
    ensures Leads(e, base, ls + [Lock(t)], t, r, c, next)
  {
    var s := With(base, t, r, c, Wait(k, next));
    RunSnoc(e, base, ls, s, Lock(t));
    assert KeyFree(s, k);
    assert Move(s, t, next) == With(base, t, r, c, next);
  }

  lemma TakesGroup(e: Env, base: State, ls: seq<Label>, t: Tid, r: Request, c: Core, j: Job, time: int)
    requires Leads(e, base, ls, t, r, c, WaitGroup(j, time)) && GroupFree(e, base, e.groupOf(j.key))
    ensures Leads(e, base, ls + [Lock(t)], t, r, c, Backing(j, time, 0, 1))
  {
    var s := With(base, t, r, c, WaitGroup(j, time));
    RunSnoc(e, base, ls, s, Lock(t));
    assert GroupFree(e, s, e.groupOf(j.key));
    assert Move(s, t, Backing(j, time, 0, 1)) == With(base, t, r, c, Backing(j, time, 0, 1));
  }

  lemma QuietIsFree(e: Env, s: State, k: ObjKey)
    requires Quiet(s)
    ensures KeyFree(s, k) && GroupFree(e, s, e.groupOf(k))
  {
  }

  lemma Leaves(e: Env, base: State, ls: seq<Label>, t: Tid, r: Request, c: Core, k: ObjKey, resp: Resp)
    requires Leads(e, base, ls, t, r, c, Unlock(k, resp))
    ensures Leads(e, base, ls + [Release(t)], t, r, c, Done(resp))
  {
    var s := With(base, t, r, c, Unlock(k, resp));
    RunSnoc(e, base, ls, s, Release(t));
    assert Move(s, t, Done(resp)) == With(base, t, r, c, Done(resp));
  }

  lemma UploadSteps(e: Env, base: State, ls: seq<Label>, t: Tid, r: Request, c: Core, pc: Pc, o: Outcome,
      d: Core, next: Pc)
    requires Leads(e, base, ls, t, r, c, pc) && UploadStep(e, c, pc, o) == Some(Next(d, next))
    ensures Leads(e, base, ls + [Step(t, o)], t, r, d, next)
  {
    UploadIsLocal(e, c, t, pc, o);
    Steps(e, base, ls, t, r, c, pc, o, d, next);
  }

  lemma DeleteSteps(e: Env, base: State, ls: seq<Label>, t: Tid, r: Request, c: Core, pc: Pc, o: Outcome,
      d: Core, next: Pc)
    requires Leads(e, base, ls, t, r, c, pc) && DeleteStep(c, t, pc, o) == Some(Next(d, next))
    ensures Leads(e, base, ls + [Step(t, o)], t, r, d, next)
  {
    DeleteIsLocal(e, c, t, pc, o);
    Steps(e, base, ls, t, r, c, pc, o, d, next);
  }

  lemma CompleteSteps(e: Env, base: State, ls: seq<Label>, t: Tid, r: Request, c: Core, pc: Pc, o: Outcome,
      d: Core, next: Pc)
    requires Leads(e, base, ls, t, r, c, pc) && CompleteStep(c, pc, o) == Some(Next(d, next))
    ensures Leads(e, base, ls + [Step(t, o)], t, r, d, next)
  {
    CompleteIsLocal(e, c, t, pc, o);
    Steps(e, base, ls, t, r, c, pc, o, d, next);
  }

  lemma LeadsKeeps(e: Env, base: State, ls: seq<Label>, t: Tid, r: Request, c: Core, pc: Pc)
    requires Inv(e, base) && Leads(e, base, ls, t, r, c, pc)
    ensures DeskPcOk(e, c.d, t, pc)
  {
    hide ProtocolInv.VaultOk;
    hide ProtocolInv.DeskOk;
    hide ProtocolRuns.Exclusive;
    hide ProtocolRuns.LogOk;
    RunKeeps(e, base, ls);
    var s := With(base, t, r, c, pc);
    assert AllPcOk(e, c, s.procs) && t in s.procs && s.procs[t] == pc;
  }

  // ---- Creating an upload, uploading a part ----

  function CreateRun(t: Tid, k: ObjKey, u: UploadId): seq<Label> {
    [Start(t, CreateMultipartUpload(k)), Lock(t), Step(t, Id(u)), Release(t)]
  }

  lemma Creates(e: Env, base: State, t: Tid, k: ObjKey, u: UploadId)
    requires Quiet(base) && Newcomer(base, t) && u !in base.core.d.ever
    ensures var c := base.core.(d := NewUpload(base.core.d, u, k));
      Leads(e, base, CreateRun(t, k, u), t, CreateMultipartUpload(k), c, Done(Created(u)))
  {
    hide Leads;
    var r, c := CreateMultipartUpload(k), base.core.(d := NewUpload(base.core.d, u, k));
    var ls := [Start(t, r)];
    Arrives(e, base, t, r);
    QuietIsFree(e, base, k);
    TakesKey(e, base, ls, t, r, base.core, k, MkRec(k));
    ls := ls + [Lock(t)];
    UploadSteps(e, base, ls, t, r, base.core, MkRec(k), Id(u), c, Unlock(k, Created(u)));
    ls := ls + [Step(t, Id(u))];
    Leaves(e, base, ls, t, r, c, k, Created(u));
    assert ls + [Release(t)] == CreateRun(t, k, u);
  }

  function UploadRun(t: Tid, k: ObjKey, p: PartId, body: Bytes): seq<Label> {
    [Start(t, UploadPart(k, p, body)), Lock(t),
     Step(t, Ok), Step(t, Ok), Step(t, Ok), Step(t, Ok), Step(t, Ok), Step(t, Ok), Release(t)]
  }

  function PartWritten(d: Desk, p: PartId, body: Bytes): Desk {
    WriteFile(OpenPart(MkDir(d, p.upload), p), PartFile(p), body)
  }

  lemma Uploads(e: Env, base: State, t: Tid, k: ObjKey, p: PartId, body: Bytes)
    requires Quiet(base) && Newcomer(base, t) && Lookup(base.core.d.uploads, p.upload) == Some(k)
    ensures var c := base.core.(d := PutPart(PartWritten(base.core.d, p, body), p, e.md5(body)));
      Leads(e, base, UploadRun(t, k, p, body), t, UploadPart(k, p, body), c, Done(PartStored))
  {
    hide Leads;
    var r, c := UploadPart(k, p, body), base.core;
    var c3 := c.(d := PartWritten(c.d, p, body));
    var c4 := c.(d := PutPart(c3.d, p, e.md5(body)));
    WritesPart(e, base, t, k, p, body);
    var ls := UploadRun(t, k, p, body)[..6];
    UploadSteps(e, base, ls, t, r, c3, UpRec(k, p, body), Ok, c4, UpTouch(k, p));
    UploadSteps(e, base, ls + [Step(t, Ok)], t, r, c4, UpTouch(k, p), Ok, c4, Unlock(k, PartStored));
    Leaves(e, base, ls + [Step(t, Ok)] + [Step(t, Ok)], t, r, c4, k, PartStored);
    assert ls + [Step(t, Ok)] + [Step(t, Ok)] + [Release(t)] == UploadRun(t, k, p, body);
  }

  lemma WritesPart(e: Env, base: State, t: Tid, k: ObjKey, p: PartId, body: Bytes)
    requires Quiet(base) && Newcomer(base, t) && Lookup(base.core.d.uploads, p.upload) == Some(k)
    ensures var c := base.core.(d := PartWritten(base.core.d, p, body));
      Leads(e, base, UploadRun(t, k, p, body)[..6], t, UploadPart(k, p, body), c, UpRec(k, p, body))
  {
    hide ProtocolSteps.PutPart;
    hide Leads;
    hide Quiet;
    var r, c := UploadPart(k, p, body), base.core;
    var c1 := c.(d := MkDir(c.d, p.upload));
    var c2 := c.(d := OpenPart(c1.d, p));
    var ls := [Start(t, r)];
    Arrives(e, base, t, r);
    QuietIsFree(e, base, k);
    TakesKey(e, base, ls, t, r, c, k, UpGet(k, p, body));
    ls := ls + [Lock(t)];
    UploadSteps(e, base, ls, t, r, c, UpGet(k, p, body), Ok, c, UpDir(k, p, body));
    ls := ls + [Step(t, Ok)];
    UploadSteps(e, base, ls, t, r, c, UpDir(k, p, body), Ok, c1, UpOpen(k, p, body));
    ls := ls + [Step(t, Ok)];
    UploadSteps(e, base, ls, t, r, c1, UpOpen(k, p, body), Ok, c2, UpWrite(k, p, body));
    ls := ls + [Step(t, Ok)];
    UploadSteps(e, base, ls, t, r, c2, UpWrite(k, p, body), Ok, c.(d := PartWritten(c.d, p, body)), UpRec(k, p, body));
    assert ls + [Step(t, Ok)] == UploadRun(t, k, p, body)[..6];
  }

  // ---- Completing an upload ----

  /** All labels are of request t, which asks for r. */
  predicate By(ls: seq<Label>, t: Tid, r: Request) {
    forall i :: 0 <= i < |ls| ==>
      match ls[i]
      case Start(o, q) => o == t && q == r
      case Step(o, _) => o == t
      case Lock(o) => o == t
      case Release(o) => o == t
      case _ => false
  }

  /** No call of these steps fails. */
  predicate Smooth(ls: seq<Label>) {
    forall i :: 0 <= i < |ls| && ls[i].Step? ==> !ls[i].o.Fail? && !ls[i].o.Partly? && !ls[i].o.Cut?
  }

  function LookRun(t: Tid, k: ObjKey, u: UploadId, list: seq<PartRef>): seq<Label> {
    [Start(t, CompleteMultipartUpload(k, u, list)), Lock(t), Step(t, Ok), Step(t, Ok), Step(t, Ok)]
  }

  /** Up to the look for `final.img`. */
  lemma Prepares(e: Env, base: State, t: Tid, k: ObjKey, u: UploadId, list: seq<PartRef>)
    requires Quiet(base) && Newcomer(base, t) && Lookup(base.core.d.uploads, u) == Some(k)
    requires ValidList(base.core.d.parts, u, list)
    ensures var c := base.core.(d := MkDir(base.core.d, u));
      Leads(e, base, LookRun(t, k, u, list), t, CompleteMultipartUpload(k, u, list), c, CoStat(k, u, list))
  {
    hide Leads;
    hide Quiet;
    hide ProtocolSteps.ValidList;
    var r, c := CompleteMultipartUpload(k, u, list), base.core;
    var ls := [Start(t, r)];
    Arrives(e, base, t, r);
    QuietIsFree(e, base, k);
    TakesKey(e, base, ls, t, r, c, k, CoGet(k, u, list));
    ls := ls + [Lock(t)];
    CompleteSteps(e, base, ls, t, r, c, CoGet(k, u, list), Ok, c, CoList(k, u, list));
    ls := ls + [Step(t, Ok)];
    CompleteSteps(e, base, ls, t, r, c, CoList(k, u, list), Ok, c, CoDir(k, u, list));
    ls := ls + [Step(t, Ok)];
    CompleteSteps(e, base, ls, t, r, c, CoDir(k, u, list), Ok, c.(d := MkDir(c.d, u)), CoStat(k, u, list));
    assert ls + [Step(t, Ok)] == LookRun(t, k, u, list);
  }

  /** An existing `final.img` is taken as it is. */
  lemma Reuses(e: Env, base: State, ls: seq<Label>, t: Tid, r: Request, c: Core, k: ObjKey, u: UploadId,
      list: seq<PartRef>)
    requires Leads(e, base, ls, t, r, c, CoStat(k, u, list)) && Final(u) in c.d.files
    ensures Leads(e, base, ls + [Step(t, Ok), Step(t, Ok)], t, r, c, Clock(Job(k, Final(u), c.d.files[Final(u)], Some(u))))
  {
    hide Leads;
    CompleteSteps(e, base, ls, t, r, c, CoStat(k, u, list), Ok, c, CoHash(k, u));
    CompleteSteps(e, base, ls + [Step(t, Ok)], t, r, c, CoHash(k, u), Ok, c,
                  Clock(Job(k, Final(u), c.d.files[Final(u)], Some(u))));
    assert ls + [Step(t, Ok)] + [Step(t, Ok)] == ls + [Step(t, Ok), Step(t, Ok)];
  }

  predicate AllThere(plan: seq<Option<Bytes>>) {
    forall i :: 0 <= i < |plan| ==> plan[i].Some?
  }

  /** The listed parts, with the planned bytes. */
  predicate AsPlanned(list: seq<PartRef>, plan: seq<Option<Bytes>>, copied: seq<Piece>) {
    && |copied| == |list| == |plan|
    && forall i :: 0 <= i < |list| ==> copied[i].ref == list[i] && plan[i] == Some(copied[i].bytes)
  }

  /** Where all planned parts are there, they are copied one after the other. */
  lemma {:induction false} Copies(e: Env, base: State, ls: seq<Label>, t: Tid, r: Request, c: Core,
      k: ObjKey, u: UploadId, list: seq<PartRef>, plan: seq<Option<Bytes>>, copied: seq<Piece>)
    returns (more: seq<Label>, d: Core, all: seq<Piece>)
    requires Inv(e, base) && AllThere(plan)
    requires Leads(e, base, ls, t, r, c, CoCopy(k, u, list, plan, copied))
    ensures Leads(e, base, ls + more, t, r, d, CoCopy(k, u, list, plan, all)) && AsPlanned(list, plan, all)
    ensures By(more, t, r) && Smooth(more) && d.v == c.v
    decreases if |copied| < |list| then |list| - |copied| else 0
  {
    hide ProtocolSteps.ValidList;
    hide ProtocolInv.PiecesOk;
    hide Leads;
    hide ProtocolRuns.Inv;
    var pc := CoCopy(k, u, list, plan, copied);
    LeadsKeeps(e, base, ls, t, r, c, pc);
    assert CopyOk(e, c.d, u, list, plan, copied);
    if |copied| == |list| {
      more, d, all := [], c, copied;
      assert ls + more == ls;
    } else {
      var piece, c1 := CopiesOne(e, base, ls, t, r, c, k, u, list, plan, copied);
      var rest;
      rest, d, all := Copies(e, base, ls + [Step(t, Ok)] + [Step(t, Ok)], t, r, c1, k, u, list, plan, copied + [piece]);
      more := [Step(t, Ok)] + [Step(t, Ok)] + rest;
      assert ls + more == ls + [Step(t, Ok)] + [Step(t, Ok)] + rest;
    }
  }

  lemma CopiesOne(e: Env, base: State, ls: seq<Label>, t: Tid, r: Request, c: Core,
      k: ObjKey, u: UploadId, list: seq<PartRef>, plan: seq<Option<Bytes>>, copied: seq<Piece>)
    returns (piece: Piece, d: Core)
    requires |copied| < |list| == |plan| && plan[|copied|].Some?
    requires Lookup(c.d.files, Source(u, list[|copied|])) == plan[|copied|]
    requires Leads(e, base, ls, t, r, c, CoCopy(k, u, list, plan, copied))
    ensures Leads(e, base, ls + [Step(t, Ok)] + [Step(t, Ok)], t, r, d, CoCopy(k, u, list, plan, copied + [piece]))
    ensures d.v == c.v
  {
    hide Leads;
    var f := Source(u, list[|copied|]);
    piece := Piece(list[|copied|], c.d.files[f], PartId(u, list[|copied|].number) !in c.d.dirty);
    var c1 := c.(d := WriteFile(c.d, Partial(u), Cat(copied + [piece])));
    d := c.(d := RemoveFile(c1.d, f));
    CompleteSteps(e, base, ls, t, r, c, CoCopy(k, u, list, plan, copied), Ok, c1, CoConsume(k, u, list, plan,
          copied + [piece]));
    CompleteSteps(e, base, ls + [Step(t, Ok)], t, r, c1, CoConsume(k, u, list, plan, copied + [piece]), Ok,
                  d, CoCopy(k, u, list, plan, copied + [piece]));
  }

  lemma Opens(e: Env, base: State, ls: seq<Label>, t: Tid, r: Request, c: Core,
      k: ObjKey, u: UploadId, list: seq<PartRef>, o: Outcome, plan: seq<Option<Bytes>>)
    requires Leads(e, base, ls, t, r, c, CoStat(k, u, list)) && plan == Plan(c.d, u, list)
    requires (o.Ok? && Final(u) !in c.d.files) || o.Fail?
    ensures Leads(e, base, ls + [Step(t, o)] + [Step(t, Ok)], t, r, c.(d := WriteFile(c.d, Partial(u), [])),
                  CoCopy(k, u, list, plan, []))
  {
    hide Leads;
    CompleteSteps(e, base, ls, t, r, c, CoStat(k, u, list), o, c, CoOpen(k, u, list));
    CompleteSteps(e, base, ls + [Step(t, o)], t, r, c, CoOpen(k, u, list), Ok,
                  c.(d := WriteFile(c.d, Partial(u), [])), CoCopy(k, u, list, plan, []));
  }

  lemma Renames(e: Env, base: State, ls: seq<Label>, t: Tid, r: Request, c: Core,
      k: ObjKey, u: UploadId, list: seq<PartRef>, plan: seq<Option<Bytes>>, all: seq<Piece>)
    returns (d: Core)
    requires Leads(e, base, ls, t, r, c, CoCopy(k, u, list, plan, all)) && |all| == |list|
    ensures Leads(e, base, ls + [Step(t, Ok)], t, r, d, Clock(Job(k, Final(u), Cat(all), Some(u))))
    ensures d.v == c.v && Lookup(d.d.files, Final(u)) == Some(Cat(all))
  {
    hide Leads;
    d := c.(d := Rename(c.d, u, all));
    CompleteSteps(e, base, ls, t, r, c, CoCopy(k, u, list, plan, all), Ok, d, Clock(Job(k, Final(u), Cat(all),
          Some(u))));
  }

  /** The listed parts become `final.img`; the look for one found none, or failed. */
  lemma Concats(e: Env, base: State, ls: seq<Label>, t: Tid, r: Request, c: Core,
      k: ObjKey, u: UploadId, list: seq<PartRef>, o: Outcome)
    returns (more: seq<Label>, d: Core, all: seq<Piece>)
    requires Inv(e, base) && Leads(e, base, ls, t, r, c, CoStat(k, u, list))
    requires (o.Ok? && Final(u) !in c.d.files) || o.Fail?
    requires AllThere(Plan(c.d, u, list))
    ensures AsPlanned(list, Plan(c.d, u, list), all) && d.v == c.v && Lookup(d.d.files, Final(u)) == Some(Cat(all))
    ensures Leads(e, base, ls + [Step(t, o)] + more, t, r, d, Clock(Job(k, Final(u), Cat(all), Some(u))))
    ensures By(more, t, r) && Smooth(more)
  {
    hide Leads;
    hide ProtocolRuns.Inv;
    hide ProtocolSteps.Plan;
    var plan := Plan(c.d, u, list);
    var at := ls + [Step(t, o)] + [Step(t, Ok)];
    Opens(e, base, ls, t, r, c, k, u, list, o, plan);
    var mid, c2;
    mid, c2, all := Copies(e, base, at, t, r, c.(d := WriteFile(c.d, Partial(u), [])), k, u, list, plan, []);
    d := Renames(e, base, at + mid, t, r, c2, k, u, list, plan, all);
    more := [Step(t, Ok)] + mid + [Step(t, Ok)];
    assert ls + [Step(t, o)] + more == at + mid + [Step(t, Ok)];
  }

  // ---- Committing ----

  function CommitRun(t: Tid, now: int): seq<Label> {
    [Step(t, Time(now)), Lock(t), Step(t, Ok), Step(t, Ok), Step(t, Ok), Step(t, Ok), Step(t, Ok), Step(t, Ok)]
  }

  /** After PBS.Backup, the removal of the source and the mapping write. */
  function Committed(e: Env, c: Core, t: Tid, j: Job, now: int): Core
    requires j.file in c.d.files
  {
    Core(PutMapping(e, Accept(c.v, Coord(e.groupOf(j.key), now), c.d.files[j.file], j.key), t, j, now),
         RemoveFile(c.d, j.file))
  }

  function AfterMapping(c: Core, j: Job): Pc {
    if j.key in c.v.objects then ForgetOld(j, c.v.objects[j.key], 1) else Finish(j)
  }

  lemma Commits(e: Env, base: State, ls: seq<Label>, t: Tid, r: Request, c: Core, j: Job, now: int)
    requires Quiet(base) && Leads(e, base, ls, t, r, c, Clock(j))
    requires j.file in c.d.files && Accepts(c.v.high, Coord(e.groupOf(j.key), now))
    ensures Leads(e, base, ls + CommitRun(t, now), t, r, Committed(e, c, t, j, now), AfterMapping(c, j))
    ensures Committed(e, c, t, j, now).v.log == c.v.log + [Put(t, j.key, j.body)]
  {
    hide Leads;
    hide Committed;
    hide AfterMapping;
    var ls1 := ls + [Step(t, Time(now))] + [Lock(t)];
    var d := Core(Accept(c.v, Coord(e.groupOf(j.key), now), c.d.files[j.file], j.key), c.d);
    BacksUp(e, base, ls, t, r, c, j, now, d);
    ls1 := ls1 + [Step(t, Ok)] + [Step(t, Ok)];
    Maps(e, base, ls1, t, r, c, j, now, d);
    assert ls1 + [Step(t, Ok)] + [Step(t, Ok)] + [Step(t, Ok)] + [Step(t, Ok)] == ls + CommitRun(t, now);
  }

  lemma BacksUp(e: Env, base: State, ls: seq<Label>, t: Tid, r: Request, c: Core, j: Job, now: int, d: Core)
    requires Quiet(base) && Leads(e, base, ls, t, r, c, Clock(j))
    requires j.file in c.d.files && Accepts(c.v.high, Coord(e.groupOf(j.key), now))
    requires d == Core(Accept(c.v, Coord(e.groupOf(j.key), now), c.d.files[j.file], j.key), c.d)
    ensures Leads(e, base, ls + [Step(t, Time(now))] + [Lock(t)] + [Step(t, Ok)] + [Step(t, Ok)], t, r, d, RemoveSrc(j, now))
  {
    hide Leads;
    hide Quiet;
    var ls1 := ls + [Step(t, Time(now))];
    Steps(e, base, ls, t, r, c, Clock(j), Time(now), c, WaitGroup(j, now));
    QuietIsFree(e, base, j.key);
    TakesGroup(e, base, ls1, t, r, c, j, now);
    ls1 := ls1 + [Lock(t)];
    Steps(e, base, ls1, t, r, c, Backing(j, now, 0, 1), Ok, d, Ungroup(j, Some(now)));
    Steps(e, base, ls1 + [Step(t, Ok)], t, r, d, Ungroup(j, Some(now)), Ok, d, RemoveSrc(j, now));
  }

  lemma Maps(e: Env, base: State, ls: seq<Label>, t: Tid, r: Request, c: Core, j: Job, now: int, d: Core)
    requires Leads(e, base, ls, t, r, d, RemoveSrc(j, now)) && j.file in c.d.files
    requires d == Core(Accept(c.v, Coord(e.groupOf(j.key), now), c.d.files[j.file], j.key), c.d)
    ensures Leads(e, base, ls + [Step(t, Ok)] + [Step(t, Ok)] + [Step(t, Ok)] + [Step(t, Ok)], t, r,
                  Committed(e, c, t, j, now), AfterMapping(c, j))
    ensures Committed(e, c, t, j, now).v.log == c.v.log + [Put(t, j.key, j.body)]
  {
    hide Leads;
    var c1 := d.(d := RemoveFile(d.d, j.file));
    var seen := Lookup(c.v.objects, j.key);
    Steps(e, base, ls, t, r, d, RemoveSrc(j, now), Ok, c1, Notes(j, now));
    Steps(e, base, ls + [Step(t, Ok)], t, r, c1, Notes(j, now), Ok, c1, ReadOld(j, now));
    var ls1 := ls + [Step(t, Ok)] + [Step(t, Ok)];
    Steps(e, base, ls1, t, r, c1, ReadOld(j, now), Ok, c1, WriteMap(j, now, seen));
    Steps(e, base, ls1 + [Step(t, Ok)], t, r, c1, WriteMap(j, now, seen), Ok, Committed(e, c, t, j, now),
          AfterMapping(c, j));
  }

  /** PBS.Backup fails for good at its first invocation. */
  lemma Fails(e: Env, base: State, ls: seq<Label>, t: Tid, r: Request, c: Core, j: Job)
    requires Quiet(base) && Leads(e, base, ls, t, r, c, Clock(j))
    ensures var at := ls + [Step(t, Time(0))] + [Lock(t)];
      && Leads(e, base, at, t, r, c, Backing(j, 0, 0, 1))
      && Leads(e, base, at + [Step(t, Fail(Other, false))] + [Step(t, Ok)] + [Release(t)], t, r, c, Done(Failed))
  {
    hide Leads;
    hide Quiet;
    var ls1 := ls + [Step(t, Time(0))];
    Steps(e, base, ls, t, r, c, Clock(j), Time(0), c, WaitGroup(j, 0));
    QuietIsFree(e, base, j.key);
    TakesGroup(e, base, ls1, t, r, c, j, 0);
    ls1 := ls1 + [Lock(t)];
    Steps(e, base, ls1, t, r, c, Backing(j, 0, 0, 1), Fail(Other, false), c, Ungroup(j, None));
    ls1 := ls1 + [Step(t, Fail(Other, false))];
    Steps(e, base, ls1, t, r, c, Ungroup(j, None), Ok, c, Unlock(j.key, Failed));
    Leaves(e, base, ls1 + [Step(t, Ok)], t, r, c, j.key, Failed);
  }

  /** The clean-up of a completed upload. */
  lemma Cleans(e: Env, base: State, ls: seq<Label>, t: Tid, r: Request, c: Core, k: ObjKey,
      u: UploadId) returns (d: Core)
    requires Leads(e, base, ls, t, r, c, RmDir(k, u, Stored))
    ensures Leads(e, base, ls + [Step(t, Ok), Step(t, Ok), Release(t)], t, r, d, Done(Stored)) && d.v == c.v
  {
    hide Leads;
    var c1 := c.(d := RemoveDir(c.d, u, Ok).value);
    d := c1.(d := DeleteUpload(c1.d, u));
    Steps(e, base, ls, t, r, c, RmDir(k, u, Stored), Ok, c1, RmRec(k, u, Stored));
    Steps(e, base, ls + [Step(t, Ok)], t, r, c1, RmRec(k, u, Stored), Ok, d, Unlock(k, Stored));
    Leaves(e, base, ls + [Step(t, Ok)] + [Step(t, Ok)], t, r, d, k, Stored);
    assert ls + [Step(t, Ok)] + [Step(t, Ok)] + [Release(t)] == ls + [Step(t, Ok), Step(t, Ok), Release(t)];
  }
}
