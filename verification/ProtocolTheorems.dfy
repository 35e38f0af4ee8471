/** What the bridge guarantees after every run: the statements a caller can rely on. */
module ProtocolTheorems {
  import opened Wrappers
  import opened Pbs
  import opened ProtocolState
  import opened ProtocolSteps
  import opened ProtocolInv
  import opened ProtocolProof
  import opened ProtocolRuns
  import opened ProtocolSolo

  // ---- Snapshots ----

  /**
   Every mapping points to a live snapshot with its recorded size and ETag, unless a
   DeleteObject has already forgotten it; and no two keys ever share a snapshot.
   */
  lemma SnapshotSafety(e: Env, ls: seq<Label>, s: State)
    requires Reaches(e, ls, s)
    ensures forall k :: k in s.core.v.objects && k !in s.core.v.doomed ==>
      var m := s.core.v.objects[k];
      m.at in s.core.v.live && |s.core.v.live[m.at]| == m.size && e.md5(s.core.v.live[m.at]) == m.etag
    ensures forall k :: k in s.core.v.doomed ==> k in s.core.v.objects && s.core.v.objects[k].at !in s.core.v.live
    ensures forall k, l :: k in s.core.v.objects && l in s.core.v.objects && k != l ==>
      s.core.v.objects[k].at != s.core.v.objects[l].at
  {
    ReachableInv(e, ls, s);
    forall k | k in s.core.v.objects ensures MappingOk(e, s.core.v, k, s.core.v.objects[k]) {}
  }

  lemma CommitDooms(e: Env, c: Core, t: Tid, pc: Pc, o: Outcome)
    requires CommitStep(e, c, t, pc, o).Some?
    ensures CommitStep(e, c, t, pc, o).value.core.v.doomed <= c.v.doomed
  {
  }

  lemma DeleteDooms(c: Core, t: Tid, pc: Pc, o: Outcome, k: ObjKey)
    requires DeleteStep(c, t, pc, o).Some?
    requires k !in c.v.doomed && k in DeleteStep(c, t, pc, o).value.core.v.doomed
    ensures pc.DelForget? && pc.key == k
  {
  }

  /** A key loses its snapshot in one way only: by the forget call of a DeleteObject on that key. */
  lemma DoomedOnlyByDelete(e: Env, s: State, l: Label, k: ObjKey)
    requires Apply(e, s, l).Some? && k !in s.core.v.doomed && k in Apply(e, s, l).value.core.v.doomed
    ensures l.Step? && l.t in s.procs && s.procs[l.t].DelForget? && s.procs[l.t].key == k
  {
    if l.Step? {
      var pc := s.procs[l.t];
      if CommitStep(e, s.core, l.t, pc, l.o).Some? { CommitDooms(e, s.core, l.t, pc, l.o); }
      else if DeleteStep(s.core, l.t, pc, l.o).Some? { DeleteDooms(s.core, l.t, pc, l.o, k); }
      else if UploadStep(e, s.core, pc, l.o).Some? { UploadVaultPc(e, s.core, pc, l.o); }
      else if CompleteStep(s.core, pc, l.o).Some? { CompleteVaultPc(e, s.core, pc, l.o); }
    }
  }

  // ---- Refinement of an atomic map ----

  /** One step of the atomic store, or none. */
  ghost predicate AtomicStep(m: Objects, n: Objects, log: seq<Effect>, next: seq<Effect>, l: Label) {
    || (n == m && next == log)
    || (l.Step? && |next| == |log| + 1 && log <= next && next[|log|].req == l.t
        && n == ApplyEffect(m, next[|log|]))
  }

  lemma LogGrows(e: Env, s: State, l: Label)
    requires Apply(e, s, l).Some?
    ensures var next := Apply(e, s, l).value.core.v.log;
      || next == s.core.v.log
      || (l.Step? && |next| == |s.core.v.log| + 1 && s.core.v.log <= next && next[|s.core.v.log|].req == l.t)
  {
    if l.Step? { LocalControl(e, s.core, l.t, s.procs[l.t], l.o); }
  }

  lemma AbstractIsReplay(e: Env, ls: seq<Label>, s: State, l: Label)
    requires Reaches(e, ls, s) && Apply(e, s, l).Some?
    ensures Abstract(s.core.v) == Replay(s.core.v.log)
    ensures Abstract(Apply(e, s, l).value.core.v) == Replay(Apply(e, s, l).value.core.v.log)
  {
    ReachableInv(e, ls, s);
    ApplyKeeps(e, s, l);
  }

  lemma ReplayOneMore(log: seq<Effect>, next: seq<Effect>)
    requires |next| == |log| + 1 && log <= next
    ensures Replay(next) == ApplyEffect(Replay(log), next[|log|])
  {
    assert next[..|next| - 1] == log;
  }

  /** Every step either leaves the abstract store alone or performs one request's effect on it. */
  lemma StepsAreAtomic(e: Env, ls: seq<Label>, s: State, l: Label)
    requires Reaches(e, ls, s) && Apply(e, s, l).Some?
    ensures AtomicStep(Abstract(s.core.v), Abstract(Apply(e, s, l).value.core.v),
                       s.core.v.log, Apply(e, s, l).value.core.v.log, l)
  {
    var log, next := s.core.v.log, Apply(e, s, l).value.core.v.log;
    LogGrows(e, s, l);
    AbstractIsReplay(e, ls, s, l);
    if next != log { ReplayOneMore(log, next); }
  }

  /** Replaying the effects in the order they happened gives the store; each request has at most one. */
  lemma StoreIsReplay(e: Env, ls: seq<Label>, s: State)
    requires Reaches(e, ls, s)
    ensures Abstract(s.core.v) == Replay(s.core.v.log)
    ensures forall i, j :: 0 <= i < j < |s.core.v.log| ==> s.core.v.log[i].req != s.core.v.log[j].req
  {
    ReachableInv(e, ls, s);
  }

  /** A DeleteObject that succeeds removed its own key. */
  lemma DeleteTakesEffect(e: Env, ls: seq<Label>, s: State, t: Tid)
    requires Reaches(e, ls, s) && t in s.procs && s.procs[t].Done? && s.procs[t].resp.Removed?
    ensures t in s.reqs && s.reqs[t].DeleteObject? && Del(t, s.reqs[t].key) in s.core.v.log
  {
    ReachableInv(e, ls, s);
    assert Serves(s.reqs[t], s.procs[t]);
    assert Logged(s.core.v.log, t);
    var i :| 0 <= i < |s.core.v.log| && s.core.v.log[i].req == t;
    assert EffectFor(s.reqs[t], s.core.v.log[i]);
    assert s.core.v.log[i] == Del(t, s.reqs[t].key);
  }

  /** A request that was answered in any other way, or cut off by a crash before its effect, has none. */
  lemma FailureLeavesObjects(e: Env, ls: seq<Label>, s: State, t: Tid)
    requires Reaches(e, ls, s) && t in s.procs
    requires match s.procs[t]
      case Done(resp) => !resp.Stored? && !resp.Removed?
      case Dead(acted) => !acted
      case _ => false
    ensures forall i :: 0 <= i < |s.core.v.log| ==> s.core.v.log[i].req != t
  {
    ReachableInv(e, ls, s);
    assert !Logged(s.core.v.log, t);
  }

  /** A request that a crash cut off after its effect has exactly one. */
  lemma CrashAfterEffect(e: Env, ls: seq<Label>, s: State, t: Tid)
    requires Reaches(e, ls, s) && t in s.procs && s.procs[t] == Dead(true)
    ensures t in s.reqs
    ensures exists i :: 0 <= i < |s.core.v.log| && s.core.v.log[i].req == t && EffectFor(s.reqs[t], s.core.v.log[i])
  {
    ReachableInv(e, ls, s);
    assert Logged(s.core.v.log, t);
  }

  /**
   A GetObject that delivers bytes delivers the version its mapping read saw, a version the
   store held at a moment between the request's arrival and its answer.
   */
  lemma GetSeesOneVersion(e: Env, ls: seq<Label>, s: State, t: Tid)
    requires Reaches(e, ls, s) && t in s.procs && s.procs[t].Done? && s.procs[t].resp.Body?
    ensures var r := s.procs[t].resp;
      && t in s.reqs && s.reqs[t] == GetObject(r.key)
      && r.since <= r.at <= |s.core.v.log|
      && Lookup(Replay(s.core.v.log[..r.at]), r.key) == Some(r.bytes)
  {
    ReachableInv(e, ls, s);
    assert VaultPc(e, s.core.v, s.procs[t]);
    assert Serves(s.reqs[t], s.procs[t]);
  }

  // ---- Repeating a failed DeleteObject ----

  /** The steps of a DeleteObject on a mapped key when every call succeeds. */
  function DeleteAgain(s: State, t: Tid, k: ObjKey): seq<Label>
    requires k in s.core.v.objects
  {
    [Start(t, DeleteObject(k)), Lock(t), Step(t, Ok), Step(t, ForgetOutcome(s.core.v, k)), Step(t, Ok), Release(t)]
  }

  /** A snapshot that is gone already counts as forgotten. */
  function ForgetOutcome(v: Vault, k: ObjKey): Outcome
    requires k in v.objects
  {
    if v.objects[k].at in v.live then Ok else Fail(Missing, false)
  }

  lemma DoomResult(v: Vault, k: ObjKey)
    requires k in v.objects
    ensures Doom(v, k, v.objects[k].at, ForgetOutcome(v, k)) == Some(Doomed(v, k))
  {
    assert v.objects[k].at !in v.live ==> v.live - {v.objects[k].at} == v.live;
  }

  lemma NewTid(e: Env, ls: seq<Label>, s: State, t: Tid)
    requires Reaches(e, ls, s) && t !in s.procs
    ensures t !in s.reqs
  {
    ReachableInv(e, ls, s);
  }

  lemma DeleteForgets(e: Env, s: State, t: Tid, k: ObjKey)
    requires Newcomer(s, t) && KeyFree(s, k) && k in s.core.v.objects
    ensures Leads(e, s, DeleteAgain(s, t, k)[..4], t, DeleteObject(k), s.core.(v := Doomed(s.core.v, k)), DelUnmap(k))
  {
    hide ProtocolSolo.Leads;
    hide ProtocolProof.Doomed;
    var c, r, m := s.core, DeleteObject(k), s.core.v.objects[k];
    var ls := [Start(t, r)];
    Arrives(e, s, t, r);
    TakesKey(e, s, ls, t, r, c, k, DelRead(k));
    ls := ls + [Lock(t)];
    DeleteSteps(e, s, ls, t, r, c, DelRead(k), Ok, c, DelForget(k, m, 1));
    ls := ls + [Step(t, Ok)];
    DoomResult(c.v, k);
    DeleteSteps(e, s, ls, t, r, c, DelForget(k, m, 1), ForgetOutcome(c.v, k), c.(v := Doomed(c.v, k)), DelUnmap(k));
    assert ls + [Step(t, ForgetOutcome(c.v, k))] == DeleteAgain(s, t, k)[..4];
  }

  /** Whatever became of earlier attempts, a DeleteObject can be repeated until the key is gone. */
  lemma DeleteCanBeRepeated(e: Env, ls: seq<Label>, s: State, t: Tid, k: ObjKey)
    requires Reaches(e, ls, s) && t !in s.procs && k in s.core.v.objects && KeyFree(s, k)
    ensures Run(e, s, DeleteAgain(s, t, k)).Some?
    ensures var n := Run(e, s, DeleteAgain(s, t, k)).value;
      t in n.procs && n.procs[t] == Done(Removed) && n.core.v.objects == s.core.v.objects - {k} && n.core.d == s.core.d
  {
    NewTid(e, ls, s, t);
    hide ProtocolRuns.Reaches;
    var r, c, al := DeleteObject(k), s.core.(v := Doomed(s.core.v, k)), DeleteAgain(s, t, k);
    var d := c.(v := DeleteMapping(c.v, t, k));
    DeleteForgets(e, s, t, k);
    DeleteSteps(e, s, al[..4], t, r, c, DelUnmap(k), Ok, d, Unlock(k, Removed));
    Leaves(e, s, al[..4] + [Step(t, Ok)], t, r, d, k, Removed);
    assert al[..4] + [Step(t, Ok)] + [Release(t)] == al;
  }

  // ---- Locks ----

  /** At most one request works on a key at a time, and at most one Backup is in flight per group. */
  lemma LocksExclude(e: Env, ls: seq<Label>, s: State, t: Tid, o: Tid)
    requires Reaches(e, ls, s) && t in s.procs && o in s.procs && t != o
    ensures KeyHeld(s.procs[t]).Some? ==> KeyHeld(s.procs[t]) != KeyHeld(s.procs[o])
    ensures s.procs[t].Backing? && s.procs[o].Backing? ==>
      e.groupOf(s.procs[t].job.key) != e.groupOf(s.procs[o].job.key)
  {
    ReachableInv(e, ls, s);
    assert s.procs[t].Backing? ==> GroupHeld(e, s.procs[t]).Some?;
  }

  // ---- Progress ----

  /** Some way the request's next call can end. */
  function SomeOutcome(pc: Pc): Outcome {
    match pc
    case Clock(_) => Time(0)
    case RmDir(_, _, _) => Ok
    case DelDirs(_, _) => Ok
    case AbDir(_, _) => Ok
    case _ => Fail(Other, false)
  }

  predicate AtLock(pc: Pc) {
    pc.Wait? || pc.WaitGroup?
  }

  lemma CommitReturns(e: Env, c: Core, t: Tid, pc: Pc)
    requires pc.Staging? || pc.Clock? || pc.Backing? || pc.Ungroup? || pc.RemoveSrc? || pc.Notes? || pc.ReadOld?
          || pc.WriteMap? || pc.ForgetOld? || pc.RmDir? || pc.RmRec?
    ensures CommitStep(e, c, t, pc, SomeOutcome(pc)).Some?
  {
  }

  lemma DeleteReturns(e: Env, c: Core, t: Tid, pc: Pc)
    requires pc.DelRead? || pc.DelForget? || pc.DelUnmap? || pc.DelFind? || pc.DelDirs? || (pc.DelRecs? && pc.rest != [])
    ensures DeleteStep(c, t, pc, SomeOutcome(pc)).Some?
  {
  }

  lemma UploadReturns(e: Env, c: Core, pc: Pc)
    requires pc.MkRec? || pc.UpGet? || pc.UpDir? || pc.UpOpen? || pc.UpWrite? || pc.UpRec? || pc.UpTouch?
          || pc.AbGet? || pc.AbDir? || pc.AbRec?
    ensures UploadStep(e, c, pc, SomeOutcome(pc)).Some?
  {
  }

  lemma CompleteReturns(c: Core, pc: Pc)
    requires pc.CoGet? || pc.CoList? || pc.CoDir? || pc.CoStat? || pc.CoHash? || pc.CoOpen? || pc.CoCopy?
          || (pc.CoConsume? && pc.copied != [])
    ensures CompleteStep(c, pc, SomeOutcome(pc)).Some?
  {
  }

  lemma CallsReturn(e: Env, c: Core, t: Tid, pc: Pc)
    requires DeskPcOk(e, c.d, t, pc) && !Over(pc) && !AtLock(pc) && !pc.Unlock?
    ensures Local(e, c, t, pc, SomeOutcome(pc)).Some?
  {
    hide ProtocolSteps.CommitStep;
    hide ProtocolSteps.DeleteStep;
    hide ProtocolSteps.UploadStep;
    hide ProtocolSteps.CompleteStep;
    hide ProtocolInv.CopyOk;
    if pc.MkRec? || pc.UpGet? || pc.UpDir? || pc.UpOpen? || pc.UpWrite? || pc.UpRec? || pc.UpTouch?
      || pc.AbGet? || pc.AbDir? || pc.AbRec? { UploadReturns(e, c, pc); }
    else if pc.CoGet? || pc.CoList? || pc.CoDir? || pc.CoStat? || pc.CoHash? || pc.CoOpen? || pc.CoCopy?
      || pc.CoConsume? { CompleteReturns(c, pc); }
    else if pc.DelRead? || pc.DelForget? || pc.DelUnmap? || pc.DelFind? || pc.DelDirs? || pc.DelRecs? {
      DeleteReturns(e, c, t, pc);
    } else if !pc.Reading? && !pc.Restoring? { CommitReturns(e, c, t, pc); }
  }

  /** The step a request takes next, unless it waits for a lock that another one holds. */
  function NextLabel(t: Tid, pc: Pc): Label {
    if AtLock(pc) then Lock(t) else if pc.Unlock? then Release(t) else Step(t, SomeOutcome(pc))
  }

  lemma UnlockedMoves(e: Env, s: State, t: Tid)
    requires Inv(e, s) && t in s.procs && !Over(s.procs[t]) && !AtLock(s.procs[t])
    ensures Apply(e, s, NextLabel(t, s.procs[t])).Some?
  {
    if !s.procs[t].Unlock? { CallsReturn(e, s.core, t, s.procs[t]); }
  }

  ghost predicate SomeoneMoves(e: Env, s: State) {
    exists t :: t in s.procs && !Over(s.procs[t]) && Apply(e, s, NextLabel(t, s.procs[t])).Some?
  }

  /** Whoever waits for a group lock waits for a request that is calling PBS. */
  lemma GroupWaitMoves(e: Env, s: State, t: Tid)
    requires Inv(e, s) && t in s.procs && s.procs[t].WaitGroup?
    ensures SomeoneMoves(e, s)
  {
    var g := e.groupOf(s.procs[t].job.key);
    if !GroupFree(e, s, g) {
      var o :| o in s.procs && GroupHeld(e, s.procs[o]) == Some(g);
      UnlockedMoves(e, s, o);
    }
  }

  lemma KeyWaitMoves(e: Env, s: State, t: Tid)
    requires Inv(e, s) && t in s.procs && s.procs[t].Wait?
    ensures SomeoneMoves(e, s)
  {
    var k := s.procs[t].key;
    if !KeyFree(s, k) {
      var o :| o in s.procs && KeyHeld(s.procs[o]) == Some(k);
      if s.procs[o].WaitGroup? { GroupWaitMoves(e, s, o); } else { UnlockedMoves(e, s, o); }
    }
  }

  /** No deadlock: as long as some request is unfinished, some request can take a step. */
  lemma DeadlockFree(e: Env, ls: seq<Label>, s: State, t: Tid)
    requires Reaches(e, ls, s) && t in s.procs && !Over(s.procs[t])
    ensures SomeoneMoves(e, s)
  {
    ReachableInv(e, ls, s);
    if s.procs[t].Wait? { KeyWaitMoves(e, s, t); }
    else if s.procs[t].WaitGroup? { GroupWaitMoves(e, s, t); }
    else { UnlockedMoves(e, s, t); }
  }

  // ---- Multipart content ----

  /** Whenever `final.img` exists it is the whole concatenation that one call made of its parts. */
  lemma FinalIsWhole(e: Env, ls: seq<Label>, s: State, u: UploadId)
    requires Reaches(e, ls, s) && Final(u) in s.core.d.files
    ensures u in s.core.d.built && s.core.d.files[Final(u)] == Cat(s.core.d.built[u])
    ensures forall i :: 0 <= i < |s.core.d.built[u]| && s.core.d.built[u][i].sound ==>
      e.md5(s.core.d.built[u][i].bytes) == s.core.d.built[u][i].ref.etag
  {
    ReachableInv(e, ls, s);
  }

  /**
   The call that renames `final.img` into place has copied exactly its own part list, in
   order, each part as its file stood when the copying began.
   */
  lemma RenameCopiedTheList(e: Env, ls: seq<Label>, s: State, t: Tid)
    requires Reaches(e, ls, s) && t in s.procs && s.procs[t].CoCopy? && |s.procs[t].copied| == |s.procs[t].list|
    ensures var pc := s.procs[t];
      && t in s.reqs && s.reqs[t] == CompleteMultipartUpload(pc.key, pc.upload, pc.list)
      && |pc.plan| == |pc.list|
      && forall i :: 0 <= i < |pc.list| ==> pc.copied[i].ref == pc.list[i] && pc.plan[i] == Some(pc.copied[i].bytes)
  {
    hide ProtocolRuns.Reaches;
    hide ProtocolRuns.Exclusive;
    hide ProtocolRuns.LogOk;
    hide ProtocolInv.VaultOk;
    hide ProtocolInv.DeskOk;
    ReachableInv(e, ls, s);
    assert DeskPcOk(e, s.core.d, t, s.procs[t]);
    assert Serves(s.reqs[t], s.procs[t]);
  }

  /** If a listed part's file was missing when copying began, no concatenation is ever finished. */
  lemma MissingPartNeverCommits(e: Env, ls: seq<Label>, s: State, t: Tid, i: nat)
    requires Reaches(e, ls, s) && t in s.procs && s.procs[t].CoCopy?
    requires i < |s.procs[t].plan| && s.procs[t].plan[i].None?
    ensures |s.procs[t].copied| <= i < |s.procs[t].list|
  {
    hide ProtocolRuns.Reaches;
    hide ProtocolRuns.Exclusive;
    hide ProtocolRuns.LogOk;
    hide ProtocolInv.VaultOk;
    hide ProtocolInv.DeskOk;
    ReachableInv(e, ls, s);
    assert CopyOk(e, s.core.d, s.procs[t].upload, s.procs[t].list, s.procs[t].plan, s.procs[t].copied);
  }

  /** A completing commit writes a mapping only for a whole concatenation, never for half of one. */
  lemma CommitIsWhole(e: Env, ls: seq<Label>, s: State, t: Tid)
    requires Reaches(e, ls, s) && t in s.procs && s.procs[t].WriteMap? && s.procs[t].job.via.Some?
    ensures var j := s.procs[t].job;
      && j.via.value in s.core.d.built && j.body == Cat(s.core.d.built[j.via.value])
      && Lookup(s.core.v.live, Coord(e.groupOf(j.key), s.procs[t].time)) == Some(j.body)
  {
    hide ProtocolRuns.Reaches;
    hide ProtocolRuns.Exclusive;
    hide ProtocolRuns.LogOk;
    hide ProtocolInv.VaultOk;
    hide ProtocolInv.DeskOk;
    ReachableInv(e, ls, s);
    assert VaultPc(e, s.core.v, s.procs[t]) && DeskPcOk(e, s.core.d, t, s.procs[t]);
  }

  // ---- Upload bookkeeping and reconciliation ----

  /** Part records never outlive their upload; directories only after a failed removal. */
  lemma RecordsCoverScratch(e: Env, ls: seq<Label>, s: State)
    requires Reaches(e, ls, s)
    ensures forall p :: p in s.core.d.parts ==> p.upload in s.core.d.uploads
    ensures forall u :: u in s.core.d.dirs && u !in s.core.d.uploads ==> u in s.core.d.orphans
    ensures forall f :: f in s.core.d.files && UploadOf(f).Some? ==> UploadOf(f).value in s.core.d.dirs
  {
    ReachableInv(e, ls, s);
  }

  /** No directory removal of the run failed half-way. */
  predicate RemovalsSucceed(ls: seq<Label>) {
    forall i :: 0 <= i < |ls| ==>
      match ls[i]
      case Step(_, o) => !o.Partly?
      case Sweep(_, dir, _) => !dir.Partly?
      case RemoveOrphan(_, o) => !o.Partly?
      case _ => true
  }

  lemma LocalOrphans(e: Env, c: Core, t: Tid, pc: Pc, o: Outcome)
    requires Local(e, c, t, pc, o).Some? && !o.Partly?
    ensures Local(e, c, t, pc, o).value.core.d.orphans == c.d.orphans
  {
    if CommitStep(e, c, t, pc, o).Some? { CommitOrphans(e, c, t, pc, o); }
    else if DeleteStep(c, t, pc, o).Some? { DeleteOrphans(c, t, pc, o); }
    else if UploadStep(e, c, pc, o).Some? { UploadOrphans(e, c, pc, o); }
    else if CompleteStep(c, pc, o).Some? { CompleteOrphans(c, pc, o); }
  }

  lemma CommitOrphans(e: Env, c: Core, t: Tid, pc: Pc, o: Outcome)
    requires CommitStep(e, c, t, pc, o).Some? && !o.Partly?
    ensures CommitStep(e, c, t, pc, o).value.core.d.orphans == c.d.orphans
  {
  }

  lemma DeleteOrphans(c: Core, t: Tid, pc: Pc, o: Outcome)
    requires DeleteStep(c, t, pc, o).Some? && !o.Partly?
    ensures DeleteStep(c, t, pc, o).value.core.d.orphans == c.d.orphans
  {
  }

  lemma UploadOrphans(e: Env, c: Core, pc: Pc, o: Outcome)
    requires UploadStep(e, c, pc, o).Some? && !o.Partly?
    ensures UploadStep(e, c, pc, o).value.core.d.orphans == c.d.orphans
  {
  }

  lemma CompleteOrphans(c: Core, pc: Pc, o: Outcome)
    requires CompleteStep(c, pc, o).Some?
    ensures CompleteStep(c, pc, o).value.core.d.orphans == c.d.orphans
  {
  }

  lemma {:induction false} NoOrphans(e: Env, s: State, ls: seq<Label>)
    requires RemovalsSucceed(ls) && Run(e, s, ls).Some? && s.core.d.orphans == {}
    ensures Run(e, s, ls).value.core.d.orphans == {}
    decreases |ls|
  {
    if ls != [] {
      if ls[0].Step? { LocalOrphans(e, s.core, ls[0].t, s.procs[ls[0].t], ls[0].o); }
      assert forall i :: 0 <= i < |ls[1..]| ==> ls[1..][i] == ls[i + 1];
      NoOrphans(e, Apply(e, s, ls[0]).value, ls[1..]);
    }
  }

  /**
   When no directory removal fails, a scratch directory exists only while its upload is on
   record, in every interleaving and across crashes.
   */
  lemma DirectoriesHaveRecords(e: Env, ls: seq<Label>, s: State)
    requires Reaches(e, ls, s) && RemovalsSucceed(ls)
    ensures s.core.d.dirs <= s.core.d.uploads.Keys
  {
    ReachableInv(e, ls, s);
    NoOrphans(e, INIT, ls);
  }

  /** Startup reconciliation never removes a live upload's directory, nor one a request works in. */
  lemma ReconcileSparesLiveUploads(e: Env, ls: seq<Label>, s: State, u: UploadId, o: Outcome)
    requires Reaches(e, ls, s) && Apply(e, s, RemoveOrphan(u, o)).Some?
    ensures u !in s.core.d.uploads
    ensures forall t :: t in s.procs ==> u !in Claims(s.procs[t])
  {
    ReachableInv(e, ls, s);
    NoClaim(e, s, u);
  }
}
