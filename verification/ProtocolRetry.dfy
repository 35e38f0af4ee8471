/**
 Repeating a CompleteMultipartUpload whose commit failed: when `final.img` is still there, and
 when a repeat stores the bytes that the failed call tried to store.
 */
module ProtocolRetry {
  import opened Wrappers
  import opened Pbs
  import opened ProtocolState
  import opened ProtocolSteps
  import opened ProtocolInv
  import opened ProtocolProof
  import opened ProtocolRuns
  import opened ProtocolContent
  import opened ProtocolSolo

  // ---- A commit from its backup on ----

  /** How the calls of request t ended, in order. */
  function OutcomesOf(ls: seq<Label>, t: Tid): seq<Outcome> {
    if ls == [] then []
    else (if ls[0].Step? && ls[0].t == t then [ls[0].o] else []) + OutcomesOf(ls[1..], t)
  }

  /** Where a commit of job j is whose calls ended like `os` since PBS.Backup gave `used`. */
  ghost predicate CommitAt(d: Desk, j: Job, used: Option<int>, os: seq<Outcome>, pc: Pc) {
    match pc
    case Ungroup(i, w) => i == j && w == used && os == [] && Lookup(d.files, j.file) == Some(j.body)
    case RemoveSrc(i, _) => i == j && used.Some? && |os| == 1 && Lookup(d.files, j.file) == Some(j.body)
    case Notes(i, _) => i == j && used.Some? && SourceAfter(d, j, os)
    case ReadOld(i, _) => i == j && used.Some? && SourceAfter(d, j, os)
    case WriteMap(i, _, _) => i == j && used.Some? && SourceAfter(d, j, os)
    case ForgetOld(i, _, _) => i == j
    case RmDir(_, _, r) => r == Stored
    case RmRec(_, _, r) => r == Stored
    case Unlock(_, _) => true
    case _ => Over(pc)
  }

  /** The second call was the removal of the source. */
  ghost predicate SourceAfter(d: Desk, j: Job, os: seq<Outcome>) {
    && |os| >= 2
    && Lookup(d.files, j.file) == if os[1].Fail? then Some(j.body) else None
  }

  lemma CommitAtStep(e: Env, c: Core, t: Tid, pc: Pc, o: Outcome, j: Job, used: Option<int>, os: seq<Outcome>)
    requires j.via.Some? && CommitAt(c.d, j, used, os, pc) && Local(e, c, t, pc, o).Some?
    ensures var n := Local(e, c, t, pc, o).value; CommitAt(n.core.d, j, used, os + [o], n.pc)
    ensures var n := Local(e, c, t, pc, o).value;
      n.pc == Unlock(j.key, Failed) ==>
        && (used.Some? ==> SourceAfter(c.d, j, os)) && (used.None? ==> Lookup(c.d.files, j.file) == Some(j.body))
        && n.core.d == c.d
  {
  }

  /** Only a request's own steps change an upload that it claims. */
  lemma ClaimedKept(e: Env, s: State, l: Label, t: Tid, u: UploadId)
    requires Inv(e, s) && t in s.procs && u in Claims(s.procs[t]) && Apply(e, s, l).Some?
    requires l.Step? ==> l.t != t
    ensures SameUpload(s.core.d, Apply(e, s, l).value.core.d, u)
  {
    hide ProtocolRuns.Inv;
    hide ProtocolInv.SameUpload;
    SameItself(s.core.d, u);
    match l
    case Step(o, out) => OtherStepKept(e, s, o, out, t, u);
    case Sweep(w, dir, rec) => SweepKept(s, w, dir, rec, u);
    case RemoveOrphan(w, o) => OrphanKept(e, s, w, o, t, u);
    case _ =>
  }

  lemma SameItself(d: Desk, u: UploadId)
    ensures SameUpload(d, d, u)
  {
  }

  lemma OrphanKept(e: Env, s: State, w: UploadId, o: Outcome, t: Tid, u: UploadId)
    requires Inv(e, s) && t in s.procs && u in Claims(s.procs[t]) && Apply(e, s, RemoveOrphan(w, o)).Some?
    ensures SameUpload(s.core.d, Apply(e, s, RemoveOrphan(w, o)).value.core.d, u)
  {
    hide ProtocolInv.VaultOk;
    hide ProtocolInv.DeskOk;
    hide ProtocolRuns.AllPcOk;
    hide ProtocolRuns.Exclusive;
    hide ProtocolRuns.LogOk;
    NoClaim(e, s, w);
    RemoveDirElsewhere(s.core.d, w, o);
  }

  lemma OtherStepKept(e: Env, s: State, o: Tid, out: Outcome, t: Tid, u: UploadId)
    requires Inv(e, s) && t in s.procs && u in Claims(s.procs[t]) && t != o
    requires Apply(e, s, Step(o, out)).Some?
    ensures SameUpload(s.core.d, Apply(e, s, Step(o, out)).value.core.d, u)
  {
    hide ProtocolInv.VaultOk;
    hide ProtocolInv.DeskOk;
    hide ProtocolInv.SameUpload;
    hide ProtocolRuns.LogOk;
    hide ProtocolRuns.GcOk;
    hide ProtocolSteps.Local;
    var n := Local(e, s.core, o, s.procs[o], out).value;
    StepCoreOk(e, s, o, out, n);
    GuaranteeSuffices(s.core, n.core, o, KeyHeld(s.procs[o]), t, s.procs[t]);
  }

  lemma SweepKept(s: State, w: UploadId, dir: Outcome, rec: Option<Outcome>, u: UploadId)
    requires SweepStep(s, w, dir, rec).Some? && u != w
    ensures SameUpload(s.core.d, SweepStep(s, w, dir, rec).value.core.d, u)
  {
    var d := RemoveDir(s.core.d, w, dir).value;
    RemoveDirElsewhere(s.core.d, w, dir);
    DeleteUploadElsewhere(d, w);
  }

  lemma CommitAtStable(d: Desk, f: Desk, j: Job, used: Option<int>, os: seq<Outcome>, pc: Pc, u: UploadId)
    requires j.via == Some(u) && j.file == Final(u) && CommitAt(d, j, used, os, pc)
    requires u in Claims(pc) ==> SameUpload(d, f, u)
    ensures CommitAt(f, j, used, os, pc)
  {
    if u in Claims(pc) { assert Lookup(d.files, Final(u)) == Lookup(f.files, Final(u)); }
  }

  lemma CommitAtLabel(e: Env, s: State, l: Label, t: Tid, j: Job, used: Option<int>, os: seq<Outcome>, u: UploadId)
    requires Inv(e, s) && t in s.procs && Apply(e, s, l).Some? && !(l.Step? && l.t == t)
    requires j.via == Some(u) && j.file == Final(u) && CommitAt(s.core.d, j, used, os, s.procs[t])
    ensures var n := Apply(e, s, l).value; t in n.procs && CommitAt(n.core.d, j, used, os, n.procs[t])
  {
    hide ProtocolRuns.Inv;
    var n := Apply(e, s, l).value;
    if u in Claims(s.procs[t]) { ClaimedKept(e, s, l, t, u); }
    CommitAtStable(s.core.d, n.core.d, j, used, os, s.procs[t], u);
    OthersPc(e, s, l, t, j, used, os);
  }

  lemma OthersPc(e: Env, s: State, l: Label, t: Tid, j: Job, used: Option<int>, os: seq<Outcome>)
    requires t in s.procs && Apply(e, s, l).Some? && !(l.Step? && l.t == t)
    requires CommitAt(s.core.d, j, used, os, s.procs[t])
    ensures t in Apply(e, s, l).value.procs
    ensures var pc := Apply(e, s, l).value.procs[t]; pc == s.procs[t] || Over(pc)
  {
  }

  lemma {:induction false} CommitRuns(
    e: Env, s: State, t: Tid, j: Job, used: Option<int>, os: seq<Outcome>, u: UploadId, ls: seq<Label>)
    requires Inv(e, s) && t in s.procs && Run(e, s, ls).Some?
    requires j.via == Some(u) && j.file == Final(u) && CommitAt(s.core.d, j, used, os, s.procs[t])
    ensures var n := Run(e, s, ls).value;
      t in n.procs && CommitAt(n.core.d, j, used, os + OutcomesOf(ls, t), n.procs[t])
    decreases |ls|
  {
    hide ProtocolRuns.Inv;
    hide CommitAt;
    if ls == [] {
      assert os + OutcomesOf(ls, t) == os;
    } else {
      var n := Apply(e, s, ls[0]).value;
      ApplyKeeps(e, s, ls[0]);
      var more := if ls[0].Step? && ls[0].t == t then [ls[0].o] else [];
      if ls[0].Step? && ls[0].t == t {
        CommitAtStep(e, s.core, t, s.procs[t], ls[0].o, j, used, os);
      } else {
        CommitAtLabel(e, s, ls[0], t, j, used, os, u);
        assert os + more == os;
      }
      CommitRuns(e, n, t, j, used, os + more, u, ls[1..]);
      assert os + more + OutcomesOf(ls[1..], t) == os + OutcomesOf(ls, t);
    }
  }

  /**
   Exactly when `final.img` survives a completing commit that fails: when PBS.Backup failed, or
   when the removal of the file after it failed, and not when a later call fails. The second
   call after PBS.Backup is that removal.
   */
  lemma FailedCommitKeepsFinalIff(
    e: Env, ls: seq<Label>, s: State, t: Tid, more: seq<Label>, m: State, o: Outcome, n: State)
    requires Reaches(e, ls, s) && t in s.procs && s.procs[t].Ungroup? && s.procs[t].job.via.Some?
    requires Run(e, s, more) == Some(m) && Apply(e, m, Step(t, o)) == Some(n)
    requires t in n.procs && n.procs[t] == Unlock(s.procs[t].job.key, Failed)
    ensures var j, used, os := s.procs[t].job, s.procs[t].used, OutcomesOf(more, t);
      && (used.Some? ==> |os| >= 2)
      && (Lookup(n.core.d.files, Final(j.via.value)) == Some(j.body) <==> used.None? || os[1].Fail?)
      && (Lookup(n.core.d.files, Final(j.via.value)) == None <==> !(used.None? || os[1].Fail?))
  {
    hide ProtocolRuns.Inv;
    ReachableInv(e, ls, s);
    hide ProtocolRuns.Reaches;
    var j, used := s.procs[t].job, s.procs[t].used;
    CommitStarts(e, s, t);
    CommitRuns(e, s, t, j, used, [], j.via.value, more);
    assert [] + OutcomesOf(more, t) == OutcomesOf(more, t);
    CommitAtStep(e, m.core, t, m.procs[t], o, j, used, OutcomesOf(more, t));
  }

  /** After a failed PBS backup the completing call leaves `final.img` with the bytes it tried to commit. */
  lemma FailedBackupKeepsFinal(e: Env, ls: seq<Label>, s: State, t: Tid)
    requires Reaches(e, ls, s) && t in s.procs && s.procs[t].Ungroup? && s.procs[t].used.None?
    requires s.procs[t].job.via.Some?
    ensures var j := s.procs[t].job;
      var n := Apply(e, s, Step(t, Ok)).value;
      && n.procs[t] == Unlock(j.key, Failed)
      && Lookup(n.core.d.files, Final(j.via.value)) == Some(j.body)
      && n.core == s.core
  {
    ReachableInv(e, ls, s);
    hide ProtocolRuns.Reaches;
    CommitStarts(e, s, t);
  }

  /**
   The case that goes wrong: PBS.Backup succeeds, the file is removed, and the mapping write
   fails; the upload is still on record, with nothing to retry with.
   */
  lemma MappingFailureLosesFinal(e: Env, ls: seq<Label>, s: State, t: Tid)
    requires Reaches(e, ls, s) && t in s.procs && s.procs[t].RemoveSrc? && s.procs[t].job.via.Some?
    ensures var j := s.procs[t].job;
      var r := Run(e, s, [Step(t, Ok), Step(t, Ok), Step(t, Ok), Step(t, Fail(Other, false))]);
      && r.Some? && t in r.value.procs && r.value.procs[t] == Unlock(j.key, Failed)
      && Final(j.via.value) !in r.value.core.d.files && j.via.value in r.value.core.d.uploads
  {
    ReachableInv(e, ls, s);
    hide ProtocolRuns.Reaches;
    var j := s.procs[t].job;
    assert DeskPcOk(e, s.core.d, t, s.procs[t]) && j.via.value in Claims(s.procs[t]) && SourceOk(s.core.d, t, j);
    assert t in s.reqs;
    FailsAfterRemove(e, s, t, s.reqs[t]);
  }

  lemma FailsAfterRemove(e: Env, s: State, t: Tid, r: Request)
    requires t in s.procs && s.procs[t].RemoveSrc? && t in s.reqs && s.reqs[t] == r
    ensures Leads(e, s, [Step(t, Ok), Step(t, Ok), Step(t, Ok), Step(t, Fail(Other, false))], t, r,
                  s.core.(d := RemoveFile(s.core.d, s.procs[t].job.file)), Unlock(s.procs[t].job.key, Failed))
  {
    var j, time := s.procs[t].job, s.procs[t].time;
    assert Leads(e, s, [], t, r, s.core, s.procs[t]) by {
      assert With(s, t, r, s.core, s.procs[t]) == s;
    }
    hide ProtocolSolo.Leads;
    var c := s.core.(d := RemoveFile(s.core.d, j.file));
    var seen := Lookup(c.v.objects, j.key);
    var ls := [] + [Step(t, Ok)];
    Steps(e, s, [], t, r, s.core, RemoveSrc(j, time), Ok, c, Notes(j, time));
    Steps(e, s, ls, t, r, c, Notes(j, time), Ok, c, ReadOld(j, time));
    ls := ls + [Step(t, Ok)];
    Steps(e, s, ls, t, r, c, ReadOld(j, time), Ok, c, WriteMap(j, time, seen));
    ls := ls + [Step(t, Ok)];
    Steps(e, s, ls, t, r, c, WriteMap(j, time, seen), Fail(Other, false), c, Unlock(j.key, Failed));
    assert ls + [Step(t, Fail(Other, false))] == [Step(t, Ok), Step(t, Ok), Step(t, Ok), Step(t, Fail(Other, false))];
  }

  lemma CommitStarts(e: Env, s: State, t: Tid)
    requires Inv(e, s) && t in s.procs && s.procs[t].Ungroup? && s.procs[t].job.via.Some?
    ensures s.procs[t].job.file == Final(s.procs[t].job.via.value)
    ensures CommitAt(s.core.d, s.procs[t].job, s.procs[t].used, [], s.procs[t])
  {
    hide ProtocolInv.VaultOk;
    hide ProtocolInv.DeskOk;
    hide ProtocolRuns.Exclusive;
    hide ProtocolRuns.LogOk;
    assert DeskPcOk(e, s.core.d, t, s.procs[t]);
  }

  // ---- What repeats of the call store ----

  /** The label opens no part of upload u for writing and brings no other list for it. */
  predicate Repeats(s: State, l: Label, u: UploadId, list: seq<PartRef>) {
    && (l.Step? && l.t in s.procs && s.procs[l.t].UpOpen? && s.procs[l.t].part.upload == u ==> !l.o.Ok?)
    && (l.Start? && l.r.CompleteMultipartUpload? && l.r.upload == u ==> l.r.list == list)
  }

  predicate Undisturbed(e: Env, s: State, ls: seq<Label>, u: UploadId, list: seq<PartRef>)
    decreases |ls|
  {
    ls != [] ==>
      && Repeats(s, ls[0], u, list)
      && (Apply(e, s, ls[0]).Some? ==> Undisturbed(e, Apply(e, s, ls[0]).value, ls[1..], u, list))
  }

  predicate Completes(reqs: map<Tid, Request>, t: Tid, u: UploadId) {
    t in reqs && reqs[t].CompleteMultipartUpload? && reqs[t].upload == u
  }

  /** Every unfinished call that completes upload u carries this list. */
  ghost predicate OneList(s: State, u: UploadId, list: seq<PartRef>) {
    forall t :: t in s.procs && !Over(s.procs[t]) && Completes(s.reqs, t, u) ==> s.reqs[t].list == list
  }

  /** The upload's part files are those of w, as far as they are still there. */
  ghost predicate PartsOf(w: Desk, d: Desk, u: UploadId) {
    forall p: PartId :: p.upload == u && PartFile(p) in d.files ==>
      Lookup(w.files, PartFile(p)) == Some(d.files[PartFile(p)])
  }

  ghost predicate SteadyPc(w: Desk, u: UploadId, b: Bytes, pc: Pc) {
    && (pc.UpWrite? ==> pc.part.upload != u)
    && (JobOf(pc).Some? && JobOf(pc).value.via == Some(u) ==> JobOf(pc).value.body == b)
    && ((pc.CoCopy? || pc.CoConsume?) && pc.upload == u ==>
          forall i :: 0 <= i < |pc.copied| ==> Lookup(w.files, Source(u, pc.copied[i].ref)) == Some(pc.copied[i].bytes))
  }

  ghost predicate SteadyDesk(w: Desk, u: UploadId, b: Bytes, d: Desk) {
    PartsOf(w, d, u) && (Final(u) in d.files ==> d.files[Final(u)] == b)
  }

  /** From entry `at` on, the log has upload u completed with these bytes only. */
  ghost predicate SteadyLog(log: seq<Effect>, at: nat, reqs: map<Tid, Request>, u: UploadId, b: Bytes) {
    && at <= |log|
    && forall i :: at <= i < |log| && log[i].Put? && Completes(reqs, log[i].req, u) ==> log[i].bytes == b
  }

  /** If all parts of the list are there in w, they make up these bytes. */
  predicate PartsAgree(w: Desk, u: UploadId, list: seq<PartRef>, b: Bytes) {
    Present(w, u, list) ==> Cat(PiecesOf(w, u, list)) == b
  }

  lemma {:induction false} SameBytes(ps: seq<Piece>, qs: seq<Piece>)
    requires |ps| == |qs| && forall i :: 0 <= i < |ps| ==> ps[i].bytes == qs[i].bytes
    ensures Cat(ps) == Cat(qs)
    decreases |ps|
  {
    if ps != [] { SameBytes(ps[..|ps| - 1], qs[..|qs| - 1]); }
  }

  /** A finished copy of the list has the agreed bytes. */
  lemma CopyAgrees(w: Desk, u: UploadId, list: seq<PartRef>, b: Bytes, copied: seq<Piece>)
    requires PartsAgree(w, u, list, b) && |copied| == |list|
    requires forall i :: 0 <= i < |list| ==>
      copied[i].ref == list[i] && Lookup(w.files, Source(u, copied[i].ref)) == Some(copied[i].bytes)
    ensures Cat(copied) == b
  {
    SameBytes(copied, PiecesOf(w, u, list));
  }

  // ---- One step of a request, and the files of upload u ----

  predicate OpensPart(pc: Pc, o: Outcome, u: UploadId) {
    (pc.UpOpen? && o.Ok? && pc.part.upload == u) || (pc.UpWrite? && pc.part.upload == u)
  }

  predicate RenamesFinal(pc: Pc, o: Outcome, u: UploadId) {
    pc.CoCopy? && o.Ok? && pc.upload == u && |pc.copied| >= |pc.list|
  }

  /** Besides the partial file, files of upload u only go, unless the step opens, writes or renames one. */
  ghost predicate OnlyShrinks(d: Desk, f: Desk, u: UploadId) {
    && PartsOf(d, f, u)
    && (Final(u) in f.files ==> Lookup(d.files, Final(u)) == Some(f.files[Final(u)]))
  }

  /** The files of upload u after a step. */
  ghost predicate FilesAfter(d: Desk, f: Desk, pc: Pc, o: Outcome, u: UploadId) {
    if RenamesFinal(pc, o, u) then PartsOf(d, f, u) && Lookup(f.files, Final(u)) == Some(Cat(pc.copied))
    else OnlyShrinks(d, f, u)
  }

  lemma RemoveDirShrinks(d: Desk, w: UploadId, o: Outcome, u: UploadId)
    requires RemoveDir(d, w, o).Some?
    ensures OnlyShrinks(d, RemoveDir(d, w, o).value, u)
  {
  }

  lemma CommitShrinks(e: Env, c: Core, t: Tid, pc: Pc, o: Outcome, u: UploadId)
    requires CommitStep(e, c, t, pc, o).Some?
    ensures FilesAfter(c.d, CommitStep(e, c, t, pc, o).value.core.d, pc, o, u)
  {
    CommitOffDesk(e, c, t, pc, o);
    if pc.RmDir? { RemoveDirShrinks(c.d, pc.upload, o, u); }
  }

  lemma DeleteShrinks(c: Core, t: Tid, pc: Pc, o: Outcome, u: UploadId)
    requires DeleteStep(c, t, pc, o).Some?
    ensures FilesAfter(c.d, DeleteStep(c, t, pc, o).value.core.d, pc, o, u)
  {
    if pc.DelDirs? && pc.rest != [] { RemoveDirShrinks(c.d, pc.rest[0], o, u); }
  }

  lemma UploadShrinks(e: Env, c: Core, pc: Pc, o: Outcome, u: UploadId)
    requires UploadStep(e, c, pc, o).Some? && !OpensPart(pc, o, u)
    ensures FilesAfter(c.d, UploadStep(e, c, pc, o).value.core.d, pc, o, u)
  {
    if pc.AbDir? { RemoveDirShrinks(c.d, pc.upload, o, u); }
  }

  lemma CompleteShrinks(c: Core, pc: Pc, o: Outcome, u: UploadId)
    requires CompleteStep(c, pc, o).Some?
    ensures FilesAfter(c.d, CompleteStep(c, pc, o).value.core.d, pc, o, u)
  {
  }

  lemma GetShrinks(c: Core, pc: Pc, o: Outcome, u: UploadId)
    requires GetStep(c, pc, o).Some?
    ensures FilesAfter(c.d, GetStep(c, pc, o).value.core.d, pc, o, u)
  {
  }

  lemma LocalShrinks(e: Env, c: Core, t: Tid, pc: Pc, o: Outcome, u: UploadId)
    requires Local(e, c, t, pc, o).Some? && !OpensPart(pc, o, u)
    ensures FilesAfter(c.d, Local(e, c, t, pc, o).value.core.d, pc, o, u)
  {
    hide FilesAfter;
    hide ProtocolSteps.CommitStep;
    hide ProtocolSteps.DeleteStep;
    hide ProtocolSteps.UploadStep;
    hide ProtocolSteps.CompleteStep;
    hide ProtocolSteps.GetStep;
    if CommitStep(e, c, t, pc, o).Some? { CommitShrinks(e, c, t, pc, o, u); }
    else if DeleteStep(c, t, pc, o).Some? { DeleteShrinks(c, t, pc, o, u); }
    else if UploadStep(e, c, pc, o).Some? { UploadShrinks(e, c, pc, o, u); }
    else if CompleteStep(c, pc, o).Some? { CompleteShrinks(c, pc, o, u); }
    else { GetShrinks(c, pc, o, u); }
  }

  // ---- Every step keeps it ----

  ghost predicate Steady(w: Desk, at: nat, u: UploadId, list: seq<PartRef>, b: Bytes, s: State) {
    && SteadyDesk(w, u, b, s.core.d) && OneList(s, u, list) && SteadyLog(s.core.v.log, at, s.reqs, u, b)
    && forall t :: t in s.procs ==> SteadyPc(w, u, b, s.procs[t])
  }

  /** What a request itself knows in its next step. */
  ghost predicate OwnList(e: Env, c: Core, pc: Pc, u: UploadId, list: seq<PartRef>) {
    (pc.CoCopy? || pc.CoConsume?) && pc.upload == u ==>
      pc.list == list && CopyOk(e, c.d, u, list, pc.plan, pc.copied)
  }

  lemma StepDesk(e: Env, c: Core, t: Tid, pc: Pc, o: Outcome, w: Desk, u: UploadId, list: seq<PartRef>, b: Bytes)
    requires Local(e, c, t, pc, o).Some? && SteadyDesk(w, u, b, c.d) && SteadyPc(w, u, b, pc)
    requires PartsAgree(w, u, list, b) && OwnList(e, c, pc, u, list) && !(pc.UpOpen? && o.Ok? && pc.part.upload == u)
    ensures SteadyDesk(w, u, b, Local(e, c, t, pc, o).value.core.d)
  {
    hide PartsAgree;
    hide OwnList;
    hide SteadyDesk;
    hide FilesAfter;
    hide ProtocolSteps.Local;
    LocalShrinks(e, c, t, pc, o, u);
    if RenamesFinal(pc, o, u) { RenameAgrees(e, c, pc, o, w, u, list, b); }
    AfterSteady(c.d, Local(e, c, t, pc, o).value.core.d, pc, o, w, u, b);
  }

  lemma AfterSteady(d: Desk, f: Desk, pc: Pc, o: Outcome, w: Desk, u: UploadId, b: Bytes)
    requires SteadyDesk(w, u, b, d) && FilesAfter(d, f, pc, o, u) && (RenamesFinal(pc, o, u) ==> Cat(pc.copied) == b)
    ensures SteadyDesk(w, u, b, f)
  {
  }

  lemma RenameAgrees(e: Env, c: Core, pc: Pc, o: Outcome, w: Desk, u: UploadId, list: seq<PartRef>, b: Bytes)
    requires RenamesFinal(pc, o, u) && SteadyPc(w, u, b, pc) && PartsAgree(w, u, list, b) && OwnList(e, c, pc, u, list)
    ensures Cat(pc.copied) == b
  {
    hide PartsAgree;
    CopyAgrees(w, u, list, b, pc.copied);
  }

  lemma CommitSteady(e: Env, c: Core, t: Tid, pc: Pc, o: Outcome, w: Desk, u: UploadId, b: Bytes)
    requires CommitStep(e, c, t, pc, o).Some? && SteadyPc(w, u, b, pc)
    ensures SteadyPc(w, u, b, CommitStep(e, c, t, pc, o).value.pc)
  {
    hide ProtocolSteps.RemoveDir;
    hide ProtocolSteps.MaybeDeleteUpload;
    hide ProtocolSteps.Forget;
    hide ProtocolSteps.Backup;
  }

  lemma DeleteSteady(c: Core, t: Tid, pc: Pc, o: Outcome, w: Desk, u: UploadId, b: Bytes)
    requires DeleteStep(c, t, pc, o).Some?
    ensures SteadyPc(w, u, b, DeleteStep(c, t, pc, o).value.pc)
  {
    hide ProtocolSteps.RemoveDir;
    hide ProtocolSteps.MaybeDeleteUpload;
    hide ProtocolSteps.Doom;
  }

  lemma UploadSteady(e: Env, c: Core, pc: Pc, o: Outcome, w: Desk, u: UploadId, b: Bytes)
    requires UploadStep(e, c, pc, o).Some? && SteadyPc(w, u, b, pc) && !(pc.UpOpen? && o.Ok? && pc.part.upload == u)
    ensures SteadyPc(w, u, b, UploadStep(e, c, pc, o).value.pc)
  {
    hide ProtocolSteps.RemoveDir;
    hide ProtocolSteps.MaybeDeleteUpload;
  }

  lemma CompleteSteady(
    e: Env, c: Core, t: Tid, pc: Pc, o: Outcome, w: Desk, u: UploadId, list: seq<PartRef>, b: Bytes)
    requires CompleteStep(c, pc, o).Some? && SteadyDesk(w, u, b, c.d) && SteadyPc(w, u, b, pc)
    requires PartsAgree(w, u, list, b) && OwnList(e, c, pc, u, list)
    ensures SteadyPc(w, u, b, CompleteStep(c, pc, o).value.pc)
  {
    hide PartsAgree;
    hide ProtocolInv.CopyOk;
    hide ProtocolSteps.ValidList;
    hide SteadyPc;
    match pc
    case CoHash(_, _) => HashSteady(c, pc, o, w, u, b);
    case CoCopy(_, _, _, _, _) => CopySteady(e, c, pc, o, w, u, list, b);
    case CoConsume(_, _, _, _, _) => ConsumeSteady(c, pc, o, w, u, b);
    case _ => PlainSteady(c, pc, o, w, u, b);
  }

  lemma HashSteady(c: Core, pc: Pc, o: Outcome, w: Desk, u: UploadId, b: Bytes)
    requires pc.CoHash? && CompleteStep(c, pc, o).Some? && SteadyDesk(w, u, b, c.d)
    ensures SteadyPc(w, u, b, CompleteStep(c, pc, o).value.pc)
  {
  }

  lemma CopySteady(e: Env, c: Core, pc: Pc, o: Outcome, w: Desk, u: UploadId, list: seq<PartRef>, b: Bytes)
    requires pc.CoCopy? && CompleteStep(c, pc, o).Some? && SteadyDesk(w, u, b, c.d) && SteadyPc(w, u, b, pc)
    requires PartsAgree(w, u, list, b) && OwnList(e, c, pc, u, list)
    ensures SteadyPc(w, u, b, CompleteStep(c, pc, o).value.pc)
  {
    hide PartsAgree;
    hide OwnList;
    if RenamesFinal(pc, o, u) { RenameAgrees(e, c, pc, o, w, u, list, b); }
  }

  lemma ConsumeSteady(c: Core, pc: Pc, o: Outcome, w: Desk, u: UploadId, b: Bytes)
    requires pc.CoConsume? && CompleteStep(c, pc, o).Some? && SteadyPc(w, u, b, pc)
    ensures SteadyPc(w, u, b, CompleteStep(c, pc, o).value.pc)
  {
  }

  /** The steps before the copying begins. */
  lemma PlainSteady(c: Core, pc: Pc, o: Outcome, w: Desk, u: UploadId, b: Bytes)
    requires CompleteStep(c, pc, o).Some? && !pc.CoHash? && !pc.CoCopy? && !pc.CoConsume?
    ensures SteadyPc(w, u, b, CompleteStep(c, pc, o).value.pc)
  {
    hide ProtocolSteps.ValidList;
  }

  lemma StepPc(e: Env, c: Core, t: Tid, pc: Pc, o: Outcome, w: Desk, u: UploadId, list: seq<PartRef>, b: Bytes)
    requires Local(e, c, t, pc, o).Some? && SteadyDesk(w, u, b, c.d) && SteadyPc(w, u, b, pc)
    requires PartsAgree(w, u, list, b) && OwnList(e, c, pc, u, list) && !(pc.UpOpen? && o.Ok? && pc.part.upload == u)
    ensures SteadyPc(w, u, b, Local(e, c, t, pc, o).value.pc)
  {
    hide PartsAgree;
    hide SteadyDesk;
    hide OwnList;
    if CommitStep(e, c, t, pc, o).Some? { CommitSteady(e, c, t, pc, o, w, u, b); }
    else if DeleteStep(c, t, pc, o).Some? { DeleteSteady(c, t, pc, o, w, u, b); }
    else if UploadStep(e, c, pc, o).Some? { UploadSteady(e, c, pc, o, w, u, b); }
    else if CompleteStep(c, pc, o).Some? { CompleteSteady(e, c, t, pc, o, w, u, list, b); }
  }

  lemma StepLog(reqs: map<Tid, Request>, log: seq<Effect>, next: seq<Effect>, at: nat, t: Tid, pc: Pc,
      w: Desk, u: UploadId, b: Bytes)
    requires SteadyLog(log, at, reqs, u, b) && SteadyPc(w, u, b, pc) && t in reqs && Serves(reqs[t], pc)
    requires || next == log
             || (exists k :: next == log + [Del(t, k)])
             || (pc.WriteMap? && next == log + [Put(t, pc.job.key, pc.job.body)])
    ensures SteadyLog(next, at, reqs, u, b)
  {
  }

  lemma StepSteady(e: Env, s: State, t: Tid, o: Outcome, w: Desk, at: nat, u: UploadId, list: seq<PartRef>, b: Bytes)
    requires Inv(e, s) && Steady(w, at, u, list, b, s) && PartsAgree(w, u, list, b)
    requires Repeats(s, Step(t, o), u, list) && Apply(e, s, Step(t, o)).Some?
    ensures Steady(w, at, u, list, b, Apply(e, s, Step(t, o)).value)
  {
    hide SteadyDesk;
    hide SteadyPc;
    hide SteadyLog;
    hide PartsAgree;
    hide ProtocolRuns.Inv;
    hide ProtocolSteps.Local;
    var pc := s.procs[t];
    var n := Local(e, s.core, t, pc, o).value;
    OwnListHolds(e, s, t, u, list);
    StepDesk(e, s.core, t, pc, o, w, u, list, b);
    StepPc(e, s.core, t, pc, o, w, u, list, b);
    PutComesFromJob(e, s.core, t, pc, o);
    StepLog(s.reqs, s.core.v.log, n.core.v.log, at, t, pc, w, u, b);
    OverIsOver(e, s.core, t, pc, o);
  }

  lemma OverIsOver(e: Env, c: Core, t: Tid, pc: Pc, o: Outcome)
    requires Local(e, c, t, pc, o).Some?
    ensures !Over(pc)
  {
  }

  lemma OwnListHolds(e: Env, s: State, t: Tid, u: UploadId, list: seq<PartRef>)
    requires Inv(e, s) && t in s.procs && OneList(s, u, list)
    ensures t in s.reqs && Serves(s.reqs[t], s.procs[t]) && OwnList(e, s.core, s.procs[t], u, list)
  {
    hide ProtocolInv.VaultOk;
    hide ProtocolInv.DeskOk;
    hide ProtocolInv.CopyOk;
    hide ProtocolRuns.Exclusive;
    hide ProtocolRuns.LogOk;
    hide ProtocolRuns.GcOk;
    assert DeskPcOk(e, s.core.d, t, s.procs[t]) && Serves(s.reqs[t], s.procs[t]);
  }

  lemma AnySteady(e: Env, s: State, l: Label, w: Desk, at: nat, u: UploadId, list: seq<PartRef>, b: Bytes)
    requires Inv(e, s) && Steady(w, at, u, list, b, s) && PartsAgree(w, u, list, b)
    requires Repeats(s, l, u, list) && Apply(e, s, l).Some?
    ensures Steady(w, at, u, list, b, Apply(e, s, l).value)
  {
    hide Steady;
    hide PartsAgree;
    hide OnlyShrinks;
    hide ProtocolRuns.Inv;
    match l
    case Step(t, o) => StepSteady(e, s, t, o, w, at, u, list, b);
    case Start(t, r) => StartSteady(e, s, t, r, w, at, u, list, b);
    case Lock(t) => LockSteady(e, s, t, w, at, u, list, b);
    case Release(t) => ReleaseSteady(s, t, w, at, u, list, b);
    case Crash => CrashSteady(e, s, w, at, u, list, b);
    case Sweep(v, dir, rec) => SweepSteady(e, s, v, dir, rec, w, at, u, list, b);
    case ListDirs => GcSteady(s, Listed(s.core.d.dirs), w, at, u, list, b);
    case ListIds => GcSteady(s, Apply(e, s, l).value.gc, w, at, u, list, b);
    case RemoveOrphan(v, o) =>
      RemoveDirShrinks(s.core.d, v, o, u);
      DeskSteady(s, RemoveDir(s.core.d, v, o).value, w, at, u, list, b);
  }

  lemma GcSteady(s: State, gc: Gc, w: Desk, at: nat, u: UploadId, list: seq<PartRef>, b: Bytes)
    requires Steady(w, at, u, list, b, s)
    ensures Steady(w, at, u, list, b, s.(gc := gc))
  {
  }

  lemma MoveSteady(s: State, t: Tid, pc: Pc, w: Desk, at: nat, u: UploadId, list: seq<PartRef>, b: Bytes)
    requires Steady(w, at, u, list, b, s) && t in s.procs && SteadyPc(w, u, b, pc) && (Over(s.procs[t]) ==> Over(pc))
    ensures Steady(w, at, u, list, b, Move(s, t, pc))
  {
    hide SteadyDesk;
    hide SteadyPc;
    hide SteadyLog;
  }

  lemma ReleaseSteady(s: State, t: Tid, w: Desk, at: nat, u: UploadId, list: seq<PartRef>, b: Bytes)
    requires Steady(w, at, u, list, b, s) && t in s.procs && s.procs[t].Unlock?
    ensures Steady(w, at, u, list, b, Move(s, t, Done(s.procs[t].resp)))
  {
    MoveSteady(s, t, Done(s.procs[t].resp), w, at, u, list, b);
  }

  lemma LockSteady(e: Env, s: State, t: Tid, w: Desk, at: nat, u: UploadId, list: seq<PartRef>, b: Bytes)
    requires Inv(e, s) && Steady(w, at, u, list, b, s) && Apply(e, s, Lock(t)).Some?
    ensures Steady(w, at, u, list, b, Apply(e, s, Lock(t)).value)
  {
    hide SteadyDesk;
    hide SteadyLog;
    hide ProtocolInv.VaultOk;
    hide ProtocolInv.DeskOk;
    hide ProtocolRuns.Exclusive;
    hide ProtocolRuns.LogOk;
    assert DeskPcOk(e, s.core.d, t, s.procs[t]);
    var pc := LockStep(e, s, t).value.procs[t];
    LockedSteady(e, s, t, w, u, b);
    MoveSteady(s, t, pc, w, at, u, list, b);
  }

  lemma LockedSteady(e: Env, s: State, t: Tid, w: Desk, u: UploadId, b: Bytes)
    requires t in s.procs && LockStep(e, s, t).Some? && DeskPc(e, s.core.d, t, s.procs[t])
    requires SteadyPc(w, u, b, s.procs[t])
    ensures var n := LockStep(e, s, t).value; t in n.procs && n == Move(s, t, n.procs[t]) && SteadyPc(w, u, b, n.procs[t])
  {
  }

  lemma StartSteady(e: Env, s: State, t: Tid, r: Request, w: Desk, at: nat, u: UploadId, list: seq<PartRef>, b: Bytes)
    requires Inv(e, s) && Steady(w, at, u, list, b, s)
    requires Repeats(s, Start(t, r), u, list) && Apply(e, s, Start(t, r)).Some?
    ensures Steady(w, at, u, list, b, Apply(e, s, Start(t, r)).value)
  {
    hide SteadyDesk;
    hide ProtocolInv.VaultOk;
    hide ProtocolInv.DeskOk;
    hide ProtocolRuns.AllPcOk;
    hide ProtocolRuns.Exclusive;
    assert SteadyPc(w, u, b, Entry(r, s.core));
  }

  lemma CrashSteady(e: Env, s: State, w: Desk, at: nat, u: UploadId, list: seq<PartRef>, b: Bytes)
    requires Steady(w, at, u, list, b, s)
    ensures Steady(w, at, u, list, b, Apply(e, s, Crash).value)
  {
    hide SteadyDesk;
    hide SteadyLog;
    assert forall pc: Pc :: Over(pc) ==> SteadyPc(w, u, b, pc);
  }

  lemma DeskSteady(s: State, f: Desk, w: Desk, at: nat, u: UploadId, list: seq<PartRef>, b: Bytes)
    requires Steady(w, at, u, list, b, s) && OnlyShrinks(s.core.d, f, u)
    ensures Steady(w, at, u, list, b, s.(core := s.core.(d := f)))
  {
    hide SteadyPc;
    hide SteadyLog;
  }

  lemma SweepSteady(e: Env, s: State, v: UploadId, dir: Outcome, rec: Option<Outcome>,
      w: Desk, at: nat, u: UploadId, list: seq<PartRef>, b: Bytes)
    requires Steady(w, at, u, list, b, s) && Apply(e, s, Sweep(v, dir, rec)).Some?
    ensures Steady(w, at, u, list, b, Apply(e, s, Sweep(v, dir, rec)).value)
  {
    hide Steady;
    var d := RemoveDir(s.core.d, v, dir).value;
    RemoveDirShrinks(s.core.d, v, dir, u);
    DeskSteady(s, d, w, at, u, list, b);
    DeskSteady(s, DeleteUpload(d, v), w, at, u, list, b);
  }

  lemma {:induction false} SteadyRun(
    e: Env, s: State, ls: seq<Label>, w: Desk, at: nat, u: UploadId, list: seq<PartRef>, b: Bytes)
    requires Inv(e, s) && Steady(w, at, u, list, b, s) && PartsAgree(w, u, list, b)
    requires Undisturbed(e, s, ls, u, list) && Run(e, s, ls).Some?
    ensures Steady(w, at, u, list, b, Run(e, s, ls).value)
    decreases |ls|
  {
    hide ProtocolRuns.Inv;
    hide Steady;
    hide PartsAgree;
    if ls != [] {
      AnySteady(e, s, ls[0], w, at, u, list, b);
      ApplyKeeps(e, s, ls[0]);
      SteadyRun(e, Apply(e, s, ls[0]).value, ls[1..], w, at, u, list, b);
    }
  }

  /** A request alone holds its key, and with it the upload it claims. */
  lemma AloneInUpload(e: Env, s: State, t: Tid, o: Tid, u: UploadId)
    requires Inv(e, s) && t in s.procs && o in s.procs && t != o && u in Claims(s.procs[t])
    ensures u !in Claims(s.procs[o])
  {
    hide ProtocolInv.VaultOk;
    hide ProtocolInv.DeskOk;
    hide ProtocolInv.DeskPc;
    hide ProtocolInv.VaultPc;
    hide ProtocolRuns.LogOk;
    hide ProtocolRuns.GcOk;
    hide ProtocolRuns.ServesAll;
    assert ClaimsOk(s.core.d, s.procs[t]) && ClaimsOk(s.core.d, s.procs[o]);
    assert KeyHeld(s.procs[o]) != KeyHeld(s.procs[t]);
  }

  lemma UnclaimedSteady(w: Desk, u: UploadId, b: Bytes, pc: Pc)
    requires u !in Claims(pc)
    ensures SteadyPc(w, u, b, pc)
  {
    if JobOf(pc).Some? { assert Claims(pc) == Via(JobOf(pc).value); }
  }

  lemma SteadyStart(e: Env, s: State, t: Tid, u: UploadId, list: seq<PartRef>)
    requires Inv(e, s) && t in s.procs && s.procs[t].Ungroup? && s.procs[t].job.via == Some(u) && OneList(s, u, list)
    ensures Steady(s.core.d, |s.core.v.log|, u, list, s.procs[t].job.body, s)
  {
    hide OneList;
    CommitStarts(e, s, t);
    hide ProtocolRuns.Inv;
    forall o | o in s.procs ensures SteadyPc(s.core.d, u, s.procs[t].job.body, s.procs[o]) {
      if o != t {
        AloneInUpload(e, s, t, o, u);
        UnclaimedSteady(s.core.d, u, s.procs[t].job.body, s.procs[o]);
      }
    }
  }

  // ---- When repeats store the same ----

  /**
   However the run goes on, as long as no part of the upload is opened for writing and every
   call that completes it carries this list, such a call stores these bytes or nothing.
   */
  ghost predicate RepeatsStore(e: Env, s: State, u: UploadId, list: seq<PartRef>, b: Bytes) {
    forall ls :: Undisturbed(e, s, ls, u, list) && Run(e, s, ls).Some? ==>
      SteadyLog(Run(e, s, ls).value.core.v.log, |s.core.v.log|, Run(e, s, ls).value.reqs, u, b)
  }

  lemma AgreeingRepeats(e: Env, s: State, t: Tid, u: UploadId, list: seq<PartRef>)
    requires Inv(e, s) && t in s.procs && s.procs[t].Ungroup? && s.procs[t].job.via == Some(u) && OneList(s, u, list)
    requires PartsAgree(s.core.d, u, list, s.procs[t].job.body)
    ensures RepeatsStore(e, s, u, list, s.procs[t].job.body)
  {
    hide ProtocolRuns.Inv;
    hide SteadyLog;
    SteadyStart(e, s, t, u, list);
    forall ls | Undisturbed(e, s, ls, u, list) && Run(e, s, ls).Some?
      ensures SteadyLog(Run(e, s, ls).value.core.v.log, |s.core.v.log|, Run(e, s, ls).value.reqs, u, s.procs[t].job.body)
    {
      SteadyRun(e, s, ls, s.core.d, |s.core.v.log|, u, list, s.procs[t].job.body);
    }
  }

  lemma {:induction false} FreshTid(ts: set<Tid>) returns (t: Tid)
    ensures forall o :: o in ts ==> o < t
  {
    if ts == {} {
      t := 0;
    } else {
      var o :| o in ts;
      var u := FreshTid(ts - {o});
      t := if u > o then u else o + 1;
      forall x | x in ts ensures x < t {
        assert x == o || x in ts - {o};
      }
    }
  }

  /** A run of one call that completes the upload opens no part. */
  lemma {:induction false} OneCallIsUndisturbed(
    e: Env, s: State, ls: seq<Label>, t: Tid, k: ObjKey, u: UploadId, list: seq<PartRef>)
    requires Inv(e, s) && By(ls, t, CompleteMultipartUpload(k, u, list)) && Run(e, s, ls).Some?
    requires t in s.reqs ==> s.reqs[t] == CompleteMultipartUpload(k, u, list)
    ensures Undisturbed(e, s, ls, u, list)
    decreases |ls|
  {
    hide ProtocolRuns.Inv;
    hide Repeats;
    hide ProtocolSteps.Apply;
    if ls != [] {
      OneLabelRepeats(e, s, ls[0], t, k, u, list);
      ApplyKeeps(e, s, ls[0]);
      assert By(ls[1..], t, CompleteMultipartUpload(k, u, list)) by {
        assert forall i :: 0 <= i < |ls[1..]| ==> ls[1..][i] == ls[i + 1];
      }
      OneCallIsUndisturbed(e, Apply(e, s, ls[0]).value, ls[1..], t, k, u, list);
    }
  }

  lemma OneLabelRepeats(e: Env, s: State, l: Label, t: Tid, k: ObjKey, u: UploadId, list: seq<PartRef>)
    requires Inv(e, s) && Apply(e, s, l).Some?
    requires (l.Start? ==> l == Start(t, CompleteMultipartUpload(k, u, list))) && (l.Step? ==> l.t == t)
    requires t in s.reqs ==> s.reqs[t] == CompleteMultipartUpload(k, u, list)
    ensures Repeats(s, l, u, list)
    ensures t in Apply(e, s, l).value.reqs ==> Apply(e, s, l).value.reqs[t] == CompleteMultipartUpload(k, u, list)
  {
    hide ProtocolInv.VaultOk;
    hide ProtocolInv.DeskOk;
    hide ProtocolRuns.AllPcOk;
    hide ProtocolRuns.Exclusive;
    hide ProtocolRuns.LogOk;
    hide ProtocolRuns.GcOk;
    assert t in s.procs ==> Serves(s.reqs[t], s.procs[t]);
  }

  /** A request beyond its look keeps the list it checked. */
  lemma ListStillValid(e: Env, ls: seq<Label>, s: State, t: Tid, u: UploadId, list: seq<PartRef>)
    requires Reaches(e, ls, s) && t in s.procs && s.procs[t].Ungroup? && s.procs[t].job.via == Some(u)
    requires t in s.reqs && s.reqs[t].CompleteMultipartUpload? && s.reqs[t].list == list
    ensures ValidList(s.core.d.parts, u, list) && Lookup(s.core.d.uploads, u) == Some(s.procs[t].job.key)
    ensures s.reqs[t] == CompleteMultipartUpload(s.procs[t].job.key, u, list)
    ensures t in Seen(e, ls)
    ensures PartsAsSeen(Seen(e, ls)[t].desk, s.core.d, u) && Chosen(Seen(e, ls)[t], u, list, s.procs[t].job.body)
  {
    hide ProtocolRuns.Inv;
    hide ProtocolContent.Content;
    hide ProtocolContent.PartsAsSeen;
    hide ProtocolContent.Chosen;
    ReachableInv(e, ls, s);
    ReachableContent(e, ls, s);
    hide ProtocolRuns.Reaches;
    OwnUpload(e, s, t, u);
    OwnLook(e, s, Seen(e, ls), t, u, list);
  }

  lemma OwnUpload(e: Env, s: State, t: Tid, u: UploadId)
    requires Inv(e, s) && t in s.procs && s.procs[t].Ungroup? && s.procs[t].job.via == Some(u)
    ensures Lookup(s.core.d.uploads, u) == Some(s.procs[t].job.key) && u in Claims(s.procs[t])
    ensures t in s.reqs && s.reqs[t].CompleteMultipartUpload?
    ensures s.reqs[t].key == s.procs[t].job.key && s.reqs[t].upload == u
  {
    hide ProtocolInv.VaultOk;
    hide ProtocolInv.DeskOk;
    hide ProtocolRuns.Exclusive;
    hide ProtocolRuns.LogOk;
    hide ProtocolRuns.GcOk;
    assert DeskPcOk(e, s.core.d, t, s.procs[t]) && Serves(s.reqs[t], s.procs[t]);
    assert u in Claims(s.procs[t]);
  }

  lemma OwnLook(e: Env, s: State, seen: Looks, t: Tid, u: UploadId, list: seq<PartRef>)
    requires Content(e, seen, s) && t in s.procs && s.procs[t].Ungroup? && s.procs[t].job.via == Some(u)
    requires t in s.reqs && s.reqs[t].CompleteMultipartUpload? && s.reqs[t].upload == u && s.reqs[t].list == list
    ensures t in seen && PartsAsSeen(seen[t].desk, s.core.d, u) && Chosen(seen[t], u, list, s.procs[t].job.body)
    ensures ValidList(s.core.d.parts, u, list)
  {
    hide ProtocolContent.PutsOk;
    hide ProtocolContent.Chosen;
    hide ProtocolContent.PartsAsSeen;
    hide ProtocolSteps.ValidList;
    hide ProtocolInv.DeskOk;
    assert PcContent(seen, s.core.d, s.reqs, t, s.procs[t]);
    StillValid(seen[t].desk, s.core.d, u, list);
  }

  lemma StillValid(w: Desk, d: Desk, u: UploadId, list: seq<PartRef>)
    requires PartsAsSeen(w, d, u) && ValidList(w.parts, u, list)
    ensures ValidList(d.parts, u, list)
  {
    forall i | 0 <= i < |list| ensures Lookup(d.parts, PartId(u, list[i].number)) == Some(list[i].etag) {
      assert Lookup(w.parts, PartId(u, list[i].number)) == Some(list[i].etag);
    }
  }

  lemma CrashedIsQuiet(e: Env, s: State)
    requires Inv(e, s)
    ensures var n := Apply(e, s, Crash).value; Inv(e, n) && Quiet(n) && n.core == s.core && n.reqs == s.reqs
  {
    hide ProtocolRuns.Inv;
    CrashKeeps(e, s);
  }

  /** A time that PBS accepts. */
  function Later(v: Vault, g: Group): int {
    if g in v.high then v.high[g] + 1 else 0
  }

  /**
   A call that comes after a crash and cannot look for `final.img` stores the parts of its list
   as they stand.
   */
  lemma StoresParts(e: Env, base: State, t: Tid, k: ObjKey, u: UploadId, list: seq<PartRef>)
    returns (ls: seq<Label>, c: Core, pc: Pc)
    requires Inv(e, base) && Quiet(base) && Newcomer(base, t) && Lookup(base.core.d.uploads, u) == Some(k)
    requires ValidList(base.core.d.parts, u, list) && Present(base.core.d, u, list)
    ensures Leads(e, base, ls, t, CompleteMultipartUpload(k, u, list), c, pc)
    ensures By(ls, t, CompleteMultipartUpload(k, u, list))
    ensures c.v.log == base.core.v.log + [Put(t, k, Cat(PiecesOf(base.core.d, u, list)))]
  {
    hide ProtocolRuns.Inv;
    hide ProtocolSolo.Leads;
    hide ProtocolSolo.Quiet;
    var r := CompleteMultipartUpload(k, u, list);
    var c1 := base.core.(d := MkDir(base.core.d, u));
    Prepares(e, base, t, k, u, list);
    var o := Fail(Other, false);
    var more, c2, all := Concats(e, base, LookRun(t, k, u, list), t, r, c1, k, u, list, o);
    SameBytes(all, PiecesOf(base.core.d, u, list));
    var j := Job(k, Final(u), Cat(all), Some(u));
    var now := Later(c2.v, e.groupOf(k));
    Commits(e, base, LookRun(t, k, u, list) + [Step(t, o)] + more, t, r, c2, j, now);
    ls := LookRun(t, k, u, list) + [Step(t, o)] + more + CommitRun(t, now);
    c, pc := Committed(e, c2, t, j, now), AfterMapping(c2, j);
  }

  lemma DisagreeingDiffer(e: Env, ls: seq<Label>, s: State, t: Tid, u: UploadId, list: seq<PartRef>)
    requires Reaches(e, ls, s) && t in s.procs && s.procs[t].Ungroup? && s.procs[t].job.via == Some(u)
    requires t in s.reqs && s.reqs[t].CompleteMultipartUpload? && s.reqs[t].list == list
    requires !PartsAgree(s.core.d, u, list, s.procs[t].job.body)
    ensures !RepeatsStore(e, s, u, list, s.procs[t].job.body)
  {
    hide ProtocolRuns.Inv;
    hide ProtocolContent.PartsAsSeen;
    hide ProtocolContent.Chosen;
    ReachableInv(e, ls, s);
    ListStillValid(e, ls, s, t, u, list);
    hide ProtocolRuns.Reaches;
    CrashedIsQuiet(e, s);
    var base := Apply(e, s, Crash).value;
    var k := s.procs[t].job.key;
    var o := FreshTid(base.procs.Keys + base.reqs.Keys);
    assert o !in base.procs.Keys + base.reqs.Keys;
    var more, c, pc := StoresParts(e, base, o, k, u, list);
    OneCallIsUndisturbed(e, base, more, o, k, u, list);
    assert ([Crash] + more)[1..] == more;
    assert Undisturbed(e, s, [Crash] + more, u, list);
    var n := Run(e, s, [Crash] + more).value;
    assert n.core.v.log[|s.core.v.log|] == Put(o, k, Cat(PiecesOf(s.core.d, u, list)));
    assert Completes(n.reqs, o, u);
    assert !SteadyLog(n.core.v.log, |s.core.v.log|, n.reqs, u, s.procs[t].job.body);
  }

  /**
   Exactly when every repeat of a failed call, with the same list and no part opened in between,
   stores the bytes that the failed call tried to store: when the listed part files are not all
   there any more, or make up those bytes.
   */
  lemma RepeatsStoreTheSameIff(e: Env, ls: seq<Label>, s: State, t: Tid, u: UploadId, list: seq<PartRef>)
    requires Reaches(e, ls, s) && t in s.procs && s.procs[t].Ungroup? && s.procs[t].job.via == Some(u)
    requires t in s.reqs && s.reqs[t].CompleteMultipartUpload? && s.reqs[t].list == list && OneList(s, u, list)
    ensures RepeatsStore(e, s, u, list, s.procs[t].job.body) <==> PartsAgree(s.core.d, u, list, s.procs[t].job.body)
  {
    hide RepeatsStore;
    hide PartsAgree;
    hide ProtocolRuns.Inv;
    if PartsAgree(s.core.d, u, list, s.procs[t].job.body) {
      ReachableInv(e, ls, s);
      AgreeingRepeats(e, s, t, u, list);
    } else {
      DisagreeingDiffer(e, ls, s, t, u, list);
    }
  }

  /** A call that concatenated the parts itself is repeated faithfully. */
  lemma RepeatsStoreTheSame(e: Env, ls: seq<Label>, s: State, t: Tid, u: UploadId, list: seq<PartRef>)
    requires Reaches(e, ls, s) && t in s.procs && s.procs[t].Ungroup? && s.procs[t].job.via == Some(u)
    requires t in s.reqs && s.reqs[t].CompleteMultipartUpload? && s.reqs[t].list == list && OneList(s, u, list)
    requires t in Seen(e, ls) && !Seen(e, ls)[t].found
    ensures RepeatsStore(e, s, u, list, s.procs[t].job.body)
  {
    hide RepeatsStore;
    hide OneList;
    ListStillValid(e, ls, s, t, u, list);
    var w := Seen(e, ls)[t].desk;
    RepeatsStoreTheSameIff(e, ls, s, t, u, list);
    hide ProtocolRuns.Reaches;
    if Present(s.core.d, u, list) {
      forall i | 0 <= i < |list| ensures PieceOf(s.core.d, u, list[i]).bytes == PieceOf(w, u, list[i]).bytes {
        assert Lookup(w.files, PartFile(PartId(u, list[i].number))) == Some(s.core.d.files[Source(u, list[i])]);
      }
      SameBytes(PiecesOf(s.core.d, u, list), PiecesOf(w, u, list));
    }
  }
}
