/**
 Which bytes a CompleteMultipartUpload stores. The choice is made where the call asks for
 `final.img`: `Seen` records, beside a run, what each call found there.
 */
module ProtocolContent {
  import opened Wrappers
  import opened Pbs
  import opened ProtocolState
  import opened ProtocolSteps
  import opened ProtocolInv
  import opened ProtocolProof
  import opened ProtocolRuns

  /** The scratch disk when the call looked for `final.img`, and whether the call found it. */
  datatype Look = Look(desk: Desk, found: bool)

  type Looks = map<Tid, Look>

  predicate LooksNow(s: State, l: Label) {
    l.Step? && l.t in s.procs && s.procs[l.t].CoStat?
  }

  function SeeNext(seen: Looks, s: State, l: Label): Looks {
    if !LooksNow(s, l) then seen
    else seen[l.t := Look(s.core.d, l.o.Ok? && Final(s.procs[l.t].upload) in s.core.d.files)]
  }

  /** What each call of the run has found. */
  function Seen(e: Env, ls: seq<Label>): Looks {
    if ls == [] then map[]
    else
      var s := Run(e, INIT, ls[..|ls| - 1]);
      if s.None? then map[] else SeeNext(Seen(e, ls[..|ls| - 1]), s.value, ls[|ls| - 1])
  }

  // ---- What the call is to store ----

  predicate Present(d: Desk, u: UploadId, list: seq<PartRef>) {
    forall i :: 0 <= i < |list| ==> Source(u, list[i]) in d.files
  }

  function PieceOf(d: Desk, u: UploadId, r: PartRef): Piece {
    Piece(r, if Source(u, r) in d.files then d.files[Source(u, r)] else [], PartId(u, r.number) !in d.dirty)
  }

  /** The listed parts, as they stand on the disk. */
  function PiecesOf(d: Desk, u: UploadId, list: seq<PartRef>): (ps: seq<Piece>)
    ensures |ps| == |list| && forall i :: 0 <= i < |list| ==> ps[i] == PieceOf(d, u, list[i])
  {
    seq(|list|, i requires 0 <= i < |list| => PieceOf(d, u, list[i]))
  }

  /** The bytes are those of all the listed parts, in order. */
  predicate Lists(d: Desk, u: UploadId, list: seq<PartRef>, b: Bytes) {
    Present(d, u, list) && b == Cat(PiecesOf(d, u, list))
  }

  /** The bytes of the `final.img` it found, or else of all listed parts in order. */
  predicate Chosen(w: Look, u: UploadId, list: seq<PartRef>, b: Bytes) {
    if w.found then Lookup(w.desk.files, Final(u)) == Some(b)
    else Lists(w.desk, u, list, b)
  }

  // ---- The invariant ----

  /** The upload's parts are as the call saw them, except that files may have been consumed. */
  ghost predicate PartsAsSeen(w: Desk, d: Desk, u: UploadId) {
    && (forall p: PartId :: p.upload == u ==>
          Lookup(d.parts, p) == Lookup(w.parts, p) && (p in d.dirty <==> p in w.dirty))
    && (forall p: PartId :: p.upload == u && PartFile(p) in d.files ==>
          Lookup(w.files, PartFile(p)) == Some(d.files[PartFile(p)]))
  }

  ghost predicate CopiedAsSeen(w: Desk, u: UploadId, list: seq<PartRef>, copied: seq<Piece>) {
    && |copied| <= |list|
    && forall i :: 0 <= i < |copied| ==> Source(u, list[i]) in w.files && copied[i] == PieceOf(w, u, list[i])
  }

  /** The job of a request that is committing and has not written its mapping yet. */
  function JobOf(pc: Pc): Option<Job> {
    match pc
    case Clock(j) => Some(j)
    case WaitGroup(j, _) => Some(j)
    case Backing(j, _, _, _) => Some(j)
    case Ungroup(j, _) => Some(j)
    case RemoveSrc(j, _) => Some(j)
    case Notes(j, _) => Some(j)
    case ReadOld(j, _) => Some(j)
    case WriteMap(j, _, _) => Some(j)
    case _ => None
  }

  /** The call has looked for `final.img` and has not written its mapping yet. */
  predicate HasLooked(pc: Pc) {
    || pc.CoHash? || pc.CoOpen? || pc.CoCopy? || pc.CoConsume?
    || (JobOf(pc).Some? && JobOf(pc).value.via.Some?)
  }

  ghost predicate LookedOk(w: Look, d: Desk, u: UploadId, list: seq<PartRef>, pc: Pc) {
    && PartsAsSeen(w.desk, d, u)
    && (pc.CoHash? ==> w.found && Lookup(d.files, Final(u)) == Lookup(w.desk.files, Final(u)))
    && (pc.CoOpen? ==> !w.found)
    && (pc.CoCopy? || pc.CoConsume? ==> !w.found && CopiedAsSeen(w.desk, u, list, pc.copied))
    && (JobOf(pc).Some? ==> Chosen(w, u, list, JobOf(pc).value.body))
  }

  ghost predicate PcContent(seen: Looks, d: Desk, reqs: map<Tid, Request>, t: Tid, pc: Pc) {
    HasLooked(pc) ==>
      && t in seen && t in reqs && reqs[t].CompleteMultipartUpload? && reqs[t].upload in Claims(pc)
      && LookedOk(seen[t], d, reqs[t].upload, reqs[t].list, pc)
  }

  ghost predicate LooksOk(e: Env, seen: Looks, reqs: map<Tid, Request>) {
    forall t :: t in seen ==>
      && t in reqs && reqs[t].CompleteMultipartUpload?
      && DeskOk(e, seen[t].desk) && ValidList(seen[t].desk.parts, reqs[t].upload, reqs[t].list)
  }

  ghost predicate PutsOk(seen: Looks, log: seq<Effect>, reqs: map<Tid, Request>) {
    forall i :: 0 <= i < |log| && log[i].Put? && log[i].req in reqs && reqs[log[i].req].CompleteMultipartUpload? ==>
      log[i].req in seen && Chosen(seen[log[i].req], reqs[log[i].req].upload, reqs[log[i].req].list, log[i].bytes)
  }

  ghost predicate Content(e: Env, seen: Looks, s: State) {
    && (forall t :: t in s.procs ==> PcContent(seen, s.core.d, s.reqs, t, s.procs[t]))
    && LooksOk(e, seen, s.reqs) && PutsOk(seen, s.core.v.log, s.reqs)
  }

  // ---- Other requests leave it alone ----

  lemma LookedStable(w: Look, d: Desk, f: Desk, u: UploadId, list: seq<PartRef>, pc: Pc)
    requires LookedOk(w, d, u, list, pc) && SameUpload(d, f, u)
    ensures LookedOk(w, f, u, list, pc)
  {
    assert Lookup(d.files, Final(u)) == Lookup(f.files, Final(u));
    forall p: PartId | p.upload == u ensures Lookup(d.files, PartFile(p)) == Lookup(f.files, PartFile(p)) {
      assert UploadOf(PartFile(p)) == Some(u);
    }
  }

  lemma PcContentStable(seen: Looks, d: Desk, f: Desk, reqs: map<Tid, Request>, t: Tid, pc: Pc)
    requires PcContent(seen, d, reqs, t, pc) && forall u :: u in Claims(pc) ==> SameUpload(d, f, u)
    ensures PcContent(seen, f, reqs, t, pc)
  {
    if HasLooked(pc) { LookedStable(seen[t], d, f, reqs[t].upload, reqs[t].list, pc); }
  }

  // ---- The steps of the call itself ----

  lemma LookContent(e: Env, c: Core, t: Tid, pc: Pc, o: Outcome, seen: Looks, reqs: map<Tid, Request>)
    requires DeskOk(e, c.d) && DeskPcOk(e, c.d, t, pc) && pc.CoStat? && t in reqs && Serves(reqs[t], pc)
    requires CompleteStep(c, pc, o).Some? && t in seen
    requires seen[t] == Look(c.d, o.Ok? && Final(pc.upload) in c.d.files)
    ensures var n := CompleteStep(c, pc, o).value; PcContent(seen, n.core.d, reqs, t, n.pc)
  {
    hide ProtocolSteps.ValidList;
    hide ProtocolInv.DeskOk;
  }

  lemma CopyContent(c: Core, pc: Pc, o: Outcome, w: Look, u: UploadId, list: seq<PartRef>)
    requires pc.CoCopy? && o.Ok? && |pc.copied| < |pc.list| && pc.list == list && pc.upload == u
    requires CompleteStep(c, pc, o).Some? && LookedOk(w, c.d, u, list, pc)
    ensures var n := CompleteStep(c, pc, o).value; n.pc.CoConsume? && LookedOk(w, n.core.d, u, list, n.pc)
  {
    var r := list[|pc.copied|];
    assert Source(u, r) in c.d.files;
    assert Lookup(w.desk.files, Source(u, r)) == Some(c.d.files[Source(u, r)]);
  }

  lemma RenameContent(c: Core, pc: Pc, o: Outcome, w: Look, u: UploadId, list: seq<PartRef>)
    requires pc.CoCopy? && o.Ok? && |pc.copied| == |pc.list| && pc.list == list && pc.upload == u
    requires CompleteStep(c, pc, o).Some? && LookedOk(w, c.d, u, list, pc)
    ensures var n := CompleteStep(c, pc, o).value; n.pc.Clock? && LookedOk(w, n.core.d, u, list, n.pc)
  {
    assert pc.copied == PiecesOf(w.desk, u, list);
  }

  lemma ConsumeContent(c: Core, pc: Pc, o: Outcome, w: Look, u: UploadId, list: seq<PartRef>)
    requires pc.CoConsume? && pc.list == list && pc.upload == u
    requires CompleteStep(c, pc, o).Some? && LookedOk(w, c.d, u, list, pc)
    ensures var n := CompleteStep(c, pc, o).value; n.pc.CoCopy? && LookedOk(w, n.core.d, u, list, n.pc)
  {
  }

  lemma OpenContent(c: Core, pc: Pc, o: Outcome, w: Look, u: UploadId, list: seq<PartRef>)
    requires (pc.CoOpen? || pc.CoHash?) && pc.upload == u && (pc.CoOpen? ==> pc.list == list)
    requires CompleteStep(c, pc, o).Some? && LookedOk(w, c.d, u, list, pc)
    ensures var n := CompleteStep(c, pc, o).value; n.pc.RmDir? || LookedOk(w, n.core.d, u, list, n.pc)
  {
  }

  lemma CompleteLooks(c: Core, pc: Pc, o: Outcome)
    requires CompleteStep(c, pc, o).Some? && !pc.CoStat?
    ensures var n := CompleteStep(c, pc, o).value;
      HasLooked(n.pc) ==> (pc.CoHash? || pc.CoOpen? || pc.CoCopy? || pc.CoConsume?) && pc.upload in Claims(n.pc)
  {
    hide ProtocolSteps.ValidList;
    hide ProtocolSteps.WriteFile;
    hide ProtocolSteps.RemoveFile;
    hide ProtocolSteps.Rename;
  }

  lemma CompleteContent(e: Env, c: Core, t: Tid, pc: Pc, o: Outcome, seen: Looks, reqs: map<Tid, Request>)
    requires DeskPcOk(e, c.d, t, pc) && PcContent(seen, c.d, reqs, t, pc)
    requires t in reqs && Serves(reqs[t], pc) && !pc.CoStat? && CompleteStep(c, pc, o).Some?
    ensures var n := CompleteStep(c, pc, o).value; PcContent(seen, n.core.d, reqs, t, n.pc)
  {
    hide LookedOk;
    hide ProtocolSteps.CompleteStep;
    CompleteLooks(c, pc, o);
    if HasLooked(CompleteStep(c, pc, o).value.pc) { StillLooked(e, c, t, pc, o, seen, reqs); }
  }

  lemma StillLooked(e: Env, c: Core, t: Tid, pc: Pc, o: Outcome, seen: Looks, reqs: map<Tid, Request>)
    requires DeskPcOk(e, c.d, t, pc) && PcContent(seen, c.d, reqs, t, pc)
    requires t in reqs && Serves(reqs[t], pc) && CompleteStep(c, pc, o).Some?
    requires pc.CoHash? || pc.CoOpen? || pc.CoCopy? || pc.CoConsume?
    requires HasLooked(CompleteStep(c, pc, o).value.pc)
    ensures var n := CompleteStep(c, pc, o).value; LookedOk(seen[t], n.core.d, reqs[t].upload, reqs[t].list, n.pc)
  {
    hide LookedOk;
    hide ProtocolSteps.ValidList;
    match pc
    case CoHash(_, u) => OpenContent(c, pc, o, seen[t], u, reqs[t].list);
    case CoOpen(_, u, list) => OpenContent(c, pc, o, seen[t], u, list);
    case CoCopy(_, u, list, _, copied) =>
      if |copied| < |list| { CopyContent(c, pc, o, seen[t], u, list); }
      else { RenameContent(c, pc, o, seen[t], u, list); }
    case CoConsume(_, u, list, _, _) => ConsumeContent(c, pc, o, seen[t], u, list);
  }

  lemma CommitLooks(e: Env, c: Core, t: Tid, pc: Pc, o: Outcome)
    requires CommitStep(e, c, t, pc, o).Some?
    ensures var n := CommitStep(e, c, t, pc, o).value;
      HasLooked(n.pc) ==> HasLooked(pc) && JobOf(pc).Some? && JobOf(n.pc) == JobOf(pc) && Claims(n.pc) == Claims(pc)
    ensures var n := CommitStep(e, c, t, pc, o).value;
      HasLooked(n.pc) ==> n.core.d == c.d || n.core.d == RemoveFile(c.d, JobOf(pc).value.file)
  {
    hide ProtocolSteps.RemoveDir;
    hide ProtocolSteps.MaybeDeleteUpload;
    hide ProtocolSteps.RemoveFile;
    CommitOffDesk(e, c, t, pc, o);
  }

  lemma RemovedContent(w: Look, d: Desk, u: UploadId, list: seq<PartRef>, pc: Pc, next: Pc)
    requires LookedOk(w, d, u, list, pc) && JobOf(pc).Some? && JobOf(next) == JobOf(pc)
    ensures LookedOk(w, d, u, list, next) && LookedOk(w, RemoveFile(d, JobOf(pc).value.file), u, list, next)
  {
  }

  lemma CommitContent(e: Env, c: Core, t: Tid, pc: Pc, o: Outcome, seen: Looks, reqs: map<Tid, Request>)
    requires PcContent(seen, c.d, reqs, t, pc) && CommitStep(e, c, t, pc, o).Some?
    ensures var n := CommitStep(e, c, t, pc, o).value; PcContent(seen, n.core.d, reqs, t, n.pc)
  {
    hide LookedOk;
    hide ProtocolSteps.CommitStep;
    hide JobOf;
    CommitLooks(e, c, t, pc, o);
    var n := CommitStep(e, c, t, pc, o).value;
    if HasLooked(n.pc) {
      RemovedContent(seen[t], c.d, reqs[t].upload, reqs[t].list, pc, n.pc);
    }
  }

  lemma OtherLooks(e: Env, c: Core, t: Tid, pc: Pc, o: Outcome)
    ensures DeleteStep(c, t, pc, o).Some? ==> !HasLooked(DeleteStep(c, t, pc, o).value.pc)
    ensures UploadStep(e, c, pc, o).Some? ==> !HasLooked(UploadStep(e, c, pc, o).value.pc)
    ensures GetStep(c, pc, o).Some? ==> !HasLooked(GetStep(c, pc, o).value.pc)
  {
    hide ProtocolSteps.RemoveDir;
    hide ProtocolSteps.MaybeDeleteUpload;
    hide ProtocolSteps.Doom;
    hide ProtocolSteps.PutPart;
    hide ProtocolSteps.OpenPart;
    hide ProtocolSteps.WriteFile;
  }

  /** A step of the request itself. */
  lemma OwnContent(e: Env, c: Core, t: Tid, pc: Pc, o: Outcome, seen: Looks, next: Looks, reqs: map<Tid, Request>)
    requires DeskOk(e, c.d) && DeskPcOk(e, c.d, t, pc) && PcContent(seen, c.d, reqs, t, pc)
    requires t in reqs && Serves(reqs[t], pc) && Local(e, c, t, pc, o).Some?
    requires next == if pc.CoStat? then seen[t := Look(c.d, o.Ok? && Final(pc.upload) in c.d.files)] else seen
    ensures var n := Local(e, c, t, pc, o).value; PcContent(next, n.core.d, reqs, t, n.pc)
  {
    hide PcContent;
    hide ProtocolInv.DeskOk;
    hide ProtocolProof.DeskPcOk;
    hide ProtocolInv.Serves;
    hide HasLooked;
    if CommitStep(e, c, t, pc, o).Some? { CommitContent(e, c, t, pc, o, seen, reqs); }
    else {
      NotLooked(e, c, t, pc, o, next, reqs);
      if CompleteStep(c, pc, o).Some? {
        if pc.CoStat? { LookContent(e, c, t, pc, o, next, reqs); }
        else { CompleteContent(e, c, t, pc, o, seen, reqs); }
      }
    }
  }

  lemma NotLooked(e: Env, c: Core, t: Tid, pc: Pc, o: Outcome, seen: Looks, reqs: map<Tid, Request>)
    requires Local(e, c, t, pc, o).Some? && CommitStep(e, c, t, pc, o).None?
    ensures CompleteStep(c, pc, o).None? ==>
      var n := Local(e, c, t, pc, o).value; PcContent(seen, n.core.d, reqs, t, n.pc)
    ensures CompleteStep(c, pc, o).Some? ==> Local(e, c, t, pc, o) == CompleteStep(c, pc, o)
  {
    OtherLooks(e, c, t, pc, o);
    if CompleteStep(c, pc, o).Some? { CompleteIsLocal(e, c, t, pc, o); }
    hide ProtocolSteps.CommitStep;
    hide ProtocolSteps.DeleteStep;
    hide ProtocolSteps.UploadStep;
    hide ProtocolSteps.CompleteStep;
    hide ProtocolSteps.GetStep;
  }

  // ---- The log ----

  /** A put comes from a mapping write only, with the job's body. */
  lemma PutComesFromJob(e: Env, c: Core, t: Tid, pc: Pc, o: Outcome)
    requires Local(e, c, t, pc, o).Some?
    ensures var log := Local(e, c, t, pc, o).value.core.v.log;
      || log == c.v.log
      || (exists k :: log == c.v.log + [Del(t, k)])
      || (pc.WriteMap? && log == c.v.log + [Put(t, pc.job.key, pc.job.body)])
  {
    if CommitStep(e, c, t, pc, o).Some? { CommitPuts(e, c, t, pc, o); }
    else if DeleteStep(c, t, pc, o).Some? { DeletePuts(c, t, pc, o); }
    else if UploadStep(e, c, pc, o).Some? { UploadVaultPc(e, c, pc, o); }
    else if CompleteStep(c, pc, o).Some? { CompleteVaultPc(e, c, pc, o); }
  }

  lemma CommitPuts(e: Env, c: Core, t: Tid, pc: Pc, o: Outcome)
    requires CommitStep(e, c, t, pc, o).Some?
    ensures var log := CommitStep(e, c, t, pc, o).value.core.v.log;
      log == c.v.log || (pc.WriteMap? && log == c.v.log + [Put(t, pc.job.key, pc.job.body)])
  {
    hide ProtocolSteps.RemoveDir;
    hide ProtocolSteps.MaybeDeleteUpload;
  }

  lemma DeletePuts(c: Core, t: Tid, pc: Pc, o: Outcome)
    requires DeleteStep(c, t, pc, o).Some?
    ensures var log := DeleteStep(c, t, pc, o).value.core.v.log;
      log == c.v.log || log == c.v.log + [Del(t, pc.key)]
  {
    hide ProtocolSteps.RemoveDir;
    hide ProtocolSteps.MaybeDeleteUpload;
  }

  lemma LogContent(seen: Looks, log: seq<Effect>, next: seq<Effect>, reqs: map<Tid, Request>, t: Tid, pc: Pc, d: Desk)
    requires PutsOk(seen, log, reqs) && PcContent(seen, d, reqs, t, pc) && t in reqs && Serves(reqs[t], pc)
    requires || next == log
             || (exists k :: next == log + [Del(t, k)])
             || (pc.WriteMap? && next == log + [Put(t, pc.job.key, pc.job.body)])
    ensures PutsOk(seen, next, reqs)
  {
    assert forall i :: 0 <= i < |log| ==> next[i] == log[i];
    if pc.WriteMap? && next == log + [Put(t, pc.job.key, pc.job.body)] && reqs[t].CompleteMultipartUpload? {
      assert HasLooked(pc);
    }
  }

  /** A call that looks for `final.img` has stored nothing yet. */
  lemma LookKeepsPuts(seen: Looks, log: seq<Effect>, procs: map<Tid, Pc>, reqs: map<Tid, Request>, t: Tid, w: Look)
    requires PutsOk(seen, log, reqs) && LogOk(log, procs, reqs) && t in procs && procs[t].CoStat?
    ensures PutsOk(seen[t := w], log, reqs)
  {
    assert !Logged(log, t);
    assert forall i :: 0 <= i < |log| ==> log[i].req != t;
  }

  // ---- All steps, all runs ----

  lemma OthersContent(e: Env, s: State, n: Core, seen: Looks, t: Tid)
    requires Inv(e, s) && Content(e, seen, s) && t in s.procs && Guarantee(s.core, n, t, KeyHeld(s.procs[t]))
    ensures forall o :: o in s.procs && o != t ==> PcContent(seen, n.d, s.reqs, o, s.procs[o])
  {
    hide PcContent;
    forall o | o in s.procs && o != t ensures PcContent(seen, n.d, s.reqs, o, s.procs[o]) {
      GuaranteeSuffices(s.core, n, t, KeyHeld(s.procs[t]), o, s.procs[o]);
      PcContentStable(seen, s.core.d, n.d, s.reqs, o, s.procs[o]);
    }
  }

  /** What one call finds is nothing to the others. */
  lemma LookIsOwn(seen: Looks, d: Desk, reqs: map<Tid, Request>, o: Tid, pc: Pc, t: Tid, w: Look)
    requires PcContent(seen, d, reqs, o, pc) && o != t
    ensures PcContent(seen[t := w], d, reqs, o, pc)
  {
  }

  lemma NextOthers(e: Env, s: State, n: Core, seen: Looks, t: Tid, o: Outcome)
    requires Inv(e, s) && Content(e, seen, s) && t in s.procs && Guarantee(s.core, n, t, KeyHeld(s.procs[t]))
    ensures var next := SeeNext(seen, s, Step(t, o));
      forall p :: p in s.procs && p != t ==> PcContent(next, n.d, s.reqs, p, s.procs[p])
  {
    OthersContent(e, s, n, seen, t);
    hide PcContent;
    hide ProtocolRuns.Inv;
    var next := SeeNext(seen, s, Step(t, o));
    if LooksNow(s, Step(t, o)) {
      forall p | p in s.procs && p != t ensures PcContent(next, n.d, s.reqs, p, s.procs[p]) {
        LookIsOwn(seen, n.d, s.reqs, p, s.procs[p], t, next[t]);
      }
    }
  }

  lemma NextLooks(e: Env, s: State, seen: Looks, t: Tid, o: Outcome)
    requires Inv(e, s) && Content(e, seen, s) && t in s.procs
    ensures LooksOk(e, SeeNext(seen, s, Step(t, o)), s.reqs)
    ensures PutsOk(SeeNext(seen, s, Step(t, o)), s.core.v.log, s.reqs)
  {
    hide LookedOk;
    hide PcContent;
    hide PutsOk;
    hide ProtocolInv.VaultOk;
    hide ProtocolInv.DeskOk;
    hide ProtocolRuns.Exclusive;
    hide ProtocolRuns.LogOk;
    hide ProtocolRuns.GcOk;
    hide ProtocolSteps.ValidList;
    if s.procs[t].CoStat? {
      assert DeskPcOk(e, s.core.d, t, s.procs[t]) && Serves(s.reqs[t], s.procs[t]);
      var next := SeeNext(seen, s, Step(t, o));
      LookKeepsPuts(seen, s.core.v.log, s.procs, s.reqs, t, next[t]);
    }
  }

  lemma StepContent(e: Env, s: State, t: Tid, o: Outcome, seen: Looks)
    requires Inv(e, s) && Content(e, seen, s) && Apply(e, s, Step(t, o)).Some?
    ensures Content(e, SeeNext(seen, s, Step(t, o)), Apply(e, s, Step(t, o)).value)
  {
    hide PcContent;
    hide PutsOk;
    hide LooksOk;
    hide ProtocolInv.VaultOk;
    hide ProtocolInv.DeskOk;
    hide ProtocolInv.Guarantee;
    hide ProtocolInv.Serves;
    hide ProtocolRuns.Exclusive;
    hide ProtocolRuns.LogOk;
    hide ProtocolRuns.GcOk;
    hide ProtocolSteps.Local;
    var n := Local(e, s.core, t, s.procs[t], o).value;
    StepCoreOk(e, s, t, o, n);
    NextOthers(e, s, n.core, seen, t, o);
    NextLooks(e, s, seen, t, o);
    OwnNext(e, s, t, o, seen);
  }

  lemma OwnNext(e: Env, s: State, t: Tid, o: Outcome, seen: Looks)
    requires Inv(e, s) && Content(e, seen, s) && t in s.procs && Local(e, s.core, t, s.procs[t], o).Some?
    ensures var n := Local(e, s.core, t, s.procs[t], o).value;
      var next := SeeNext(seen, s, Step(t, o));
      PcContent(next, n.core.d, s.reqs, t, n.pc) && PutsOk(next, n.core.v.log, s.reqs)
  {
    hide PcContent;
    hide PutsOk;
    hide LooksOk;
    hide ProtocolInv.VaultOk;
    hide ProtocolInv.DeskOk;
    hide ProtocolInv.Serves;
    hide ProtocolRuns.Exclusive;
    hide ProtocolRuns.LogOk;
    hide ProtocolRuns.GcOk;
    hide ProtocolSteps.Local;
    var pc := s.procs[t];
    var next := SeeNext(seen, s, Step(t, o));
    NextLooks(e, s, seen, t, o);
    OwnContent(e, s.core, t, pc, o, seen, next, s.reqs);
    PutComesFromJob(e, s.core, t, pc, o);
    NextPcContent(e, s, t, o, seen);
    LogContent(next, s.core.v.log, Local(e, s.core, t, pc, o).value.core.v.log, s.reqs, t, pc, s.core.d);
  }

  /** A call that is about to look has not looked. */
  lemma NextPcContent(e: Env, s: State, t: Tid, o: Outcome, seen: Looks)
    requires Content(e, seen, s) && t in s.procs
    ensures PcContent(SeeNext(seen, s, Step(t, o)), s.core.d, s.reqs, t, s.procs[t])
  {
    hide LookedOk;
    hide LooksOk;
    hide PutsOk;
    assert s.procs[t].CoStat? ==> !HasLooked(s.procs[t]);
  }

  lemma AnyContent(e: Env, s: State, l: Label, seen: Looks)
    requires Inv(e, s) && Content(e, seen, s) && Apply(e, s, l).Some?
    ensures Content(e, SeeNext(seen, s, l), Apply(e, s, l).value)
  {
    hide Content;
    hide ProtocolRuns.Inv;
    match l
    case Step(t, o) => StepContent(e, s, t, o, seen);
    case Start(t, r) => StartContent(e, s, t, r, seen);
    case Lock(t) => LockContent(e, s, t, seen);
    case Release(t) => ReleaseContent(e, s, t, seen);
    case Crash => CrashContent(e, s, seen);
    case Sweep(u, dir, rec) => SweepContent(e, s, u, dir, rec, seen);
    case ListDirs => GcContent(e, s, Listed(s.core.d.dirs), seen);
    case ListIds => GcContent(e, s, Apply(e, s, l).value.gc, seen);
    case RemoveOrphan(u, o) => OrphanContent(e, s, u, o, seen);
  }

  lemma GcContent(e: Env, s: State, gc: Gc, seen: Looks)
    requires Content(e, seen, s)
    ensures Content(e, seen, s.(gc := gc))
  {
  }

  lemma OneMovesContent(e: Env, s: State, seen: Looks, t: Tid, pc: Pc)
    requires Content(e, seen, s) && PcContent(seen, s.core.d, s.reqs, t, pc)
    ensures Content(e, seen, Move(s, t, pc))
  {
    hide PcContent;
    hide LooksOk;
    hide PutsOk;
  }

  lemma NewRequestContent(e: Env, s: State, seen: Looks, t: Tid, r: Request)
    requires Inv(e, s) && Content(e, seen, s) && t !in s.reqs
    ensures Content(e, seen, s.(reqs := s.reqs[t := r]))
  {
    hide LookedOk;
    hide ProtocolInv.VaultOk;
    hide ProtocolInv.DeskOk;
    hide ProtocolRuns.AllPcOk;
    hide ProtocolRuns.Exclusive;
    hide ProtocolRuns.GcOk;
  }

  lemma StartContent(e: Env, s: State, t: Tid, r: Request, seen: Looks)
    requires Inv(e, s) && Content(e, seen, s) && Apply(e, s, Start(t, r)).Some?
    ensures Content(e, seen, Apply(e, s, Start(t, r)).value)
  {
    hide ProtocolRuns.Inv;
    hide Content;
    NewRequestContent(e, s, seen, t, r);
    OneMovesContent(e, s.(reqs := s.reqs[t := r]), seen, t, Entry(r, s.core));
  }

  lemma LockContent(e: Env, s: State, t: Tid, seen: Looks)
    requires Inv(e, s) && Content(e, seen, s) && Apply(e, s, Lock(t)).Some?
    ensures Content(e, seen, Apply(e, s, Lock(t)).value)
  {
    hide ProtocolInv.VaultOk;
    hide ProtocolInv.DeskOk;
    hide ProtocolRuns.Exclusive;
    hide ProtocolRuns.LogOk;
    hide ProtocolRuns.GcOk;
    hide PutsOk;
    hide LooksOk;
    hide LookedOk;
    var n := LockStep(e, s, t).value;
    assert DeskPcOk(e, s.core.d, t, s.procs[t]);
    LockLooks(e, s, t, seen);
    OneMovesContent(e, s, seen, t, n.procs[t]);
  }

  lemma LockLooks(e: Env, s: State, t: Tid, seen: Looks)
    requires t in s.procs && DeskPc(e, s.core.d, t, s.procs[t]) && PcContent(seen, s.core.d, s.reqs, t, s.procs[t])
    requires LockStep(e, s, t).Some?
    ensures var n := LockStep(e, s, t).value;
      t in n.procs && n == Move(s, t, n.procs[t]) && PcContent(seen, s.core.d, s.reqs, t, n.procs[t])
  {
  }

  lemma ReleaseContent(e: Env, s: State, t: Tid, seen: Looks)
    requires Content(e, seen, s) && Apply(e, s, Release(t)).Some?
    ensures Content(e, seen, Apply(e, s, Release(t)).value)
  {
    hide Content;
    OneMovesContent(e, s, seen, t, Done(s.procs[t].resp));
  }

  lemma CrashContent(e: Env, s: State, seen: Looks)
    requires Content(e, seen, s)
    ensures Content(e, seen, Apply(e, s, Crash).value)
  {
    assert forall pc: Pc :: Over(pc) ==> !HasLooked(pc);
  }

  /** A change to an upload that nobody claims. */
  lemma UnclaimedContent(e: Env, s: State, u: UploadId, f: Desk, seen: Looks)
    requires Content(e, seen, s) && Elsewhere(s.core.d, f, u)
    requires forall t :: t in s.procs ==> u !in Claims(s.procs[t])
    ensures Content(e, seen, s.(core := s.core.(d := f)))
  {
    hide PcContent;
    forall t | t in s.procs ensures PcContent(seen, f, s.reqs, t, s.procs[t]) {
      PcContentStable(seen, s.core.d, f, s.reqs, t, s.procs[t]);
    }
  }

  lemma SweepContent(e: Env, s: State, u: UploadId, dir: Outcome, rec: Option<Outcome>, seen: Looks)
    requires Content(e, seen, s) && Apply(e, s, Sweep(u, dir, rec)).Some?
    ensures Content(e, seen, Apply(e, s, Sweep(u, dir, rec)).value)
  {
    hide Content;
    var d := RemoveDir(s.core.d, u, dir).value;
    RemoveDirElsewhere(s.core.d, u, dir);
    UnclaimedContent(e, s, u, d, seen);
    if rec.Some? && rec.value.Ok? {
      DeleteUploadElsewhere(d, u);
      UnclaimedContent(e, s.(core := s.core.(d := d)), u, DeleteUpload(d, u), seen);
    }
  }

  lemma OrphanContent(e: Env, s: State, u: UploadId, o: Outcome, seen: Looks)
    requires Inv(e, s) && Content(e, seen, s) && Apply(e, s, RemoveOrphan(u, o)).Some?
    ensures Content(e, seen, Apply(e, s, RemoveOrphan(u, o)).value)
  {
    hide Content;
    NoClaim(e, s, u);
    RemoveDirElsewhere(s.core.d, u, o);
    UnclaimedContent(e, s, u, RemoveDir(s.core.d, u, o).value, seen);
  }

  lemma {:induction false} ReachableContent(e: Env, ls: seq<Label>, s: State)
    requires Reaches(e, ls, s)
    ensures Content(e, Seen(e, ls), s)
    decreases |ls|
  {
    hide Content;
    hide ProtocolRuns.Inv;
    if ls == [] {
      InitContent(e);
    } else {
      var front, l := ls[..|ls| - 1], ls[|ls| - 1];
      assert ls == front + [l];
      RunConcat(e, INIT, front, [l]);
      var m := Run(e, INIT, front).value;
      RunSnoc(e, INIT, front, m, l);
      ReachableInv(e, front, m);
      ReachableContent(e, front, m);
      AnyContent(e, m, l, Seen(e, front));
    }
  }

  lemma InitContent(e: Env)
    ensures Content(e, map[], INIT)
  {
  }

  // ---- What a successful call has stored ----

  lemma StoredOnce(e: Env, s: State, t: Tid) returns (b: Bytes)
    requires Inv(e, s) && t in s.procs && s.procs[t] == Done(Stored)
    ensures t in s.reqs && (s.reqs[t].PutObject? || s.reqs[t].CompleteMultipartUpload?)
    ensures Put(t, s.reqs[t].key, b) in s.core.v.log && (s.reqs[t].PutObject? ==> b == s.reqs[t].body)
    ensures forall x :: x in s.core.v.log && x.req == t ==> x == Put(t, s.reqs[t].key, b)
  {
    hide ProtocolInv.VaultOk;
    hide ProtocolInv.DeskOk;
    hide ProtocolRuns.AllPcOk;
    hide ProtocolRuns.Exclusive;
    hide ProtocolRuns.GcOk;
    assert Serves(s.reqs[t], s.procs[t]) && Logged(s.core.v.log, t);
    var i :| 0 <= i < |s.core.v.log| && s.core.v.log[i].req == t;
    assert EffectFor(s.reqs[t], s.core.v.log[i]);
    b := s.core.v.log[i].bytes;
  }

  lemma StoredIsChosen(e: Env, seen: Looks, s: State, t: Tid, k: ObjKey, b: Bytes)
    requires Content(e, seen, s) && Put(t, k, b) in s.core.v.log && t in s.reqs && s.reqs[t].CompleteMultipartUpload?
    ensures t in seen && Chosen(seen[t], s.reqs[t].upload, s.reqs[t].list, b)
    ensures DeskOk(e, seen[t].desk) && ValidList(seen[t].desk.parts, s.reqs[t].upload, s.reqs[t].list)
  {
    hide ProtocolInv.DeskOk;
    hide ProtocolSteps.ValidList;
    hide PcContent;
    hide Chosen;
    var i :| 0 <= i < |s.core.v.log| && s.core.v.log[i] == Put(t, k, b);
  }

  /**
   A request that reports success took effect exactly once, on its own key: a PutObject with its
   own body, a CompleteMultipartUpload with what it was to store.
   */
  lemma PutTakesEffect(e: Env, ls: seq<Label>, s: State, t: Tid) returns (b: Bytes)
    requires Reaches(e, ls, s) && t in s.procs && s.procs[t] == Done(Stored)
    ensures t in s.reqs && (s.reqs[t].PutObject? || s.reqs[t].CompleteMultipartUpload?)
    ensures Put(t, s.reqs[t].key, b) in s.core.v.log
    ensures forall x :: x in s.core.v.log && x.req == t ==> x == Put(t, s.reqs[t].key, b)
    ensures s.reqs[t].PutObject? ==> b == s.reqs[t].body
    ensures s.reqs[t].CompleteMultipartUpload? ==>
      t in Seen(e, ls) && Chosen(Seen(e, ls)[t], s.reqs[t].upload, s.reqs[t].list, b)
  {
    hide ProtocolRuns.Inv;
    hide Content;
    hide Chosen;
    ReachableInv(e, ls, s);
    ReachableContent(e, ls, s);
    hide ProtocolRuns.Reaches;
    b := StoredOnce(e, s, t);
    if s.reqs[t].CompleteMultipartUpload? { StoredIsChosen(e, Seen(e, ls), s, t, s.reqs[t].key, b); }
  }

  /**
   A CompleteMultipartUpload that reports success has stored, under its own key and exactly
   once, the `final.img` it found; or, when it found none, all its listed parts in order as
   they stood then, with the listed ETag for each part whose last upload was not cut short.
   */
  lemma CompleteStores(e: Env, ls: seq<Label>, s: State, t: Tid) returns (b: Bytes)
    requires Reaches(e, ls, s) && t in s.procs && s.procs[t] == Done(Stored)
    requires t in s.reqs && s.reqs[t].CompleteMultipartUpload?
    ensures Put(t, s.reqs[t].key, b) in s.core.v.log
    ensures forall x :: x in s.core.v.log && x.req == t ==> x == Put(t, s.reqs[t].key, b)
    ensures t in Seen(e, ls)
    ensures var w := Seen(e, ls)[t];
      var u, list := s.reqs[t].upload, s.reqs[t].list;
      && ValidList(w.desk.parts, u, list)
      && (w.found ==> Lookup(w.desk.files, Final(u)) == Some(b))
      && (!w.found ==> Lists(w.desk, u, list, b) && PiecesOk(e, PiecesOf(w.desk, u, list)))
  {
    hide ProtocolRuns.Inv;
    hide Content;
    ReachableInv(e, ls, s);
    ReachableContent(e, ls, s);
    hide ProtocolRuns.Reaches;
    b := StoredOnce(e, s, t);
    StoredIsChosen(e, Seen(e, ls), s, t, s.reqs[t].key, b);
    var w, u, list := Seen(e, ls)[t], s.reqs[t].upload, s.reqs[t].list;
    if Present(w.desk, u, list) { ListedPiecesOk(e, w.desk, u, list); }
  }

  lemma ListedPiecesOk(e: Env, d: Desk, u: UploadId, list: seq<PartRef>)
    requires DeskOk(e, d) && ValidList(d.parts, u, list) && Present(d, u, list)
    ensures PiecesOk(e, PiecesOf(d, u, list))
  {
    forall i | 0 <= i < |list| && PieceOf(d, u, list[i]).sound ensures e.md5(PieceOf(d, u, list[i]).bytes) == list[i].etag {
      assert Lookup(d.parts, PartId(u, list[i].number)) == Some(list[i].etag);
    }
  }

  /**
   Exactly when a successful call has stored its listed parts as they stood: when it found no
   `final.img`, or found one that held just those bytes.
   */
  lemma StoresListedPartsIff(e: Env, ls: seq<Label>, s: State, t: Tid, b: Bytes)
    requires Reaches(e, ls, s) && t in s.procs && s.procs[t] == Done(Stored)
    requires t in s.reqs && s.reqs[t].CompleteMultipartUpload? && Put(t, s.reqs[t].key, b) in s.core.v.log
    ensures t in Seen(e, ls)
    ensures var w := Seen(e, ls)[t];
      var u, list := s.reqs[t].upload, s.reqs[t].list;
      && (w.found ==> Final(u) in w.desk.files)
      && (Lists(w.desk, u, list, b) <==> (w.found ==> Lists(w.desk, u, list, w.desk.files[Final(u)])))
  {
    var stored := CompleteStores(e, ls, s, t);
  }
}
