/**
 What runs leave behind. The commit forgets a superseded snapshot and a completed upload
 loses its record, but neither is tried again when the call fails: `Left` records, beside a
 run, what was given up so. It is all that is ever left behind.
 */
module ProtocolWaste {
  import opened Wrappers
  import opened Pbs
  import opened ProtocolState
  import opened ProtocolSteps
  import opened ProtocolInv
  import opened ProtocolProof
  import opened ProtocolRuns
  import T = ProtocolTheorems

  /** Snapshots nobody will forget any more, and uploads whose record outlived its deletion. */
  datatype Waste = Waste(snapshots: set<Coord>, records: set<UploadId>)

  function NewAt(e: Env, j: Job, time: int): Coord {
    Coord(e.groupOf(j.key), time)
  }

  /** The snapshots that no key points to and that this request still has to map or to forget. */
  function Holds(e: Env, pc: Pc): set<Coord> {
    match pc
    case Ungroup(j, used) => if used.Some? then {NewAt(e, j, used.value)} else {}
    case RemoveSrc(j, time) => {NewAt(e, j, time)}
    case Notes(j, time) => {NewAt(e, j, time)}
    case ReadOld(j, time) => {NewAt(e, j, time)}
    case WriteMap(j, time, _) => {NewAt(e, j, time)}
    case ForgetOld(_, prev, _) => {prev.at}
    case _ => {}
  }

  /**
   The snapshots this request gives up when a call fails: one that PBS made although the
   invocation failed, the new one when its mapping could not be written, the superseded one
   when it could not be forgotten.
   */
  function GivesUp(e: Env, pc: Pc, o: Outcome): set<Coord> {
    if !o.Fail? then {}
    else
      match pc
      case Backing(j, time, _, _) => if o.after then {NewAt(e, j, time)} else {}
      case ReadOld(j, time) => {NewAt(e, j, time)}
      case WriteMap(j, time, _) => {NewAt(e, j, time)}
      case ForgetOld(_, prev, tries) => if o.after || o.kind.Missing? || Retries(o, tries) then {} else {prev.at}
      case _ => {}
  }

  function Spares(pc: Pc, o: Outcome): set<UploadId> {
    if pc.RmRec? && o.Fail? then {pc.upload} else {}
  }

  function LeaveNext(e: Env, w: Waste, s: State, l: Label): Waste {
    match l
    case Step(t, o) =>
      if t !in s.procs then w
      else Waste(w.snapshots + GivesUp(e, s.procs[t], o), w.records + Spares(s.procs[t], o))
    case Crash => w.(snapshots := w.snapshots + (set t, x | t in s.procs && x in Holds(e, s.procs[t]) :: x))
    case _ => w
  }

  /** What the run has left behind. */
  function Left(e: Env, ls: seq<Label>): Waste {
    if ls == [] then Waste({}, {})
    else
      var s := Run(e, INIT, ls[..|ls| - 1]);
      if s.None? then Waste({}, {}) else LeaveNext(e, Left(e, ls[..|ls| - 1]), s.value, ls[|ls| - 1])
  }

  // ---- The invariant ----

  ghost predicate PointedTo(v: Vault, x: Coord) {
    exists k :: k in v.objects && v.objects[k].at == x
  }

  ghost predicate Held(e: Env, procs: map<Tid, Pc>, x: Coord) {
    exists t :: t in procs && x in Holds(e, procs[t])
  }

  ghost predicate Accounted(e: Env, v: Vault, procs: map<Tid, Pc>, lost: set<Coord>) {
    forall x :: x in v.live ==> PointedTo(v, x) || Held(e, procs, x) || x in lost
  }

  ghost predicate LostForGood(e: Env, v: Vault, procs: map<Tid, Pc>, lost: set<Coord>) {
    forall x :: x in lost ==> x in v.made && !PointedTo(v, x) && !Held(e, procs, x)
  }

  predicate HasStored(r: Request, pc: Pc) {
    r.CompleteMultipartUpload? && ((pc.Unlock? && pc.resp.Stored?) || pc == Done(Stored))
  }

  ghost predicate CleanedUp(d: Desk, procs: map<Tid, Pc>, reqs: map<Tid, Request>, spared: set<UploadId>) {
    forall t :: t in procs && t in reqs && HasStored(reqs[t], procs[t]) ==>
      reqs[t].upload in d.ever && (reqs[t].upload !in d.uploads || reqs[t].upload in spared)
  }

  ghost predicate Tidy(e: Env, w: Waste, s: State) {
    && Accounted(e, s.core.v, s.procs, w.snapshots) && LostForGood(e, s.core.v, s.procs, w.snapshots)
    && CleanedUp(s.core.d, s.procs, s.reqs, w.records)
  }

  // ---- One step ----

  /** Live snapshots stay pointed to or held, or are given up. */
  ghost predicate KeepsTrack(e: Env, v: Vault, w: Vault, pc: Pc, next: Pc, gone: set<Coord>) {
    && (forall x :: x in w.live ==> x in v.live || x in Holds(e, next) || x in gone)
    && (forall k :: k in v.objects && v.objects[k].at in w.live ==>
          (k in w.objects && w.objects[k].at == v.objects[k].at) || v.objects[k].at in Holds(e, next))
    && (forall x :: x in Holds(e, pc) && x in w.live ==> PointedTo(w, x) || x in Holds(e, next) || x in gone)
  }

  /** What is given up was the request's own, and what was given up before is not picked up again. */
  ghost predicate PicksUpNothing(e: Env, v: Vault, w: Vault, pc: Pc, next: Pc, gone: set<Coord>) {
    && (forall k :: k in w.objects ==>
          (k in v.objects && v.objects[k].at == w.objects[k].at) || w.objects[k].at in Holds(e, pc))
    && (forall x :: x in Holds(e, next) ==> x in Holds(e, pc) || x !in v.made || PointedTo(v, x))
    && (forall x :: x in gone ==> x in w.made && !PointedTo(w, x) && x !in Holds(e, next))
    && (forall x :: x in gone ==> x in Holds(e, pc) || x !in v.made)
  }

  ghost predicate Tracks(e: Env, v: Vault, w: Vault, pc: Pc, next: Pc, gone: set<Coord>) {
    KeepsTrack(e, v, w, pc, next, gone) && PicksUpNothing(e, v, w, pc, next, gone)
  }

  /** Nothing but snapshots going, and no hold gained or lost. */
  lemma OnlyLess(e: Env, v: Vault, w: Vault, pc: Pc, next: Pc)
    requires Holds(e, next) == Holds(e, pc) && w.objects == v.objects && w.live.Keys <= v.live.Keys
    ensures Tracks(e, v, w, pc, next, {})
  {
    forall k | k in v.objects ensures PointedTo(v, v.objects[k].at) {}
  }

  /** What a request holds was made for the key it has locked, and no key points to it. */
  lemma HoldsItsOwn(e: Env, v: Vault, pc: Pc, x: Coord)
    requires VaultOk(e, v) && VaultPc(e, v, pc) && x in Holds(e, pc)
    ensures x in v.made && KeyHeld(pc) == Some(v.made[x].key) && !PointedTo(v, x)
  {
    hide ProtocolInv.SnapshotsOk;
    hide ProtocolInv.DoomedOk;
    assert x in v.made && KeyHeld(pc) == Some(v.made[x].key);
    forall k | k in v.objects ensures v.objects[k].at != x {
      assert MappingOk(e, v, k, v.objects[k]);
    }
  }

  lemma AllGivenUp(e: Env, v: Vault, pc: Pc, next: Pc)
    requires VaultOk(e, v) && VaultPc(e, v, pc) && Holds(e, next) == {}
    ensures Tracks(e, v, v, pc, next, Holds(e, pc))
  {
    hide KeepsTrack;
    hide PicksUpNothing;
    hide ProtocolInv.VaultOk;
    hide ProtocolInv.VaultPc;
    hide Holds;
    GivenUpIsTracked(e, v, pc, next);
    forall x | x in Holds(e, pc) ensures x in v.made && !PointedTo(v, x) { HoldsItsOwn(e, v, pc, x); }
    GivenUpIsOwn(e, v, pc, next);
  }

  lemma GivenUpIsTracked(e: Env, v: Vault, pc: Pc, next: Pc)
    ensures KeepsTrack(e, v, v, pc, next, Holds(e, pc))
  {
    hide Holds;
  }

  lemma GivenUpIsOwn(e: Env, v: Vault, pc: Pc, next: Pc)
    requires Holds(e, next) == {} && forall x :: x in Holds(e, pc) ==> x in v.made && !PointedTo(v, x)
    ensures PicksUpNothing(e, v, v, pc, next, Holds(e, pc))
  {
    hide Holds;
  }

  /** What PBS accepts is new: nothing was ever made there, and no key points there. */
  lemma NotMadeYet(e: Env, v: Vault, x: Coord)
    requires VaultOk(e, v) && Accepts(v.high, x)
    ensures x !in v.made && x !in v.live
    ensures forall w: Vault :: w.objects == v.objects ==> !PointedTo(w, x)
  {
    hide ProtocolInv.DoomedOk;
    forall k | k in v.objects ensures v.objects[k].at != x {
      assert MappingOk(e, v, k, v.objects[k]);
    }
  }

  /** A new snapshot, held by its request or given up at once. */
  lemma OneMade(e: Env, v: Vault, x: Coord, b: Bytes, k: ObjKey, pc: Pc, next: Pc, gone: set<Coord>)
    requires VaultOk(e, v) && Accepts(v.high, x) && Holds(e, pc) == {} && Holds(e, next) + gone == {x}
    requires x !in gone || x !in Holds(e, next)
    ensures Tracks(e, v, Accept(v, x, b, k), pc, next, gone)
  {
    hide KeepsTrack;
    hide PicksUpNothing;
    hide PointedTo;
    hide ProtocolInv.VaultOk;
    hide Holds;
    hide ProtocolSteps.Accept;
    NotMadeYet(e, v, x);
    assert Accept(v, x, b, k).objects == v.objects by { MadeIsTracked(e, v, x, b, k, pc, next, gone); }
    MadeIsTracked(e, v, x, b, k, pc, next, gone);
    MadeIsOwn(e, v, x, b, k, pc, next, gone);
  }

  lemma MadeIsTracked(e: Env, v: Vault, x: Coord, b: Bytes, k: ObjKey, pc: Pc, next: Pc, gone: set<Coord>)
    requires x !in v.made && Holds(e, pc) == {} && Holds(e, next) + gone == {x}
    ensures KeepsTrack(e, v, Accept(v, x, b, k), pc, next, gone) && Accept(v, x, b, k).objects == v.objects
  {
    hide Holds;
    assert x in Holds(e, next) + gone;
  }

  lemma MadeIsOwn(e: Env, v: Vault, x: Coord, b: Bytes, k: ObjKey, pc: Pc, next: Pc, gone: set<Coord>)
    requires x !in v.made && !PointedTo(Accept(v, x, b, k), x)
    requires Holds(e, next) <= {x} && gone <= {x} && (x !in gone || x !in Holds(e, next))
    ensures PicksUpNothing(e, v, Accept(v, x, b, k), pc, next, gone)
  {
    hide Holds;
  }

  lemma BackingMoves(e: Env, c: Core, t: Tid, pc: Pc, o: Outcome)
    requires pc.Backing? && CommitStep(e, c, t, pc, o).Some?
    ensures var n := CommitStep(e, c, t, pc, o).value;
      var x := NewAt(e, pc.job, pc.time);
      && Holds(e, pc) == {}
      && (o.Ok? ==> Holds(e, n.pc) == {x}) && (!o.Ok? ==> Holds(e, n.pc) == {})
      && GivesUp(e, pc, o) == if o.Fail? && o.after then {x} else {}
    ensures var n := CommitStep(e, c, t, pc, o).value;
      var x := NewAt(e, pc.job, pc.time);
      if o.Ok? || (o.Fail? && o.after) then
        && Accepts(c.v.high, x) && pc.job.file in c.d.files
        && n.core.v == Accept(c.v, x, c.d.files[pc.job.file], pc.job.key)
      else n.core.v == c.v
  {
    hide ProtocolSteps.Accept;
    hide ProtocolSteps.RemoveDir;
    hide ProtocolSteps.MaybeDeleteUpload;
  }

  lemma BackingTracks(e: Env, c: Core, t: Tid, pc: Pc, o: Outcome)
    requires VaultOk(e, c.v) && pc.Backing? && CommitStep(e, c, t, pc, o).Some?
    ensures var n := CommitStep(e, c, t, pc, o).value; Tracks(e, c.v, n.core.v, pc, n.pc, GivesUp(e, pc, o))
  {
    hide ProtocolInv.VaultOk;
    hide Tracks;
    hide ProtocolSteps.CommitStep;
    hide ProtocolSteps.Accept;
    hide Holds;
    hide GivesUp;
    BackingMoves(e, c, t, pc, o);
    var n := CommitStep(e, c, t, pc, o).value;
    if o.Ok? || (o.Fail? && o.after) {
      OneMade(e, c.v, NewAt(e, pc.job, pc.time), c.d.files[pc.job.file], pc.job.key, pc, n.pc, GivesUp(e, pc, o));
    } else {
      OnlyLess(e, c.v, c.v, pc, n.pc);
    }
  }

  /** The steps that carry the new snapshot to its mapping. */
  predicate Carries(pc: Pc) {
    pc.Ungroup? || pc.RemoveSrc? || pc.Notes? || pc.ReadOld?
  }

  lemma CarryingMoves(e: Env, c: Core, t: Tid, pc: Pc, o: Outcome)
    requires CommitStep(e, c, t, pc, o).Some? && (Carries(pc) || (pc.WriteMap? && !o.Ok?))
    ensures var n := CommitStep(e, c, t, pc, o).value;
      && n.core.v == c.v
      && if GivesUp(e, pc, o) == {} then Holds(e, n.pc) == Holds(e, pc)
         else Holds(e, n.pc) == {} && GivesUp(e, pc, o) == Holds(e, pc)
  {
    hide ProtocolSteps.RemoveDir;
    hide ProtocolSteps.MaybeDeleteUpload;
    hide ProtocolSteps.RemoveFile;
  }

  lemma CarryingTracks(e: Env, c: Core, t: Tid, pc: Pc, o: Outcome)
    requires CommitStep(e, c, t, pc, o).Some? && (Carries(pc) || (pc.WriteMap? && !o.Ok?))
    requires VaultOk(e, c.v) && VaultPc(e, c.v, pc)
    ensures var n := CommitStep(e, c, t, pc, o).value; Tracks(e, c.v, n.core.v, pc, n.pc, GivesUp(e, pc, o))
  {
    hide ProtocolInv.VaultOk;
    hide ProtocolInv.VaultPc;
    hide Tracks;
    hide ProtocolSteps.CommitStep;
    hide Holds;
    hide GivesUp;
    CarryingMoves(e, c, t, pc, o);
    var n := CommitStep(e, c, t, pc, o).value;
    if GivesUp(e, pc, o) == {} { OnlyLess(e, c.v, c.v, pc, n.pc); }
    else { AllGivenUp(e, c.v, pc, n.pc); }
  }

  lemma MappingMoves(e: Env, c: Core, t: Tid, pc: Pc, o: Outcome)
    requires CommitStep(e, c, t, pc, o).Some? && pc.WriteMap? && o.Ok?
    ensures var n := CommitStep(e, c, t, pc, o).value;
      && n.core.v == PutMapping(e, c.v, t, pc.job, pc.time) && GivesUp(e, pc, o) == {}
      && Holds(e, pc) == {NewAt(e, pc.job, pc.time)}
      && Holds(e, n.pc) == if pc.seen.Some? then {pc.seen.value.at} else {}
  {
    hide ProtocolSteps.PutMapping;
    hide ProtocolSteps.RemoveDir;
    hide ProtocolSteps.MaybeDeleteUpload;
  }

  lemma MappingTracks(e: Env, c: Core, t: Tid, pc: Pc, o: Outcome)
    requires VaultPc(e, c.v, pc) && CommitStep(e, c, t, pc, o).Some? && pc.WriteMap? && o.Ok?
    ensures var n := CommitStep(e, c, t, pc, o).value; Tracks(e, c.v, n.core.v, pc, n.pc, GivesUp(e, pc, o))
  {
    hide ProtocolInv.VaultOk;
    hide ProtocolSteps.CommitStep;
    hide Holds;
    hide GivesUp;
    MappingMoves(e, c, t, pc, o);
    var w := CommitStep(e, c, t, pc, o).value.core.v;
    assert w.objects[pc.job.key].at == NewAt(e, pc.job, pc.time) && PointedTo(w, NewAt(e, pc.job, pc.time));
    forall k | k in c.v.objects ensures PointedTo(c.v, c.v.objects[k].at) {}
  }

  lemma ForgettingMoves(e: Env, c: Core, t: Tid, pc: Pc, o: Outcome)
    requires CommitStep(e, c, t, pc, o).Some? && pc.ForgetOld?
    ensures var n := CommitStep(e, c, t, pc, o).value;
      && Forget(c.v, pc.prev.at, o) == Some(n.core.v) && Holds(e, pc) == {pc.prev.at}
      && Holds(e, n.pc) == (if Retries(o, pc.tries) then {pc.prev.at} else {})
      && GivesUp(e, pc, o)
         == if o.Fail? && !o.after && !o.kind.Missing? && !Retries(o, pc.tries) then {pc.prev.at} else {}
  {
    hide ProtocolSteps.Forget;
    hide ProtocolSteps.RemoveDir;
    hide ProtocolSteps.MaybeDeleteUpload;
  }

  lemma ForgetLeaves(v: Vault, x: Coord, o: Outcome)
    requires Forget(v, x, o).Some?
    ensures var w := Forget(v, x, o).value; w == v.(live := w.live) && w.live.Keys <= v.live.Keys
    ensures o.Ok? || (o.Fail? && (o.after || o.kind.Missing?)) ==> x !in Forget(v, x, o).value.live
    ensures o.Ok? || o.Fail?
  {
  }

  lemma ForgettingTracks(e: Env, c: Core, t: Tid, pc: Pc, o: Outcome)
    requires VaultOk(e, c.v) && VaultPc(e, c.v, pc) && CommitStep(e, c, t, pc, o).Some? && pc.ForgetOld?
    ensures var n := CommitStep(e, c, t, pc, o).value; Tracks(e, c.v, n.core.v, pc, n.pc, GivesUp(e, pc, o))
  {
    hide ProtocolInv.VaultOk;
    hide ProtocolInv.VaultPc;
    hide ProtocolSteps.CommitStep;
    hide ProtocolSteps.Forget;
    hide Holds;
    hide GivesUp;
    ForgettingMoves(e, c, t, pc, o);
    ForgetLeaves(c.v, pc.prev.at, o);
    HoldsItsOwn(e, c.v, pc, pc.prev.at);
    var w := CommitStep(e, c, t, pc, o).value.core.v;
    forall k | k in c.v.objects ensures PointedTo(c.v, c.v.objects[k].at) {}
    assert !PointedTo(w, pc.prev.at);
  }

  predicate Handles(pc: Pc) {
    pc.Backing? || Carries(pc) || pc.WriteMap? || pc.ForgetOld?
  }

  lemma CommitTracks(e: Env, c: Core, t: Tid, pc: Pc, o: Outcome)
    requires VaultOk(e, c.v) && VaultPc(e, c.v, pc) && CommitStep(e, c, t, pc, o).Some?
    ensures var n := CommitStep(e, c, t, pc, o).value; Tracks(e, c.v, n.core.v, pc, n.pc, GivesUp(e, pc, o))
  {
    hide ProtocolInv.VaultOk;
    hide ProtocolInv.VaultPc;
    hide Tracks;
    if pc.Backing? { BackingTracks(e, c, t, pc, o); }
    else if pc.WriteMap? && o.Ok? { MappingTracks(e, c, t, pc, o); }
    else if pc.ForgetOld? { ForgettingTracks(e, c, t, pc, o); }
    else if Handles(pc) { CarryingTracks(e, c, t, pc, o); }
    else { OtherCommitTracks(e, c, t, pc, o); }
    hide ProtocolSteps.CommitStep;
  }

  lemma OtherCommitTracks(e: Env, c: Core, t: Tid, pc: Pc, o: Outcome)
    requires CommitStep(e, c, t, pc, o).Some? && !Handles(pc)
    ensures var n := CommitStep(e, c, t, pc, o).value; Tracks(e, c.v, n.core.v, pc, n.pc, GivesUp(e, pc, o))
  {
    hide Tracks;
    hide ProtocolSteps.RemoveDir;
    hide ProtocolSteps.MaybeDeleteUpload;
    var n := CommitStep(e, c, t, pc, o).value;
    OnlyLess(e, c.v, c.v, pc, n.pc);
  }

  lemma DeleteMoves(e: Env, c: Core, t: Tid, pc: Pc, o: Outcome)
    requires DeleteStep(c, t, pc, o).Some?
    ensures var n := DeleteStep(c, t, pc, o).value;
      && Holds(e, pc) == {} && Holds(e, n.pc) == {} && GivesUp(e, pc, o) == {}
      && if pc.DelUnmap? && o.Ok? && pc.key in c.v.objects then n.core.v == DeleteMapping(c.v, t, pc.key)
         else n.core.v.objects == c.v.objects && n.core.v.live.Keys <= c.v.live.Keys
  {
    hide ProtocolSteps.RemoveDir;
    hide ProtocolSteps.MaybeDeleteUpload;
    hide ProtocolSteps.Matching;
  }

  lemma DeleteTracks(e: Env, c: Core, t: Tid, pc: Pc, o: Outcome)
    requires VaultPc(e, c.v, pc) && DeleteStep(c, t, pc, o).Some?
    ensures var n := DeleteStep(c, t, pc, o).value; Tracks(e, c.v, n.core.v, pc, n.pc, GivesUp(e, pc, o))
  {
    hide ProtocolSteps.DeleteStep;
    hide Holds;
    hide GivesUp;
    DeleteMoves(e, c, t, pc, o);
    var n := DeleteStep(c, t, pc, o).value;
    if pc.DelUnmap? && o.Ok? && pc.key in c.v.objects {
      forall k | k in c.v.objects ensures PointedTo(c.v, c.v.objects[k].at) {}
    } else {
      hide Tracks;
      OnlyLess(e, c.v, n.core.v, pc, n.pc);
    }
  }

  lemma UploadHolds(e: Env, c: Core, pc: Pc, o: Outcome)
    requires UploadStep(e, c, pc, o).Some?
    ensures var n := UploadStep(e, c, pc, o).value;
      n.core.v == c.v && Holds(e, pc) == {} && Holds(e, n.pc) == {} && GivesUp(e, pc, o) == {}
  {
    hide ProtocolSteps.RemoveDir;
    hide ProtocolSteps.MaybeDeleteUpload;
    hide ProtocolSteps.WriteFile;
    hide ProtocolSteps.RemoveFile;
    hide ProtocolSteps.OpenPart;
    hide ProtocolSteps.PutPart;
    hide ProtocolSteps.NewUpload;
    hide ProtocolSteps.MkDir;
  }

  lemma CompleteHolds(e: Env, c: Core, pc: Pc, o: Outcome)
    requires CompleteStep(c, pc, o).Some?
    ensures var n := CompleteStep(c, pc, o).value;
      n.core.v == c.v && Holds(e, pc) == {} && Holds(e, n.pc) == {} && GivesUp(e, pc, o) == {}
  {
    hide ProtocolSteps.ValidList;
    hide ProtocolSteps.WriteFile;
    hide ProtocolSteps.RemoveFile;
    hide ProtocolSteps.Rename;
    hide ProtocolSteps.MkDir;
  }

  lemma GetHolds(e: Env, c: Core, pc: Pc, o: Outcome)
    requires GetStep(c, pc, o).Some?
    ensures var n := GetStep(c, pc, o).value;
      n.core == c && Holds(e, pc) == {} && Holds(e, n.pc) == {} && GivesUp(e, pc, o) == {}
  {
  }

  lemma LocalTracks(e: Env, c: Core, t: Tid, pc: Pc, o: Outcome)
    requires VaultOk(e, c.v) && VaultPc(e, c.v, pc) && Local(e, c, t, pc, o).Some?
    ensures var n := Local(e, c, t, pc, o).value; Tracks(e, c.v, n.core.v, pc, n.pc, GivesUp(e, pc, o))
  {
    hide Tracks;
    hide ProtocolInv.VaultOk;
    hide ProtocolInv.VaultPc;
    hide Holds;
    hide GivesUp;
    var v := c.v;
    var n := Local(e, c, t, pc, o).value;
    if CommitStep(e, c, t, pc, o).Some? { CommitTracks(e, c, t, pc, o); }
    else if DeleteStep(c, t, pc, o).Some? { DeleteTracks(e, c, t, pc, o); }
    else {
      if UploadStep(e, c, pc, o).Some? { UploadHolds(e, c, pc, o); }
      else if CompleteStep(c, pc, o).Some? { CompleteHolds(e, c, pc, o); }
      else { GetHolds(e, c, pc, o); }
      hide ProtocolSteps.CommitStep;
      hide ProtocolSteps.DeleteStep;
      hide ProtocolSteps.UploadStep;
      hide ProtocolSteps.CompleteStep;
      hide ProtocolSteps.GetStep;
      OnlyLess(e, v, v, pc, n.pc);
    }
  }

  // ---- All requests ----

  lemma InvAt(e: Env, s: State, t: Tid)
    requires Inv(e, s) && t in s.procs
    ensures VaultOk(e, s.core.v) && VaultPc(e, s.core.v, s.procs[t]) && DeskPcOk(e, s.core.d, t, s.procs[t])
  {
  }

  /** What another request holds is none of this one's. */
  lemma OthersHold(e: Env, s: State, t: Tid, o: Tid, x: Coord)
    requires Inv(e, s) && t in s.procs && o in s.procs && t != o && x in Holds(e, s.procs[o])
    ensures x in s.core.v.made && x !in Holds(e, s.procs[t]) && !PointedTo(s.core.v, x)
  {
    hide PointedTo;
    hide Holds;
    hide ProtocolInv.VaultOk;
    hide ProtocolInv.DeskOk;
    hide ProtocolInv.VaultPc;
    hide ProtocolProof.DeskPcOk;
    hide ProtocolRuns.LogOk;
    hide ProtocolRuns.GcOk;
    hide ProtocolRuns.ServesAll;
    HoldsItsOwn(e, s.core.v, s.procs[o], x);
    if x in Holds(e, s.procs[t]) { HoldsItsOwn(e, s.core.v, s.procs[t], x); }
  }

  lemma StepAccounts(e: Env, v: Vault, w: Vault, procs: map<Tid, Pc>, t: Tid, next: Pc, lost: set<Coord>,
      gone: set<Coord>)
    requires Accounted(e, v, procs, lost) && t in procs && KeepsTrack(e, v, w, procs[t], next, gone)
    ensures Accounted(e, w, procs[t := next], lost + gone)
  {
    hide Holds;
    var after := procs[t := next];
    forall x | x in w.live && x !in lost + gone ensures PointedTo(w, x) || Held(e, after, x) {
      if x in Holds(e, next) {
        assert after[t] == next;
      } else if PointedTo(v, x) {
        var k :| k in v.objects && v.objects[k].at == x;
        assert k in w.objects && w.objects[k].at == x;
      } else {
        var o :| o in procs && x in Holds(e, procs[o]);
        if o != t { assert after[o] == procs[o]; }
      }
    }
  }

  lemma StepLoses(e: Env, s: State, w: Vault, t: Tid, next: Pc, lost: set<Coord>, gone: set<Coord>)
    requires Inv(e, s) && LostForGood(e, s.core.v, s.procs, lost) && t in s.procs && VaultGrows(s.core.v, w)
    requires PicksUpNothing(e, s.core.v, w, s.procs[t], next, gone)
    ensures LostForGood(e, w, s.procs[t := next], lost + gone)
  {
    hide Holds;
    hide ProtocolRuns.Inv;
    var after := s.procs[t := next];
    forall x | x in lost + gone ensures x in w.made && !PointedTo(w, x) && !Held(e, after, x) {
      if Held(e, after, x) {
        var o :| o in after && x in Holds(e, after[o]);
        if o != t { OthersHold(e, s, t, o, x); }
      }
    }
  }

  /** Only the deletion of the record leads a CompleteMultipartUpload to its Stored. */
  lemma CommitStores(r: Request, e: Env, c: Core, t: Tid, pc: Pc, o: Outcome)
    requires Serves(r, pc) && CommitStep(e, c, t, pc, o).Some?
    requires HasStored(r, CommitStep(e, c, t, pc, o).value.pc)
    ensures pc.RmRec? && r.upload == pc.upload
    ensures MaybeDeleteUpload(c.d, pc.upload, o) == Some(CommitStep(e, c, t, pc, o).value.core.d)
  {
    hide ProtocolSteps.RemoveDir;
    hide ProtocolSteps.MaybeDeleteUpload;
    hide ProtocolSteps.RemoveFile;
  }

  lemma OthersDoNotStore(r: Request, e: Env, c: Core, t: Tid, pc: Pc, o: Outcome)
    requires Serves(r, pc)
    ensures DeleteStep(c, t, pc, o).Some? ==> !HasStored(r, DeleteStep(c, t, pc, o).value.pc)
    ensures UploadStep(e, c, pc, o).Some? ==> !HasStored(r, UploadStep(e, c, pc, o).value.pc)
    ensures GetStep(c, pc, o).Some? ==> !HasStored(r, GetStep(c, pc, o).value.pc)
  {
    hide ProtocolSteps.RemoveDir;
    hide ProtocolSteps.MaybeDeleteUpload;
    hide ProtocolSteps.Doom;
    hide ProtocolSteps.PutPart;
    hide ProtocolSteps.OpenPart;
    hide ProtocolSteps.WriteFile;
  }

  lemma CompleteDoesNotStore(r: Request, c: Core, pc: Pc, o: Outcome)
    requires CompleteStep(c, pc, o).Some?
    ensures !HasStored(r, CompleteStep(c, pc, o).value.pc)
  {
    hide ProtocolSteps.ValidList;
    hide ProtocolSteps.WriteFile;
    hide ProtocolSteps.RemoveFile;
    hide ProtocolSteps.Rename;
    hide ProtocolSteps.MkDir;
  }

  /** A request that comes to its Stored has had its upload's record deleted, or the deletion failed. */
  lemma StoresClean(e: Env, s: State, t: Tid, o: Outcome)
    requires Inv(e, s) && t in s.procs && Local(e, s.core, t, s.procs[t], o).Some?
    ensures var n := Local(e, s.core, t, s.procs[t], o).value;
      HasStored(s.reqs[t], n.pc) ==>
        var u := s.reqs[t].upload;
        u in s.core.d.ever && (u !in n.core.d.uploads || u in Spares(s.procs[t], o))
  {
    hide ProtocolInv.VaultOk;
    hide ProtocolInv.VaultPc;
    hide ProtocolRuns.LogOk;
    hide ProtocolRuns.GcOk;
    hide ProtocolRuns.Exclusive;
    hide ProtocolInv.DeskPc;
    hide HasStored;
    var r, pc := s.reqs[t], s.procs[t];
    assert Serves(r, pc);
    OthersDoNotStore(r, e, s.core, t, pc, o);
    if CompleteStep(s.core, pc, o).Some? { CompleteDoesNotStore(r, s.core, pc, o); }
    hide ProtocolInv.Serves;
    hide ProtocolSteps.DeleteStep;
    hide ProtocolSteps.UploadStep;
    hide ProtocolSteps.CompleteStep;
    hide ProtocolSteps.GetStep;
    if CommitStep(e, s.core, t, pc, o).Some? && HasStored(r, CommitStep(e, s.core, t, pc, o).value.pc) {
      CommitStores(r, e, s.core, t, pc, o);
      assert DeskPcOk(e, s.core.d, t, pc) && pc.upload in Claims(pc);
    }
    hide ProtocolSteps.CommitStep;
  }

  lemma StepCleans(e: Env, s: State, w: Waste, t: Tid, o: Outcome)
    requires Inv(e, s) && Apply(e, s, Step(t, o)).Some? && CleanedUp(s.core.d, s.procs, s.reqs, w.records)
    ensures var n := Apply(e, s, Step(t, o)).value;
      CleanedUp(n.core.d, n.procs, n.reqs, LeaveNext(e, w, s, Step(t, o)).records)
  {
    hide ProtocolRuns.Inv;
    hide ProtocolInv.VaultGuarantee;
    hide HasStored;
    hide ProtocolSteps.Local;
    StoresClean(e, s, t, o);
    StepMoves(e, s, t, o);
  }

  lemma StepMoves(e: Env, s: State, t: Tid, o: Outcome)
    requires Inv(e, s) && t in s.procs && Local(e, s.core, t, s.procs[t], o).Some?
    ensures Guarantee(s.core, Local(e, s.core, t, s.procs[t], o).value.core, t, KeyHeld(s.procs[t]))
    ensures VaultOk(e, s.core.v) && VaultPc(e, s.core.v, s.procs[t])
  {
    hide ProtocolInv.VaultOk;
    hide ProtocolInv.DeskOk;
    hide ProtocolInv.VaultPc;
    hide ProtocolProof.DeskPcOk;
    hide ProtocolInv.Guarantee;
    hide ProtocolSteps.Local;
    StepCoreOk(e, s, t, o, Local(e, s.core, t, s.procs[t], o).value);
  }

  lemma StepTidy(e: Env, s: State, w: Waste, t: Tid, o: Outcome)
    requires Inv(e, s) && Tidy(e, w, s) && Apply(e, s, Step(t, o)).Some?
    ensures Tidy(e, LeaveNext(e, w, s, Step(t, o)), Apply(e, s, Step(t, o)).value)
  {
    hide ProtocolRuns.Inv;
    hide Accounted;
    hide LostForGood;
    hide KeepsTrack;
    hide PicksUpNothing;
    hide ProtocolInv.DeskGuarantee;
    hide ProtocolInv.VaultOk;
    hide ProtocolInv.VaultPc;
    hide ProtocolSteps.Local;
    var pc := s.procs[t];
    var n := Local(e, s.core, t, pc, o).value;
    var gone := GivesUp(e, pc, o);
    StepCleans(e, s, w, t, o);
    hide CleanedUp;
    StepMoves(e, s, t, o);
    LocalTracks(e, s.core, t, pc, o);
    StepAccounts(e, s.core.v, n.core.v, s.procs, t, n.pc, w.snapshots, gone);
    StepLoses(e, s, n.core.v, t, n.pc, w.snapshots, gone);
  }

  /** A request moves on without touching anything. */
  lemma OneMovesTidy(e: Env, s: State, w: Waste, t: Tid, pc: Pc, reqs: map<Tid, Request>)
    requires Tidy(e, w, s) && Holds(e, pc) == if t in s.procs then Holds(e, s.procs[t]) else {}
    requires forall o :: o in s.procs && o != t && o in reqs ==> o in s.reqs && reqs[o] == s.reqs[o]
    requires t in reqs && HasStored(reqs[t], pc) ==>
      t in s.procs && t in s.reqs && HasStored(s.reqs[t], s.procs[t]) && s.reqs[t] == reqs[t]
    ensures Tidy(e, w, s.(procs := s.procs[t := pc], reqs := reqs))
  {
    hide Holds;
    hide HasStored;
    var after := s.procs[t := pc];
    forall x ensures Held(e, s.procs, x) <==> Held(e, after, x) {
      if Held(e, s.procs, x) {
        var o :| o in s.procs && x in Holds(e, s.procs[o]);
        assert o in after && x in Holds(e, after[o]);
      }
      if Held(e, after, x) {
        var o :| o in after && x in Holds(e, after[o]);
        assert o in s.procs && x in Holds(e, s.procs[o]);
      }
    }
  }

  lemma StartTidy(e: Env, s: State, w: Waste, t: Tid, r: Request)
    requires Tidy(e, w, s) && Apply(e, s, Start(t, r)).Some?
    ensures Tidy(e, w, Apply(e, s, Start(t, r)).value)
  {
    hide Tidy;
    OneMovesTidy(e, s, w, t, Entry(r, s.core), s.reqs[t := r]);
  }

  lemma LockTidy(e: Env, s: State, w: Waste, t: Tid)
    requires Inv(e, s) && Tidy(e, w, s) && Apply(e, s, Lock(t)).Some?
    ensures Tidy(e, w, Apply(e, s, Lock(t)).value)
  {
    hide Tidy;
    hide ProtocolInv.VaultOk;
    hide ProtocolInv.DeskOk;
    hide ProtocolRuns.Exclusive;
    hide ProtocolRuns.LogOk;
    hide ProtocolRuns.GcOk;
    hide ProtocolRuns.ServesAll;
    hide ProtocolInv.VaultPc;
    var n := LockStep(e, s, t).value;
    assert DeskPcOk(e, s.core.d, t, s.procs[t]);
    LockHolds(e, s, t);
    OneMovesTidy(e, s, w, t, n.procs[t], s.reqs);
  }

  lemma LockHolds(e: Env, s: State, t: Tid)
    requires t in s.procs && LockStep(e, s, t).Some? && DeskPc(e, s.core.d, t, s.procs[t])
    ensures var n := LockStep(e, s, t).value;
      && t in n.procs && n == Move(s, t, n.procs[t])
      && Holds(e, n.procs[t]) == Holds(e, s.procs[t]) && !n.procs[t].Unlock? && !n.procs[t].Done?
  {
  }

  lemma ReleaseTidy(e: Env, s: State, w: Waste, t: Tid)
    requires Tidy(e, w, s) && Apply(e, s, Release(t)).Some?
    ensures Tidy(e, w, Apply(e, s, Release(t)).value)
  {
    hide Tidy;
    OneMovesTidy(e, s, w, t, Done(s.procs[t].resp), s.reqs);
  }

  lemma CrashTidy(e: Env, s: State, w: Waste)
    requires Inv(e, s) && Tidy(e, w, s)
    ensures Tidy(e, LeaveNext(e, w, s, Crash), Apply(e, s, Crash).value)
  {
    hide ProtocolRuns.Inv;
    hide PointedTo;
    var n, lost := AfterCrash(s.procs), LeaveNext(e, w, s, Crash).snapshots;
    forall x ensures !Held(e, n, x) {
      forall t | t in n ensures Holds(e, n[t]) == {} { assert Over(n[t]); }
    }
    hide Holds;
    forall t, x | t in s.procs && x in Holds(e, s.procs[t]) ensures x in s.core.v.made && !PointedTo(s.core.v, x) {
      InvAt(e, s, t);
      HoldsItsOwn(e, s.core.v, s.procs[t], x);
    }
  }

  lemma GcTidy(e: Env, s: State, w: Waste, gc: Gc)
    requires Tidy(e, w, s)
    ensures Tidy(e, w, s.(gc := gc))
  {
  }

  /** Garbage collection issues no upload ids and brings no records back. */
  lemma ElsewhereTidy(e: Env, s: State, w: Waste, u: UploadId, f: Desk)
    requires Tidy(e, w, s) && Elsewhere(s.core.d, f, u)
    ensures Tidy(e, w, s.(core := s.core.(d := f)))
  {
    hide Accounted;
    hide LostForGood;
    hide HasStored;
    forall x | x in f.uploads ensures x in s.core.d.uploads { assert x in f.uploads.Keys; }
  }

  lemma SweepTidy(e: Env, s: State, w: Waste, u: UploadId, dir: Outcome, rec: Option<Outcome>)
    requires Tidy(e, w, s) && Apply(e, s, Sweep(u, dir, rec)).Some?
    ensures Tidy(e, w, Apply(e, s, Sweep(u, dir, rec)).value)
  {
    hide Tidy;
    var d := RemoveDir(s.core.d, u, dir).value;
    RemoveDirElsewhere(s.core.d, u, dir);
    ElsewhereTidy(e, s, w, u, d);
    if rec.Some? && rec.value.Ok? {
      DeleteUploadElsewhere(d, u);
      ElsewhereTidy(e, s.(core := s.core.(d := d)), w, u, DeleteUpload(d, u));
    }
  }

  lemma OrphanTidy(e: Env, s: State, w: Waste, u: UploadId, o: Outcome)
    requires Tidy(e, w, s) && Apply(e, s, RemoveOrphan(u, o)).Some?
    ensures Tidy(e, w, Apply(e, s, RemoveOrphan(u, o)).value)
  {
    hide Tidy;
    RemoveDirElsewhere(s.core.d, u, o);
    ElsewhereTidy(e, s, w, u, RemoveDir(s.core.d, u, o).value);
  }

  lemma AnyTidy(e: Env, s: State, w: Waste, l: Label)
    requires Inv(e, s) && Tidy(e, w, s) && Apply(e, s, l).Some?
    ensures Tidy(e, LeaveNext(e, w, s, l), Apply(e, s, l).value)
  {
    hide Tidy;
    hide ProtocolRuns.Inv;
    match l
    case Step(t, o) => StepTidy(e, s, w, t, o);
    case Start(t, r) => StartTidy(e, s, w, t, r);
    case Lock(t) => LockTidy(e, s, w, t);
    case Release(t) => ReleaseTidy(e, s, w, t);
    case Crash => CrashTidy(e, s, w);
    case Sweep(u, dir, rec) => SweepTidy(e, s, w, u, dir, rec);
    case ListDirs => GcTidy(e, s, w, Listed(s.core.d.dirs));
    case ListIds => GcTidy(e, s, w, Apply(e, s, l).value.gc);
    case RemoveOrphan(u, o) => OrphanTidy(e, s, w, u, o);
  }

  lemma {:induction false} ReachableTidy(e: Env, ls: seq<Label>, s: State)
    requires Reaches(e, ls, s)
    ensures Tidy(e, Left(e, ls), s)
    decreases |ls|
  {
    hide ProtocolRuns.Inv;
    if ls != [] {
      hide Tidy;
      var front, l := ls[..|ls| - 1], ls[|ls| - 1];
      assert ls == front + [l];
      RunConcat(e, INIT, front, [l]);
      var m := Run(e, INIT, front).value;
      RunSnoc(e, INIT, front, m, l);
      ReachableInv(e, front, m);
      ReachableTidy(e, front, m);
      AnyTidy(e, m, Left(e, front), l);
    }
  }

  // ---- What is left behind ----

  /**
   Every live snapshot is exactly one of these: a key points to it, or a running request
   still has to map or forget it or a failed call or a crash has left it behind for good.
   */
  lemma SnapshotsAreAccountedFor(e: Env, ls: seq<Label>, s: State, x: Coord)
    requires Reaches(e, ls, s) && x in s.core.v.live
    ensures PointedTo(s.core.v, x) <==> !Held(e, s.procs, x) && x !in Left(e, ls).snapshots
  {
    hide PointedTo;
    hide Holds;
    hide ProtocolRuns.Inv;
    ReachableTidy(e, ls, s);
    ReachableInv(e, ls, s);
    hide ProtocolRuns.Reaches;
    if Held(e, s.procs, x) {
      var t :| t in s.procs && x in Holds(e, s.procs[t]);
      InvAt(e, s, t);
      HoldsItsOwn(e, s.core.v, s.procs[t], x);
    }
  }

  /** When all requests are over and nothing was left behind, PBS holds one snapshot per object and no more. */
  lemma NothingElseIsLive(e: Env, ls: seq<Label>, s: State)
    requires Reaches(e, ls, s) && Left(e, ls).snapshots == {}
    requires forall t :: t in s.procs ==> Over(s.procs[t])
    ensures s.core.v.live.Keys
         == set k | k in s.core.v.objects && k !in s.core.v.doomed :: s.core.v.objects[k].at
  {
    var v := s.core.v;
    T.SnapshotSafety(e, ls, s);
    forall x | x in v.live ensures PointedTo(v, x) {
      assert !Held(e, s.procs, x);
      SnapshotsAreAccountedFor(e, ls, s, x);
    }
    forall x | x in v.live ensures exists k :: k in v.objects && k !in v.doomed && v.objects[k].at == x {
      var k :| k in v.objects && v.objects[k].at == x;
    }
  }

  /** No call fails, and nothing crashes. */
  predicate Untroubled(ls: seq<Label>) {
    forall i :: 0 <= i < |ls| ==> !ls[i].Crash? && (ls[i].Step? ==> !ls[i].o.Fail?)
  }

  lemma {:induction false} UntroubledLeavesNothing(e: Env, ls: seq<Label>)
    requires Untroubled(ls)
    ensures Left(e, ls) == Waste({}, {})
    decreases |ls|
  {
    if ls != [] {
      UntroubledLeavesNothing(e, ls[..|ls| - 1]);
      assert !ls[|ls| - 1].Crash?;
    }
  }

  /** A completed upload is off the records for good, with its parts, unless deleting its record failed. */
  lemma CompletedIsOffTheRecords(e: Env, ls: seq<Label>, s: State, t: Tid)
    requires Reaches(e, ls, s) && t in s.procs && t in s.reqs && HasStored(s.reqs[t], s.procs[t])
    ensures var u := s.reqs[t].upload;
      && u in s.core.d.ever
      && (u in s.core.d.uploads ==> u in Left(e, ls).records)
      && (u !in s.core.d.uploads ==>
            (forall p :: p in s.core.d.parts ==> p.upload != u) && (u in s.core.d.dirs ==> u in s.core.d.orphans))
  {
    hide PointedTo;
    hide Holds;
    hide HasStored;
    hide ProtocolInv.FilesOk;
    hide ProtocolInv.PartsOk;
    hide ProtocolInv.VaultOk;
    hide ProtocolRuns.AllPcOk;
    hide ProtocolRuns.Exclusive;
    hide ProtocolRuns.LogOk;
    hide ProtocolRuns.GcOk;
    hide ProtocolRuns.ServesAll;
    ReachableTidy(e, ls, s);
    ReachableInv(e, ls, s);
  }
}
