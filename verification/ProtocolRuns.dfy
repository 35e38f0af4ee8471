/** The invariant holds after every run, over any interleaving of requests, failures and crashes. */
module ProtocolRuns {
  import opened Wrappers
  import opened Pbs
  import opened ProtocolState
  import opened ProtocolSteps
  import opened ProtocolInv
  import opened ProtocolProof

  ghost predicate AllPcOk(e: Env, c: Core, procs: map<Tid, Pc>) {
    forall t :: t in procs ==> VaultPc(e, c.v, procs[t]) && DeskPcOk(e, c.d, t, procs[t])
  }

  /** At most one request holds a given (bucket,key) lock, and at most one a given group lock. */
  ghost predicate Exclusive(e: Env, procs: map<Tid, Pc>) {
    && (forall t, o :: t in procs && o in procs && t != o && KeyHeld(procs[t]).Some? ==>
          KeyHeld(procs[t]) != KeyHeld(procs[o]))
    && (forall t, o :: t in procs && o in procs && t != o && GroupHeld(e, procs[t]).Some? ==>
          GroupHeld(e, procs[t]) != GroupHeld(e, procs[o]))
  }

  ghost predicate Logged(log: seq<Effect>, t: Tid) {
    exists i :: 0 <= i < |log| && log[i].req == t
  }

  /** Each request has at most one effect, the one it was asked for, once it has `Acted`. */
  ghost predicate LogOk(log: seq<Effect>, procs: map<Tid, Pc>, reqs: map<Tid, Request>) {
    && (forall i, j :: 0 <= i < j < |log| ==> log[i].req != log[j].req)
    && (forall i :: 0 <= i < |log| ==> log[i].req in reqs && EffectFor(reqs[log[i].req], log[i]))
    && (forall t :: t in procs ==> (Acted(procs[t]) <==> Logged(log, t)))
  }

  ghost predicate ServesAll(procs: map<Tid, Pc>, reqs: map<Tid, Request>) {
    procs.Keys == reqs.Keys && forall t :: t in procs ==> Serves(reqs[t], procs[t])
  }

  /** A listed directory with no record at the second listing will never have one again. */
  ghost predicate GcOk(d: Desk, gc: Gc) {
    match gc
    case Fresh => true
    case Listed(entries) => entries <= d.ever
    case Known(entries, known) => entries <= d.ever && forall u :: u in entries && u !in known ==> u !in d.uploads
  }

  ghost predicate Inv(e: Env, s: State) {
    && VaultOk(e, s.core.v) && DeskOk(e, s.core.d)
    && AllPcOk(e, s.core, s.procs) && Exclusive(e, s.procs)
    && LogOk(s.core.v.log, s.procs, s.reqs) && ServesAll(s.procs, s.reqs)
    && GcOk(s.core.d, s.gc)
  }

  lemma InitOk(e: Env)
    ensures Inv(e, INIT)
  {
    assert Abstract(INIT.core.v) == map[];
  }

  // ---- A step of one request ----

  lemma OthersOk(e: Env, c: Core, n: Core, procs: map<Tid, Pc>, t: Tid)
    requires AllPcOk(e, c, procs) && Exclusive(e, procs) && t in procs
    requires Guarantee(c, n, t, KeyHeld(procs[t]))
    ensures forall o :: o in procs && o != t ==> VaultPc(e, n.v, procs[o]) && DeskPcOk(e, n.d, o, procs[o])
  {
    forall o | o in procs && o != t
      ensures VaultPc(e, n.v, procs[o]) && DeskPcOk(e, n.d, o, procs[o])
    {
      OneOtherOk(e, c, n, t, KeyHeld(procs[t]), o, procs[o]);
    }
  }

  lemma OneOtherOk(e: Env, c: Core, n: Core, t: Tid, key: Option<ObjKey>, o: Tid, pc: Pc)
    requires Guarantee(c, n, t, key) && o != t
    requires KeyHeld(pc).None? || KeyHeld(pc) != key
    requires VaultPc(e, c.v, pc) && DeskPcOk(e, c.d, o, pc)
    ensures VaultPc(e, n.v, pc) && DeskPcOk(e, n.d, o, pc)
  {
    GuaranteeSuffices(c, n, t, key, o, pc);
    VaultPcStable(e, c.v, n.v, pc);
    ClaimsStable(c.d, n.d, o, pc);
    DeskPcStable(e, c.d, n.d, o, pc);
  }

  lemma ExclusiveOk(e: Env, procs: map<Tid, Pc>, t: Tid, pc: Pc)
    requires Exclusive(e, procs) && t in procs && LocksShrink(e, procs[t], pc)
    ensures Exclusive(e, procs[t := pc])
  {
  }

  lemma LogStepOk(v: Vault, w: Vault, procs: map<Tid, Pc>, reqs: map<Tid, Request>, t: Tid, pc: Pc, core: Core)
    requires LogOk(v.log, procs, reqs) && ServesAll(procs, reqs) && t in procs
    requires core.v == w && LogStep(v, w, t, procs[t], pc) && Serving(reqs[t], v, Next(core, pc))
    ensures LogOk(w.log, procs[t := pc], reqs)
  {
    if w.log != v.log {
      assert w.log[..|v.log|] == v.log;
      assert forall i :: 0 <= i < |v.log| ==> w.log[i] == v.log[i];
      assert w.log[|v.log|].req == t;
      assert Logged(w.log, t);
      forall o | o in procs && o != t ensures Logged(w.log, o) <==> Logged(v.log, o) {
        if Logged(v.log, o) {
          var i :| 0 <= i < |v.log| && v.log[i].req == o;
          assert w.log[i].req == o;
        }
      }
    }
  }

  lemma StepCoreOk(e: Env, s: State, t: Tid, o: Outcome, n: Next)
    requires VaultOk(e, s.core.v) && DeskOk(e, s.core.d) && AllPcOk(e, s.core, s.procs) && Exclusive(e, s.procs)
    requires t in s.procs && Local(e, s.core, t, s.procs[t], o) == Some(n)
    ensures VaultOk(e, n.core.v) && DeskOk(e, n.core.d) && AllPcOk(e, n.core, s.procs[t := n.pc])
    ensures Guarantee(s.core, n.core, t, KeyHeld(s.procs[t]))
  {
    hide ProtocolInv.VaultOk;
    hide ProtocolInv.DeskOk;
    hide ProtocolInv.VaultPc;
    hide ProtocolProof.DeskPcOk;
    hide ProtocolInv.VaultGuarantee;
    hide ProtocolInv.DeskGuarantee;
    hide Exclusive;
    hide ProtocolSteps.Local;
    LocalVaultOk(e, s.core, t, s.procs[t], o);
    LocalDeskOk(e, s.core, t, s.procs[t], o);
    OthersOk(e, s.core, n.core, s.procs, t);
  }

  lemma StepKeeps(e: Env, s: State, t: Tid, o: Outcome)
    requires Inv(e, s) && Apply(e, s, Step(t, o)).Some?
    ensures Inv(e, Apply(e, s, Step(t, o)).value)
  {
    hide ProtocolInv.VaultOk;
    hide ProtocolInv.DeskOk;
    hide ProtocolInv.VaultGuarantee;
    hide ProtocolInv.DeskGuarantee;
    hide ProtocolInv.Serves;
    hide ProtocolProof.LogStep;
    hide ProtocolProof.LocksShrink;
    hide AllPcOk;
    hide Exclusive;
    hide LogOk;
    hide GcOk;
    hide ProtocolSteps.Local;
    var pc := s.procs[t];
    var n := Local(e, s.core, t, pc, o).value;
    StepCoreOk(e, s, t, o, n);
    LocalControl(e, s.core, t, pc, o);
    LocalServes(s.reqs[t], e, s.core, t, pc, o);
    ExclusiveOk(e, s.procs, t, n.pc);
    LogStepOk(s.core.v, n.core.v, s.procs, s.reqs, t, n.pc, n.core);
    GcStepOk(s.core.d, n.core.d, t, KeyHeld(pc), s.gc);
  }

  lemma GcStepOk(d: Desk, f: Desk, t: Tid, key: Option<ObjKey>, gc: Gc)
    requires GcOk(d, gc) && DeskGuarantee(d, f, t, key)
    ensures GcOk(f, gc)
  {
  }

  // ---- Arrival, locks, crashes ----

  lemma OneMovesPc(e: Env, c: Core, procs: map<Tid, Pc>, t: Tid, pc: Pc)
    requires AllPcOk(e, c, procs) && VaultPc(e, c.v, pc) && DeskPcOk(e, c.d, t, pc)
    ensures AllPcOk(e, c, procs[t := pc])
  {
  }

  lemma OneMovesLog(log: seq<Effect>, procs: map<Tid, Pc>, reqs: map<Tid, Request>, t: Tid, pc: Pc)
    requires LogOk(log, procs, reqs)
    requires if t in procs then Acted(pc) == Acted(procs[t]) else !Acted(pc) && t !in reqs
    ensures LogOk(log, procs[t := pc], reqs)
  {
  }

  lemma NewRequestLog(log: seq<Effect>, procs: map<Tid, Pc>, reqs: map<Tid, Request>, t: Tid, r: Request)
    requires LogOk(log, procs, reqs) && t !in reqs && t in procs
    ensures LogOk(log, procs, reqs[t := r])
  {
  }

  lemma NewcomerExclusive(e: Env, procs: map<Tid, Pc>, t: Tid, pc: Pc)
    requires Exclusive(e, procs) && KeyHeld(pc).None? && GroupHeld(e, pc).None?
    ensures Exclusive(e, procs[t := pc])
  {
  }

  lemma EntryOk(e: Env, c: Core, t: Tid, r: Request)
    ensures VaultPc(e, c.v, Entry(r, c)) && DeskPcOk(e, c.d, t, Entry(r, c)) && Serves(r, Entry(r, c))
    ensures KeyHeld(Entry(r, c)).None? && GroupHeld(e, Entry(r, c)).None? && !Acted(Entry(r, c))
  {
  }

  lemma StartKeeps(e: Env, s: State, t: Tid, r: Request)
    requires Inv(e, s) && Apply(e, s, Start(t, r)).Some?
    ensures Inv(e, Apply(e, s, Start(t, r)).value)
  {
    hide ProtocolInv.VaultOk;
    hide ProtocolInv.DeskOk;
    hide Exclusive;
    hide LogOk;
    hide GcOk;
    hide AllPcOk;
    hide ProtocolInv.VaultPc;
    hide ProtocolProof.DeskPcOk;
    var pc := Entry(r, s.core);
    EntryOk(e, s.core, t, r);
    OneMovesPc(e, s.core, s.procs, t, pc);
    OneMovesLog(s.core.v.log, s.procs, s.reqs, t, pc);
    NewRequestLog(s.core.v.log, s.procs[t := pc], s.reqs, t, r);
    NewcomerExclusive(e, s.procs, t, pc);
  }

  lemma LockPcOk(e: Env, s: State, t: Tid)
    requires t in s.procs && LockStep(e, s, t).Some? && VaultPc(e, s.core.v, s.procs[t])
    requires DeskPcOk(e, s.core.d, t, s.procs[t]) && t in s.reqs && Serves(s.reqs[t], s.procs[t])
    ensures VaultPc(e, s.core.v, LockStep(e, s, t).value.procs[t])
    ensures DeskPcOk(e, s.core.d, t, LockStep(e, s, t).value.procs[t])
    ensures Serves(s.reqs[t], LockStep(e, s, t).value.procs[t])
    ensures Acted(LockStep(e, s, t).value.procs[t]) == Acted(s.procs[t])
  {
  }

  lemma LockExclusive(e: Env, s: State, t: Tid)
    requires t in s.procs && LockStep(e, s, t).Some? && Exclusive(e, s.procs) && DeskPc(e, s.core.d, t, s.procs[t])
    ensures Exclusive(e, LockStep(e, s, t).value.procs)
  {
    var pc := LockStep(e, s, t).value.procs[t];
    if s.procs[t].Wait? {
      assert KeyHeld(pc) == Some(s.procs[t].key) && GroupHeld(e, pc).None?;
    } else {
      assert KeyHeld(pc) == KeyHeld(s.procs[t]);
    }
  }

  lemma LockKeeps(e: Env, s: State, t: Tid)
    requires Inv(e, s) && Apply(e, s, Lock(t)).Some?
    ensures Inv(e, Apply(e, s, Lock(t)).value)
  {
    hide ProtocolInv.VaultOk;
    hide ProtocolInv.DeskOk;
    hide ProtocolInv.Serves;
    hide ProtocolInv.VaultPc;
    hide Exclusive;
    hide LogOk;
    hide GcOk;
    var pc := LockStep(e, s, t).value.procs[t];
    LockPcOk(e, s, t);
    LockExclusive(e, s, t);
    OneMovesPc(e, s.core, s.procs, t, pc);
    OneMovesLog(s.core.v.log, s.procs, s.reqs, t, pc);
  }

  lemma ReleaseKeeps(e: Env, s: State, t: Tid)
    requires Inv(e, s) && Apply(e, s, Release(t)).Some?
    ensures Inv(e, Apply(e, s, Release(t)).value)
  {
    hide ProtocolInv.VaultOk;
    hide ProtocolInv.DeskOk;
    hide Exclusive;
    hide LogOk;
    hide GcOk;
    var pc := Done(s.procs[t].resp);
    ExclusiveOk(e, s.procs, t, pc);
    OneMovesPc(e, s.core, s.procs, t, pc);
    OneMovesLog(s.core.v.log, s.procs, s.reqs, t, pc);
  }

  lemma CrashedPcOk(e: Env, c: Core, procs: map<Tid, Pc>)
    requires AllPcOk(e, c, procs)
    ensures AllPcOk(e, c, AfterCrash(procs)) && Exclusive(e, AfterCrash(procs))
  {
    assert forall t :: t in AfterCrash(procs) ==> Over(AfterCrash(procs)[t]);
    assert forall pc: Pc :: Over(pc) ==> KeyHeld(pc).None? && GroupHeld(e, pc).None?;
  }

  lemma CrashedLogOk(log: seq<Effect>, procs: map<Tid, Pc>, reqs: map<Tid, Request>)
    requires LogOk(log, procs, reqs) && ServesAll(procs, reqs)
    ensures LogOk(log, AfterCrash(procs), reqs) && ServesAll(AfterCrash(procs), reqs)
  {
  }

  lemma CrashKeeps(e: Env, s: State)
    requires Inv(e, s)
    ensures Inv(e, Apply(e, s, Crash).value)
  {
    CrashedPcOk(e, s.core, s.procs);
    CrashedLogOk(s.core.v.log, s.procs, s.reqs);
  }

  // ---- Garbage collection ----

  /** A change to uploads nobody claims disturbs nobody. */
  ghost predicate Elsewhere(d: Desk, f: Desk, u: UploadId) {
    && d.orphans <= f.orphans && d.ever <= f.ever && f.uploads.Keys <= d.uploads.Keys
    && (forall w :: w != u ==> SameUpload(d, f, w))
    && (forall o: Tid :: Lookup(d.files, Tmp(o)) == Lookup(f.files, Tmp(o)))
  }

  lemma RemoveDirElsewhere(d: Desk, u: UploadId, o: Outcome)
    requires RemoveDir(d, u, o).Some?
    ensures Elsewhere(d, RemoveDir(d, u, o).value, u)
  {
  }

  lemma DeleteUploadElsewhere(d: Desk, u: UploadId)
    ensures Elsewhere(d, DeleteUpload(d, u), u)
  {
  }

  lemma ElsewhereKeeps(e: Env, s: State, u: UploadId, f: Desk)
    requires Inv(e, s) && DeskOk(e, f) && Elsewhere(s.core.d, f, u)
    requires forall t :: t in s.procs ==> u !in Claims(s.procs[t])
    ensures Inv(e, s.(core := s.core.(d := f)))
  {
    forall t | t in s.procs ensures DeskPcOk(e, f, t, s.procs[t]) {
      ClaimsStable(s.core.d, f, t, s.procs[t]);
      DeskPcStable(e, s.core.d, f, t, s.procs[t]);
    }
  }

  lemma SweepKeeps(e: Env, s: State, u: UploadId, dir: Outcome, rec: Option<Outcome>)
    requires Inv(e, s) && Apply(e, s, Sweep(u, dir, rec)).Some?
    ensures Inv(e, Apply(e, s, Sweep(u, dir, rec)).value)
  {
    var d := RemoveDir(s.core.d, u, dir).value;
    RemoveDirOk(e, s.core.d, u, dir);
    RemoveDirElsewhere(s.core.d, u, dir);
    ElsewhereKeeps(e, s, u, d);
    if rec.Some? && rec.value.Ok? {
      DeleteUploadOk(e, d, u);
      DeleteUploadElsewhere(d, u);
      ElsewhereKeeps(e, s.(core := s.core.(d := d)), u, DeleteUpload(d, u));
    }
  }

  lemma NoClaim(e: Env, s: State, u: UploadId)
    requires Inv(e, s) && u !in s.core.d.uploads
    ensures forall t :: t in s.procs ==> u !in Claims(s.procs[t])
  {
  }

  lemma RemoveOrphanKeeps(e: Env, s: State, u: UploadId, o: Outcome)
    requires Inv(e, s) && Apply(e, s, RemoveOrphan(u, o)).Some?
    ensures Inv(e, Apply(e, s, RemoveOrphan(u, o)).value)
  {
    NoClaim(e, s, u);
    RemoveDirOk(e, s.core.d, u, o);
    RemoveDirElsewhere(s.core.d, u, o);
    ElsewhereKeeps(e, s, u, RemoveDir(s.core.d, u, o).value);
  }

  // ---- All steps, all runs ----

  lemma ApplyKeeps(e: Env, s: State, l: Label)
    requires Inv(e, s) && Apply(e, s, l).Some?
    ensures Inv(e, Apply(e, s, l).value)
  {
    match l
    case Start(t, r) => StartKeeps(e, s, t, r);
    case Step(t, o) => StepKeeps(e, s, t, o);
    case Lock(t) => LockKeeps(e, s, t);
    case Release(t) => ReleaseKeeps(e, s, t);
    case Crash => CrashKeeps(e, s);
    case Sweep(u, dir, rec) => SweepKeeps(e, s, u, dir, rec);
    case ListDirs =>
    case ListIds =>
    case RemoveOrphan(u, o) => RemoveOrphanKeeps(e, s, u, o);
  }

  ghost predicate Reaches(e: Env, ls: seq<Label>, s: State) {
    Run(e, INIT, ls) == Some(s)
  }

  lemma {:induction false} RunKeeps(e: Env, s: State, ls: seq<Label>)
    requires Inv(e, s) && Run(e, s, ls).Some?
    ensures Inv(e, Run(e, s, ls).value)
    decreases |ls|
  {
    if ls != [] {
      ApplyKeeps(e, s, ls[0]);
      RunKeeps(e, Apply(e, s, ls[0]).value, ls[1..]);
    }
  }

  /** A run of two parts is a run of the first and then of the second. */
  lemma {:induction false} RunConcat(e: Env, s: State, ls: seq<Label>, more: seq<Label>)
    ensures Run(e, s, ls + more) == if Run(e, s, ls).Some? then Run(e, Run(e, s, ls).value, more) else None
    decreases |ls|
  {
    if ls == [] {
      assert ls + more == more;
    } else {
      assert (ls + more)[1..] == ls[1..] + more && (ls + more)[0] == ls[0];
      var n := Apply(e, s, ls[0]);
      if n.Some? { RunConcat(e, n.value, ls[1..], more); }
    }
  }

  lemma RunSnoc(e: Env, s: State, ls: seq<Label>, m: State, l: Label)
    requires Run(e, s, ls) == Some(m)
    ensures Run(e, s, ls + [l]) == Apply(e, m, l)
  {
    RunConcat(e, s, ls, [l]);
    assert [l][1..] == [];
  }

  /** Every reachable state satisfies the invariant. */
  lemma ReachableInv(e: Env, ls: seq<Label>, s: State)
    requires Reaches(e, ls, s)
    ensures Inv(e, s)
  {
    InitOk(e);
    RunKeeps(e, INIT, ls);
  }
}
