/** Every step of a request keeps the invariant and stays within its guarantee. */
module ProtocolProof {
  import opened Wrappers
  import opened Pbs
  import opened ProtocolState
  import opened ProtocolSteps
  import opened ProtocolInv

  // ---- Effects on the vault ----

  lemma AcceptOk(e: Env, v: Vault, x: Coord, bytes: Bytes, k: ObjKey)
    requires VaultOk(e, v) && Accepts(v.high, x)
    ensures x !in v.made
    ensures VaultOk(e, Accept(v, x, bytes, k))
  {
    assert Abstract(Accept(v, x, bytes, k)) == Abstract(v);
  }

  lemma AcceptWithin(e: Env, v: Vault, x: Coord, bytes: Bytes, k: ObjKey)
    requires x !in v.made
    ensures VaultGuarantee(v, Accept(v, x, bytes, k), Some(k))
  {
  }

  /** Forgetting a superseded snapshot harms no mapping, whichever way the call ends. */
  lemma ForgetOk(e: Env, v: Vault, x: Coord, k: ObjKey, o: Outcome)
    requires VaultOk(e, v) && Superseded(v, k, x) && Forget(v, x, o).Some?
    ensures VaultOk(e, Forget(v, x, o).value)
    ensures VaultGuarantee(v, Forget(v, x, o).value, Some(k))
  {
    assert Abstract(Forget(v, x, o).value) == Abstract(v);
  }

  /** The vault after DeleteObject's forget has removed the snapshot. */
  function Doomed(v: Vault, k: ObjKey): Vault
    requires k in v.objects
  {
    v.(live := v.live - {v.objects[k].at}, doomed := v.doomed + {k})
  }

  lemma DoomCases(v: Vault, k: ObjKey, o: Outcome)
    requires k in v.objects && Doom(v, k, v.objects[k].at, o).Some?
    ensures Doom(v, k, v.objects[k].at, o).value in {v, Doomed(v, k)}
  {
    var x := v.objects[k].at;
    assert x !in v.live ==> v.live - {x} == v.live;
  }

  lemma DoomedOk(e: Env, v: Vault, k: ObjKey)
    requires VaultOk(e, v) && k in v.objects
    ensures VaultOk(e, Doomed(v, k))
  {
    assert MappingOk(e, v, k, v.objects[k]);
    assert Abstract(Doomed(v, k)) == Abstract(v);
  }

  lemma DoomedGuarantee(e: Env, v: Vault, k: ObjKey)
    requires VaultOk(e, v) && k in v.objects
    ensures VaultGuarantee(v, v, Some(k)) && VaultGuarantee(v, Doomed(v, k), Some(k))
  {
    assert MappingOk(e, v, k, v.objects[k]);
  }

  /** DeleteObject forgets the snapshot the key still points to, and dooms the key. */
  lemma DoomOk(e: Env, v: Vault, k: ObjKey, o: Outcome)
    requires VaultOk(e, v) && k in v.objects && Doom(v, k, v.objects[k].at, o).Some?
    ensures VaultOk(e, Doom(v, k, v.objects[k].at, o).value)
    ensures VaultGuarantee(v, Doom(v, k, v.objects[k].at, o).value, Some(k))
  {
    DoomCases(v, k, o);
    DoomedOk(e, v, k);
    DoomedGuarantee(e, v, k);
  }

  lemma PutMappingOk(e: Env, v: Vault, t: Tid, j: Job, time: int)
    requires VaultOk(e, v) && NewSnapOk(e, v, j, time)
    ensures VaultOk(e, PutMapping(e, v, t, j, time))
  {
    var w := PutMapping(e, v, t, j, time);
    assert w.log[..|w.log| - 1] == v.log;
    assert Abstract(w) == Abstract(v)[j.key := j.body];
  }

  lemma DeleteMappingOk(e: Env, v: Vault, t: Tid, k: ObjKey)
    requires VaultOk(e, v) && k in v.objects
    ensures VaultOk(e, DeleteMapping(v, t, k))
  {
    var w := DeleteMapping(v, t, k);
    assert w.log[..|w.log| - 1] == v.log;
    assert Abstract(w) == Abstract(v) - {k};
  }

  lemma PutMappingWithin(e: Env, v: Vault, t: Tid, j: Job, time: int)
    ensures VaultGuarantee(v, PutMapping(e, v, t, j, time), Some(j.key))
  {
  }

  lemma DeleteMappingWithin(v: Vault, t: Tid, k: ObjKey)
    ensures VaultGuarantee(v, DeleteMapping(v, t, k), Some(k))
  {
  }

  lemma SameVault(v: Vault, key: Option<ObjKey>)
    ensures VaultGuarantee(v, v, key)
  {
  }

  // ---- Effects on the desk ----

  lemma RemoveDirOk(e: Env, d: Desk, u: UploadId, o: Outcome)
    requires DeskOk(e, d) && RemoveDir(d, u, o).Some? && u in d.ever
    ensures DeskOk(e, RemoveDir(d, u, o).value)
    ensures Gone(RemoveDir(d, u, o).value, u)
  {
  }

  lemma RemoveDirWithin(d: Desk, t: Tid, u: UploadId, key: Option<ObjKey>, o: Outcome)
    requires RemoveDir(d, u, o).Some?
    requires u in d.uploads ==> Some(d.uploads[u]) == key
    ensures DeskGuarantee(d, RemoveDir(d, u, o).value, t, key)
  {
  }

  lemma DeleteUploadOk(e: Env, d: Desk, u: UploadId)
    requires DeskOk(e, d) && Gone(d, u)
    ensures DeskOk(e, DeleteUpload(d, u))
  {
  }

  lemma DeleteUploadWithin(d: Desk, t: Tid, u: UploadId, key: Option<ObjKey>)
    requires u in d.uploads ==> Some(d.uploads[u]) == key
    ensures DeskGuarantee(d, DeleteUpload(d, u), t, key)
  {
  }

  /** A change confined to one upload's files, directory and parts. */
  ghost predicate OnlyUpload(d: Desk, f: Desk, u: UploadId) {
    && d.uploads == f.uploads && d.ever == f.ever && d.orphans == f.orphans
    && (forall w :: w != u ==> SameUpload(d, f, w))
    && (forall o: Tid :: Lookup(d.files, Tmp(o)) == Lookup(f.files, Tmp(o)))
  }

  lemma OnlyUploadWithin(d: Desk, f: Desk, t: Tid, u: UploadId, key: Option<ObjKey>)
    requires OnlyUpload(d, f, u) && u in d.uploads && Some(d.uploads[u]) == key
    ensures DeskGuarantee(d, f, t, key)
  {
  }

  lemma MkDirOk(e: Env, d: Desk, u: UploadId)
    requires DeskOk(e, d) && u in d.uploads
    ensures DeskOk(e, MkDir(d, u)) && OnlyUpload(d, MkDir(d, u), u)
  {
  }

  lemma OpenPartOk(e: Env, d: Desk, p: PartId)
    requires DeskOk(e, d) && p.upload in d.dirs
    ensures DeskOk(e, OpenPart(d, p)) && OnlyUpload(d, OpenPart(d, p), p.upload)
  {
  }

  lemma WritePartOk(e: Env, d: Desk, p: PartId, bytes: Bytes)
    requires DeskOk(e, d) && p.upload in d.dirs && p in d.dirty
    ensures DeskOk(e, WriteFile(d, PartFile(p), bytes)) && OnlyUpload(d, WriteFile(d, PartFile(p), bytes), p.upload)
  {
  }

  lemma WritePartialOk(e: Env, d: Desk, u: UploadId, bytes: Bytes)
    requires DeskOk(e, d) && u in d.dirs
    ensures DeskOk(e, WriteFile(d, Partial(u), bytes)) && OnlyUpload(d, WriteFile(d, Partial(u), bytes), u)
  {
  }

  lemma RemoveFileOk(e: Env, d: Desk, x: File, u: UploadId)
    requires DeskOk(e, d) && UploadOf(x) == Some(u)
    ensures DeskOk(e, RemoveFile(d, x)) && OnlyUpload(d, RemoveFile(d, x), u)
  {
  }

  lemma PutPartOk(e: Env, d: Desk, p: PartId, bytes: Bytes)
    requires DeskOk(e, d) && p.upload in d.uploads && Lookup(d.files, PartFile(p)) == Some(bytes)
    ensures DeskOk(e, PutPart(d, p, e.md5(bytes))) && OnlyUpload(d, PutPart(d, p, e.md5(bytes)), p.upload)
  {
  }

  lemma RenameOk(e: Env, d: Desk, u: UploadId, copied: seq<Piece>)
    requires DeskOk(e, d) && u in d.dirs && PiecesOk(e, copied)
    ensures DeskOk(e, Rename(d, u, copied)) && OnlyUpload(d, Rename(d, u, copied), u)
  {
  }

  // ---- What one step keeps ----

  /** The log grows by this request's effect exactly when the request becomes `Acted`. */
  ghost predicate LogStep(v: Vault, w: Vault, t: Tid, pc: Pc, next: Pc) {
    || (w.log == v.log && Acted(next) == Acted(pc))
    || (|w.log| == |v.log| + 1 && v.log <= w.log && w.log[|v.log|].req == t && !Acted(pc) && Acted(next))
  }

  predicate LocksShrink(e: Env, pc: Pc, next: Pc) {
    && (KeyHeld(next).None? || KeyHeld(next) == KeyHeld(pc))
    && (GroupHeld(e, next).None? || GroupHeld(e, next) == GroupHeld(e, pc))
  }

  ghost predicate VaultKept(e: Env, c: Core, pc: Pc, n: Next) {
    VaultOk(e, n.core.v) && VaultGuarantee(c.v, n.core.v, KeyHeld(pc))
  }

  ghost predicate DeskKept(e: Env, c: Core, t: Tid, pc: Pc, n: Next) {
    DeskOk(e, n.core.d) && DeskGuarantee(c.d, n.core.d, t, KeyHeld(pc))
  }

  ghost predicate DeskPcOk(e: Env, d: Desk, t: Tid, pc: Pc) {
    ClaimsOk(d, pc) && DeskPc(e, d, t, pc)
  }

  // ---- Locks and the log, for every step ----

  lemma CommitControl(e: Env, c: Core, t: Tid, pc: Pc, o: Outcome)
    requires CommitStep(e, c, t, pc, o).Some?
    ensures LocksShrink(e, pc, CommitStep(e, c, t, pc, o).value.pc)
  {
    hide ProtocolSteps.RemoveDir;
    hide ProtocolSteps.MaybeDeleteUpload;
    hide ProtocolSteps.Forget;
    hide ProtocolSteps.Backup;
    hide ProtocolSteps.PutMapping;
  }

  lemma CommitLog(e: Env, c: Core, t: Tid, pc: Pc, o: Outcome)
    requires CommitStep(e, c, t, pc, o).Some?
    ensures LogStep(c.v, CommitStep(e, c, t, pc, o).value.core.v, t, pc, CommitStep(e, c, t, pc, o).value.pc)
  {
  }

  lemma DeleteControl(e: Env, c: Core, t: Tid, pc: Pc, o: Outcome)
    requires DeleteStep(c, t, pc, o).Some?
    ensures LocksShrink(e, pc, DeleteStep(c, t, pc, o).value.pc)
    ensures LogStep(c.v, DeleteStep(c, t, pc, o).value.core.v, t, pc, DeleteStep(c, t, pc, o).value.pc)
  {
    hide ProtocolSteps.RemoveDir;
    hide ProtocolSteps.MaybeDeleteUpload;
  }

  lemma UploadControl(e: Env, c: Core, t: Tid, pc: Pc, o: Outcome)
    requires UploadStep(e, c, pc, o).Some?
    ensures LocksShrink(e, pc, UploadStep(e, c, pc, o).value.pc)
    ensures LogStep(c.v, UploadStep(e, c, pc, o).value.core.v, t, pc, UploadStep(e, c, pc, o).value.pc)
  {
    hide ProtocolSteps.RemoveDir;
    hide ProtocolSteps.MaybeDeleteUpload;
    hide ProtocolSteps.PutPart;
    hide ProtocolSteps.NewUpload;
    hide ProtocolSteps.OpenPart;
    hide ProtocolSteps.WriteFile;
    hide ProtocolSteps.RemoveFile;
  }

  lemma CompleteControl(e: Env, c: Core, t: Tid, pc: Pc, o: Outcome)
    requires CompleteStep(c, pc, o).Some?
    ensures LocksShrink(e, pc, CompleteStep(c, pc, o).value.pc)
    ensures LogStep(c.v, CompleteStep(c, pc, o).value.core.v, t, pc, CompleteStep(c, pc, o).value.pc)
  {
    hide ProtocolSteps.WriteFile;
    hide ProtocolSteps.RemoveFile;
    hide ProtocolSteps.Rename;
    hide ProtocolSteps.MkDir;
    hide ProtocolSteps.ValidList;
    hide ProtocolSteps.Plan;
  }

  lemma GetControl(e: Env, c: Core, t: Tid, pc: Pc, o: Outcome)
    requires GetStep(c, pc, o).Some?
    ensures LocksShrink(e, pc, GetStep(c, pc, o).value.pc)
    ensures LogStep(c.v, GetStep(c, pc, o).value.core.v, t, pc, GetStep(c, pc, o).value.pc)
  {
  }

  // ---- Every step serves its request ----

  ghost predicate Serving(r: Request, v: Vault, n: Next) {
    && Serves(r, n.pc)
    && (|n.core.v.log| == |v.log| + 1 ==> EffectFor(r, n.core.v.log[|v.log|]))
  }

  lemma CommitServes(r: Request, e: Env, c: Core, t: Tid, pc: Pc, o: Outcome)
    requires Serves(r, pc) && CommitStep(e, c, t, pc, o).Some?
    ensures Serving(r, c.v, CommitStep(e, c, t, pc, o).value)
  {
    hide ProtocolSteps.RemoveDir;
    hide ProtocolSteps.MaybeDeleteUpload;
    var n := CommitStep(e, c, t, pc, o).value;
    assert n.pc.Wait? ==> Serves(r, n.pc.next);
  }

  lemma DeleteServes(r: Request, c: Core, t: Tid, pc: Pc, o: Outcome)
    requires Serves(r, pc) && DeleteStep(c, t, pc, o).Some?
    ensures Serving(r, c.v, DeleteStep(c, t, pc, o).value)
  {
  }

  lemma UploadServes(r: Request, e: Env, c: Core, pc: Pc, o: Outcome)
    requires Serves(r, pc) && UploadStep(e, c, pc, o).Some?
    ensures Serving(r, c.v, UploadStep(e, c, pc, o).value)
  {
    hide ProtocolSteps.UploadStep;
    UploadVaultPc(e, c, pc, o);
    UploadKeepsKey(r, e, c, pc, o);
  }

  lemma UploadKeepsKey(r: Request, e: Env, c: Core, pc: Pc, o: Outcome)
    requires Serves(r, pc) && UploadStep(e, c, pc, o).Some?
    ensures Serves(r, UploadStep(e, c, pc, o).value.pc)
  {
    hide ProtocolSteps.RemoveDir;
    hide ProtocolSteps.MaybeDeleteUpload;
    hide ProtocolSteps.PutPart;
    hide ProtocolSteps.NewUpload;
    hide ProtocolSteps.OpenPart;
    hide ProtocolSteps.WriteFile;
    hide ProtocolSteps.RemoveFile;
  }

  lemma CompleteServes(r: Request, c: Core, pc: Pc, o: Outcome)
    requires Serves(r, pc) && CompleteStep(c, pc, o).Some?
    ensures Serving(r, c.v, CompleteStep(c, pc, o).value)
  {
    hide ProtocolSteps.CompleteStep;
    CompleteKeepsVault(c, pc, o);
    CompleteKeepsKey(r, c, pc, o);
  }

  lemma CompleteKeepsVault(c: Core, pc: Pc, o: Outcome)
    requires CompleteStep(c, pc, o).Some?
    ensures CompleteStep(c, pc, o).value.core.v == c.v
  {
  }

  lemma CompleteKeepsKey(r: Request, c: Core, pc: Pc, o: Outcome)
    requires Serves(r, pc) && CompleteStep(c, pc, o).Some?
    ensures Serves(r, CompleteStep(c, pc, o).value.pc)
  {
    hide ProtocolSteps.WriteFile;
    hide ProtocolSteps.RemoveFile;
    hide ProtocolSteps.Rename;
    hide ProtocolSteps.MkDir;
    hide ProtocolSteps.ValidList;
    hide ProtocolSteps.Plan;
  }

  lemma GetServes(r: Request, c: Core, pc: Pc, o: Outcome)
    requires Serves(r, pc) && GetStep(c, pc, o).Some?
    ensures Serving(r, c.v, GetStep(c, pc, o).value)
  {
  }

  // ---- The vault, for every step ----

  predicate OnVault(pc: Pc) {
    pc.Backing? || pc.WriteMap? || pc.ForgetOld?
  }

  lemma CommitOffVault(e: Env, c: Core, t: Tid, pc: Pc, o: Outcome)
    requires CommitStep(e, c, t, pc, o).Some?
    ensures !OnVault(pc) ==> CommitStep(e, c, t, pc, o).value.core.v == c.v
  {
  }

  lemma CommitVaultOk(e: Env, c: Core, t: Tid, pc: Pc, o: Outcome)
    requires VaultOk(e, c.v) && VaultPc(e, c.v, pc) && CommitStep(e, c, t, pc, o).Some?
    requires pc.Backing? ==> SourceOk(c.d, t, pc.job)
    ensures VaultKept(e, c, pc, CommitStep(e, c, t, pc, o).value)
  {
    hide ProtocolInv.VaultOk;
    hide ProtocolInv.VaultGuarantee;
    hide ProtocolInv.SourceOk;
    hide ProtocolSteps.CommitStep;
    if pc.Backing? { BackingOk(e, c, t, pc, o); }
    else if pc.WriteMap? { MappingWritten(e, c, t, pc, o); }
    else if pc.ForgetOld? { SupersededForgotten(e, c, t, pc, o); }
    else {
      CommitOffVault(e, c, t, pc, o);
      SameVault(c.v, KeyHeld(pc));
    }
  }

  lemma MappingWritten(e: Env, c: Core, t: Tid, pc: Pc, o: Outcome)
    requires pc.WriteMap? && VaultOk(e, c.v) && VaultPc(e, c.v, pc) && CommitStep(e, c, t, pc, o).Some?
    ensures VaultKept(e, c, pc, CommitStep(e, c, t, pc, o).value)
  {
    hide ProtocolInv.VaultOk;
    hide ProtocolInv.VaultGuarantee;
    PutMappingOk(e, c.v, t, pc.job, pc.time);
    PutMappingWithin(e, c.v, t, pc.job, pc.time);
    SameVault(c.v, KeyHeld(pc));
  }

  lemma SupersededForgotten(e: Env, c: Core, t: Tid, pc: Pc, o: Outcome)
    requires pc.ForgetOld? && VaultOk(e, c.v) && VaultPc(e, c.v, pc) && CommitStep(e, c, t, pc, o).Some?
    ensures VaultKept(e, c, pc, CommitStep(e, c, t, pc, o).value)
  {
    hide ProtocolInv.VaultOk;
    hide ProtocolInv.VaultGuarantee;
    ForgetOk(e, c.v, pc.prev.at, pc.job.key, o);
  }

  lemma BackingOk(e: Env, c: Core, t: Tid, pc: Pc, o: Outcome)
    requires pc.Backing? && VaultOk(e, c.v) && SourceOk(c.d, t, pc.job) && CommitStep(e, c, t, pc, o).Some?
    ensures VaultKept(e, c, pc, CommitStep(e, c, t, pc, o).value)
  {
    var j := pc.job;
    var x := Coord(e.groupOf(j.key), pc.time);
    if Accepts(c.v.high, x) {
      AcceptOk(e, c.v, x, j.body, j.key);
      AcceptWithin(e, c.v, x, j.body, j.key);
    }
  }

  lemma CommitVaultPc(e: Env, c: Core, t: Tid, pc: Pc, o: Outcome)
    requires VaultOk(e, c.v) && VaultPc(e, c.v, pc) && CommitStep(e, c, t, pc, o).Some?
    requires pc.Backing? ==> SourceOk(c.d, t, pc.job)
    ensures VaultPc(e, CommitStep(e, c, t, pc, o).value.core.v, CommitStep(e, c, t, pc, o).value.pc)
  {
    hide ProtocolInv.VaultOk;
    hide ProtocolSteps.Forget;
    hide ProtocolSteps.PutMapping;
    hide ProtocolInv.SourceOk;
    hide ProtocolSteps.Backup;
    hide ProtocolSteps.AfterBackup;
    hide ProtocolSteps.RemoveDir;
    hide ProtocolSteps.MaybeDeleteUpload;
    match pc
    case Backing(_, _, _, _) => BackedUpPc(e, c, t, pc, o);
    case WriteMap(_, _, _) => MappedPc(e, c, t, pc, o);
    case ForgetOld(_, _, _) => ForgottenPc(e, c, t, pc, o);
    case _ =>
  }

  lemma MappedPc(e: Env, c: Core, t: Tid, pc: Pc, o: Outcome)
    requires pc.WriteMap? && VaultOk(e, c.v) && VaultPc(e, c.v, pc) && CommitStep(e, c, t, pc, o).Some?
    ensures VaultPc(e, CommitStep(e, c, t, pc, o).value.core.v, CommitStep(e, c, t, pc, o).value.pc)
  {
    if pc.seen.Some? { assert MappingOk(e, c.v, pc.job.key, pc.seen.value); }
  }

  lemma ForgottenPc(e: Env, c: Core, t: Tid, pc: Pc, o: Outcome)
    requires pc.ForgetOld? && VaultPc(e, c.v, pc) && CommitStep(e, c, t, pc, o).Some?
    ensures VaultPc(e, CommitStep(e, c, t, pc, o).value.core.v, CommitStep(e, c, t, pc, o).value.pc)
  {
  }

  lemma BackedUpPc(e: Env, c: Core, t: Tid, pc: Pc, o: Outcome)
    requires pc.Backing? && VaultOk(e, c.v) && SourceOk(c.d, t, pc.job) && CommitStep(e, c, t, pc, o).Some?
    ensures VaultPc(e, CommitStep(e, c, t, pc, o).value.core.v, CommitStep(e, c, t, pc, o).value.pc)
  {
    var j := pc.job;
    var x := Coord(e.groupOf(j.key), pc.time);
    if Accepts(c.v.high, x) { AcceptOk(e, c.v, x, j.body, j.key); }
  }

  lemma DeleteVaultOk(e: Env, c: Core, t: Tid, pc: Pc, o: Outcome)
    requires VaultOk(e, c.v) && VaultPc(e, c.v, pc) && DeleteStep(c, t, pc, o).Some?
    ensures VaultKept(e, c, pc, DeleteStep(c, t, pc, o).value)
  {
    hide ProtocolInv.VaultOk;
    hide ProtocolInv.VaultGuarantee;
    SameVault(c.v, KeyHeld(pc));
    match pc
    case DelForget(k, _, _) => DoomOk(e, c.v, k, o);
    case DelUnmap(k) => DeleteMappingOk(e, c.v, t, k); DeleteMappingWithin(c.v, t, k);
    case _ =>
  }

  lemma DeleteVaultPc(e: Env, c: Core, t: Tid, pc: Pc, o: Outcome)
    requires VaultOk(e, c.v) && VaultPc(e, c.v, pc) && DeleteStep(c, t, pc, o).Some?
    ensures VaultPc(e, DeleteStep(c, t, pc, o).value.core.v, DeleteStep(c, t, pc, o).value.pc)
  {
    if pc.DelForget? { assert MappingOk(e, c.v, pc.key, pc.prev); }
  }

  lemma GetVaultPc(e: Env, c: Core, pc: Pc, o: Outcome)
    requires VaultOk(e, c.v) && VaultPc(e, c.v, pc) && GetStep(c, pc, o).Some?
    ensures GetStep(c, pc, o).value.core == c
    ensures VaultPc(e, c.v, GetStep(c, pc, o).value.pc)
  {
    if pc.Reading? && pc.key in c.v.objects {
      assert MappingOk(e, c.v, pc.key, c.v.objects[pc.key]);
      assert c.v.log[..|c.v.log|] == c.v.log;
    }
  }

  lemma GetDeskPc(e: Env, c: Core, t: Tid, pc: Pc, o: Outcome)
    requires GetStep(c, pc, o).Some?
    ensures DeskPcOk(e, c.d, t, GetStep(c, pc, o).value.pc)
  {
  }

  lemma UploadVaultPc(e: Env, c: Core, pc: Pc, o: Outcome)
    requires UploadStep(e, c, pc, o).Some?
    ensures UploadStep(e, c, pc, o).value.core.v == c.v
    ensures VaultPc(e, c.v, UploadStep(e, c, pc, o).value.pc)
  {
  }

  lemma CompleteVaultPc(e: Env, c: Core, pc: Pc, o: Outcome)
    requires CompleteStep(c, pc, o).Some?
    ensures CompleteStep(c, pc, o).value.core.v == c.v
    ensures VaultPc(e, c.v, CompleteStep(c, pc, o).value.pc)
  {
  }

  // ---- The desk, for every step ----

  lemma SameDesk(d: Desk, t: Tid, key: Option<ObjKey>)
    ensures DeskGuarantee(d, d, t, key)
  {
  }

  /** A directory removal by a request that claims the upload. */
  lemma OwnDirOk(e: Env, d: Desk, t: Tid, pc: Pc, u: UploadId, o: Outcome)
    requires DeskOk(e, d) && ClaimsOk(d, pc) && u in Claims(pc) && RemoveDir(d, u, o).Some?
    ensures DeskOk(e, RemoveDir(d, u, o).value) && DeskGuarantee(d, RemoveDir(d, u, o).value, t, KeyHeld(pc))
  {
    RemoveDirOk(e, d, u, o);
    RemoveDirWithin(d, t, u, KeyHeld(pc), o);
  }

  lemma NewUploadOk(e: Env, d: Desk, t: Tid, pc: Pc, u: UploadId)
    requires DeskOk(e, d) && pc.MkRec? && u !in d.ever
    ensures DeskOk(e, NewUpload(d, u, pc.key)) && DeskGuarantee(d, NewUpload(d, u, pc.key), t, KeyHeld(pc))
  {
  }

  lemma UploadWithin(d: Desk, f: Desk, t: Tid, pc: Pc, u: UploadId)
    requires ClaimsOk(d, pc) && u in Claims(pc) && (f == d || OnlyUpload(d, f, u))
    ensures DeskGuarantee(d, f, t, KeyHeld(pc))
  {
    if f != d { OnlyUploadWithin(d, f, t, u, KeyHeld(pc)); }
  }

  lemma TmpOk(e: Env, d: Desk, t: Tid, bytes: Bytes)
    requires DeskOk(e, d)
    ensures DeskOk(e, WriteFile(d, Tmp(t), bytes)) && DeskOk(e, RemoveFile(d, Tmp(t)))
  {
  }

  lemma TmpWithin(d: Desk, t: Tid, bytes: Bytes, key: Option<ObjKey>)
    ensures DeskGuarantee(d, WriteFile(d, Tmp(t), bytes), t, key)
    ensures DeskGuarantee(d, RemoveFile(d, Tmp(t)), t, key)
  {
    assert forall u :: SameUpload(d, WriteFile(d, Tmp(t), bytes), u) && SameUpload(d, RemoveFile(d, Tmp(t)), u);
  }

  lemma RemoveSrcOk(e: Env, c: Core, t: Tid, pc: Pc)
    requires pc.RemoveSrc? && DeskOk(e, c.d) && ClaimsOk(c.d, pc) && SourceOk(c.d, t, pc.job)
    ensures DeskOk(e, RemoveFile(c.d, pc.job.file))
    ensures DeskGuarantee(c.d, RemoveFile(c.d, pc.job.file), t, Some(pc.job.key))
  {
    var j := pc.job;
    if j.via.Some? {
      RemoveFileOk(e, c.d, j.file, j.via.value);
      UploadWithin(c.d, RemoveFile(c.d, j.file), t, pc, j.via.value);
    } else {
      TmpOk(e, c.d, t, []);
      TmpWithin(c.d, t, [], Some(j.key));
    }
  }

  lemma CommitDeskOk(e: Env, c: Core, t: Tid, pc: Pc, o: Outcome)
    requires DeskOk(e, c.d) && DeskPcOk(e, c.d, t, pc) && CommitStep(e, c, t, pc, o).Some?
    ensures DeskKept(e, c, t, pc, CommitStep(e, c, t, pc, o).value)
  {
    hide ProtocolInv.DeskOk;
    hide ProtocolInv.DeskGuarantee;
    hide ProtocolInv.SourceOk;
    if OnDesk(pc) {
      match pc
      case Staging(_, body) => TmpOk(e, c.d, t, body); TmpWithin(c.d, t, body, None);
      case RemoveSrc(_, _) => RemoveSrcOk(e, c, t, pc);
      case RmDir(_, u, _) => OwnDirOk(e, c.d, t, pc, u, o);
      case RmRec(k, u, _) => DeleteUploadOk(e, c.d, u); DeleteUploadWithin(c.d, t, u, Some(k));
    }
    CommitOffDesk(e, c, t, pc, o);
    SameDesk(c.d, t, KeyHeld(pc));
  }

  predicate OnDesk(pc: Pc) {
    pc.Staging? || pc.RemoveSrc? || pc.RmDir? || pc.RmRec?
  }

  lemma CommitOffDesk(e: Env, c: Core, t: Tid, pc: Pc, o: Outcome)
    requires CommitStep(e, c, t, pc, o).Some?
    ensures !OnDesk(pc) ==> CommitStep(e, c, t, pc, o).value.core.d == c.d
  {
  }

  lemma CommitDeskPc(e: Env, c: Core, t: Tid, pc: Pc, o: Outcome)
    requires DeskOk(e, c.d) && DeskPcOk(e, c.d, t, pc) && CommitStep(e, c, t, pc, o).Some?
    ensures DeskPcOk(e, CommitStep(e, c, t, pc, o).value.core.d, t, CommitStep(e, c, t, pc, o).value.pc)
  {
    hide ProtocolInv.DeskOk;
    hide ProtocolSteps.Backup;
    hide ProtocolSteps.Forget;
    hide ProtocolSteps.PutMapping;
    CommitOffDesk(e, c, t, pc, o);
    if pc.RmDir? { RemovedDirPc(e, c, t, pc, o); }
  }

  lemma RemovedDirPc(e: Env, c: Core, t: Tid, pc: Pc, o: Outcome)
    requires pc.RmDir? && DeskOk(e, c.d) && DeskPcOk(e, c.d, t, pc) && CommitStep(e, c, t, pc, o).Some?
    ensures DeskPcOk(e, CommitStep(e, c, t, pc, o).value.core.d, t, CommitStep(e, c, t, pc, o).value.pc)
  {
    RemoveDirOk(e, c.d, pc.upload, o);
  }

  lemma DeleteDeskOk(e: Env, c: Core, t: Tid, pc: Pc, o: Outcome)
    requires DeskOk(e, c.d) && DeskPcOk(e, c.d, t, pc) && DeleteStep(c, t, pc, o).Some?
    ensures DeskKept(e, c, t, pc, DeleteStep(c, t, pc, o).value)
  {
    hide ProtocolInv.DeskOk;
    hide ProtocolInv.DeskGuarantee;
    SameDesk(c.d, t, KeyHeld(pc));
    match pc
    case DelDirs(_, us) => if us != [] { OwnDirOk(e, c.d, t, pc, us[0], o); }
    case DelRecs(k, us) =>
      assert us[0] in Claims(pc);
      DeleteUploadOk(e, c.d, us[0]);
      DeleteUploadWithin(c.d, t, us[0], Some(k));
    case _ =>
  }

  lemma DeleteDeskPc(e: Env, c: Core, t: Tid, pc: Pc, o: Outcome)
    requires DeskOk(e, c.d) && DeskPcOk(e, c.d, t, pc) && DeleteStep(c, t, pc, o).Some?
    ensures DeskPcOk(e, DeleteStep(c, t, pc, o).value.core.d, t, DeleteStep(c, t, pc, o).value.pc)
  {
    hide ProtocolInv.DeskOk;
    hide ProtocolSteps.RemoveDir;
    hide ProtocolSteps.MaybeDeleteUpload;
    match pc
    case DelDirs(_, us) => if us != [] { DelDirsPc(e, c, t, pc, o); }
    case DelRecs(_, us) => DelRecsPc(e, c, t, pc, o);
    case _ =>
  }

  lemma DelDirsPc(e: Env, c: Core, t: Tid, pc: Pc, o: Outcome)
    requires pc.DelDirs? && pc.rest != []
    requires DeskOk(e, c.d) && DeskPcOk(e, c.d, t, pc) && DeleteStep(c, t, pc, o).Some?
    ensures DeskPcOk(e, DeleteStep(c, t, pc, o).value.core.d, t, DeleteStep(c, t, pc, o).value.pc)
  {
    assert pc.rest[0] in Claims(pc);
    RemoveDirOk(e, c.d, pc.rest[0], o);
  }

  lemma DelRecsPc(e: Env, c: Core, t: Tid, pc: Pc, o: Outcome)
    requires pc.DelRecs? && DeskPcOk(e, c.d, t, pc) && DeleteStep(c, t, pc, o).Some?
    ensures DeskPcOk(e, DeleteStep(c, t, pc, o).value.core.d, t, DeleteStep(c, t, pc, o).value.pc)
  {
    assert forall u :: u in pc.rest[1..] ==> u in Claims(pc) && u != pc.rest[0];
  }

  lemma UploadDeskOk(e: Env, c: Core, t: Tid, pc: Pc, o: Outcome)
    requires DeskOk(e, c.d) && DeskPcOk(e, c.d, t, pc) && UploadStep(e, c, pc, o).Some?
    ensures DeskKept(e, c, t, pc, UploadStep(e, c, pc, o).value)
  {
    hide ProtocolInv.DeskOk;
    hide ProtocolInv.DeskGuarantee;
    var n := UploadStep(e, c, pc, o).value;
    SameDesk(c.d, t, KeyHeld(pc));
    match pc
    case MkRec(_) => if o.Id? { NewUploadOk(e, c.d, t, pc, o.upload); }
    case UpDir(_, p, _) => MkDirOk(e, c.d, p.upload); UploadWithin(c.d, n.core.d, t, pc, p.upload);
    case UpOpen(_, p, _) => OpenPartOk(e, c.d, p); UploadWithin(c.d, n.core.d, t, pc, p.upload);
    case UpWrite(_, p, body) => UpWriteOk(e, c, t, pc, o);
    case UpRec(_, p, body) => PutPartOk(e, c.d, p, body); UploadWithin(c.d, n.core.d, t, pc, p.upload);
    case AbDir(_, u) => OwnDirOk(e, c.d, t, pc, u, o);
    case AbRec(k, u) => DeleteUploadOk(e, c.d, u); DeleteUploadWithin(c.d, t, u, Some(k));
    case _ =>
  }

  lemma UpWriteOk(e: Env, c: Core, t: Tid, pc: Pc, o: Outcome)
    requires pc.UpWrite? && DeskOk(e, c.d) && DeskPcOk(e, c.d, t, pc) && UploadStep(e, c, pc, o).Some?
    ensures DeskKept(e, c, t, pc, UploadStep(e, c, pc, o).value)
  {
    var n := UploadStep(e, c, pc, o).value;
    if o.Progress? || o.Cut? {
      WritePartOk(e, c.d, pc.part, pc.body[..o.n]);
    } else if o.Ok? {
      WritePartOk(e, c.d, pc.part, pc.body);
    } else {
      RemoveFileOk(e, c.d, PartFile(pc.part), pc.part.upload);
    }
    UploadWithin(c.d, n.core.d, t, pc, pc.part.upload);
  }

  lemma RemovedDirIsGone(d: Desk, u: UploadId, o: Outcome)
    requires RemoveDir(d, u, o).Some?
    ensures Gone(RemoveDir(d, u, o).value, u) && RemoveDir(d, u, o).value.uploads == d.uploads
  {
  }

  lemma UploadDeskPc(e: Env, c: Core, t: Tid, pc: Pc, o: Outcome)
    requires DeskOk(e, c.d) && DeskPcOk(e, c.d, t, pc) && UploadStep(e, c, pc, o).Some?
    ensures DeskPcOk(e, UploadStep(e, c, pc, o).value.core.d, t, UploadStep(e, c, pc, o).value.pc)
  {
    hide ProtocolInv.DeskOk;
    hide ProtocolSteps.RemoveDir;
    hide ProtocolSteps.MaybeDeleteUpload;
    if pc.AbDir? { RemovedDirIsGone(c.d, pc.upload, o); }
  }

  lemma {:induction false} Ascending(list: seq<PartRef>, i: nat, j: nat)
    requires forall n :: 0 < n < |list| ==> list[n - 1].number < list[n].number
    requires i < j < |list|
    ensures list[i].number < list[j].number
  {
    if i + 1 < j { Ascending(list, i, j - 1); }
  }

  lemma CompleteDeskOk(e: Env, c: Core, t: Tid, pc: Pc, o: Outcome)
    requires DeskOk(e, c.d) && DeskPcOk(e, c.d, t, pc) && CompleteStep(c, pc, o).Some?
    ensures DeskKept(e, c, t, pc, CompleteStep(c, pc, o).value)
  {
    hide ProtocolInv.DeskOk;
    hide ProtocolInv.DeskGuarantee;
    hide ProtocolSteps.ValidList;
    hide ProtocolSteps.WriteFile;
    hide ProtocolSteps.RemoveFile;
    hide ProtocolSteps.Rename;
    var n := CompleteStep(c, pc, o).value;
    SameDesk(c.d, t, KeyHeld(pc));
    match pc
    case CoDir(_, u, _) => MkDirOk(e, c.d, u); UploadWithin(c.d, n.core.d, t, pc, u);
    case CoOpen(_, u, _) => WritePartialOk(e, c.d, u, []); UploadWithin(c.d, n.core.d, t, pc, u);
    case CoCopy(_, u, list, _, copied) =>
      if |copied| == |list| { RenameOk(e, c.d, u, copied); }
      else if o.Ok? { WritePartialOk(e, c.d, u, Cat(n.pc.copied)); }
      else if o.Fail? { RemoveFileOk(e, c.d, Partial(u), u); }
      else { WritePartialOk(e, c.d, u, Cat(copied) + Head(Lookup(c.d.files, Source(u, list[|copied|])), o.n)); }
      UploadWithin(c.d, n.core.d, t, pc, u);
    case CoConsume(_, u, _, _, copied) =>
      RemoveFileOk(e, c.d, Source(u, copied[|copied| - 1].ref), u);
      UploadWithin(c.d, n.core.d, t, pc, u);
    case _ =>
  }

  lemma CompleteClaims(e: Env, c: Core, t: Tid, pc: Pc, o: Outcome)
    requires ClaimsOk(c.d, pc) && CompleteStep(c, pc, o).Some?
    ensures ClaimsOk(CompleteStep(c, pc, o).value.core.d, CompleteStep(c, pc, o).value.pc)
  {
  }

  lemma CompleteDeskPc(e: Env, c: Core, t: Tid, pc: Pc, o: Outcome)
    requires DeskOk(e, c.d) && DeskPc(e, c.d, t, pc) && CompleteStep(c, pc, o).Some?
    ensures DeskPc(e, CompleteStep(c, pc, o).value.core.d, t, CompleteStep(c, pc, o).value.pc)
  {
    hide ProtocolInv.DeskOk;
    hide ProtocolInv.CopyOk;
    hide ProtocolSteps.WriteFile;
    hide ProtocolSteps.RemoveFile;
    hide ProtocolSteps.Rename;
    match pc
    case CoHash(_, _) => if o.Ok? { CoHashPc(e, c, t, pc, o); }
    case CoOpen(_, _, _) => if o.Ok? { CoOpenPc(e, c, t, pc, o); }
    case CoCopy(_, _, _, _, _) => CoCopyDeskPc(e, c, t, pc, o);
    case CoConsume(_, _, _, _, _) => if o.Ok? { CoConsumePc(e, c, t, pc, o); }
    case _ =>
  }

  lemma CoHashPc(e: Env, c: Core, t: Tid, pc: Pc, o: Outcome)
    requires pc.CoHash? && o.Ok? && DeskOk(e, c.d) && CompleteStep(c, pc, o).Some?
    ensures DeskPc(e, CompleteStep(c, pc, o).value.core.d, t, CompleteStep(c, pc, o).value.pc)
  {
  }

  lemma CoOpenPc(e: Env, c: Core, t: Tid, pc: Pc, o: Outcome)
    requires pc.CoOpen? && o.Ok? && DeskPc(e, c.d, t, pc) && CompleteStep(c, pc, o).Some?
    ensures DeskPc(e, CompleteStep(c, pc, o).value.core.d, t, CompleteStep(c, pc, o).value.pc)
  {
  }

  lemma CoCopyDeskPc(e: Env, c: Core, t: Tid, pc: Pc, o: Outcome)
    requires pc.CoCopy? && DeskOk(e, c.d) && DeskPc(e, c.d, t, pc) && CompleteStep(c, pc, o).Some?
    ensures DeskPc(e, CompleteStep(c, pc, o).value.core.d, t, CompleteStep(c, pc, o).value.pc)
  {
    if |pc.copied| < |pc.list| && o.Ok? { CoCopyPc(e, c, t, pc, o); }
  }

  /** Copying the next part keeps the copied pieces in step with the plan. */
  lemma CoCopyPc(e: Env, c: Core, t: Tid, pc: Pc, o: Outcome)
    requires pc.CoCopy? && |pc.copied| < |pc.list| && o.Ok? && CompleteStep(c, pc, o).Some?
    requires DeskOk(e, c.d) && CopyOk(e, c.d, pc.upload, pc.list, pc.plan, pc.copied)
    ensures CompleteStep(c, pc, o).value.pc.CoConsume?
    ensures DeskPc(e, CompleteStep(c, pc, o).value.core.d, t, CompleteStep(c, pc, o).value.pc)
  {
    var i := |pc.copied|;
    assert Lookup(c.d.files, Source(pc.upload, pc.list[i])) == pc.plan[i];
    assert Lookup(c.d.parts, PartId(pc.upload, pc.list[i].number)) == Some(pc.list[i].etag);
  }

  /** Removing a copied part leaves the parts still to be copied. */
  lemma CoConsumePc(e: Env, c: Core, t: Tid, pc: Pc, o: Outcome)
    requires pc.CoConsume? && pc.copied != [] && o.Ok? && CompleteStep(c, pc, o).Some?
    requires CopyOk(e, c.d, pc.upload, pc.list, pc.plan, pc.copied)
    ensures CopyOk(e, CompleteStep(c, pc, o).value.core.d, pc.upload, pc.list, pc.plan, pc.copied)
  {
    var i := |pc.copied| - 1;
    forall m | i < m < |pc.list| ensures pc.list[m].number != pc.copied[i].ref.number {
      Ascending(pc.list, i, m);
    }
  }

  // The step functions are about different points of a request.

  lemma DeleteIsLocal(e: Env, c: Core, t: Tid, pc: Pc, o: Outcome)
    requires DeleteStep(c, t, pc, o).Some?
    ensures Local(e, c, t, pc, o) == DeleteStep(c, t, pc, o)
  {
  }

  lemma UploadIsLocal(e: Env, c: Core, t: Tid, pc: Pc, o: Outcome)
    requires UploadStep(e, c, pc, o).Some?
    ensures Local(e, c, t, pc, o) == UploadStep(e, c, pc, o)
  {
  }

  lemma CompleteIsLocal(e: Env, c: Core, t: Tid, pc: Pc, o: Outcome)
    requires CompleteStep(c, pc, o).Some?
    ensures Local(e, c, t, pc, o) == CompleteStep(c, pc, o)
  {
  }

  lemma GetIsLocal(e: Env, c: Core, t: Tid, pc: Pc, o: Outcome)
    requires GetStep(c, pc, o).Some?
    ensures Local(e, c, t, pc, o) == GetStep(c, pc, o)
  {
  }

  // ---- Any step of a request ----

  lemma LocalControl(e: Env, c: Core, t: Tid, pc: Pc, o: Outcome)
    requires Local(e, c, t, pc, o).Some?
    ensures LocksShrink(e, pc, Local(e, c, t, pc, o).value.pc)
    ensures LogStep(c.v, Local(e, c, t, pc, o).value.core.v, t, pc, Local(e, c, t, pc, o).value.pc)
  {
    if CommitStep(e, c, t, pc, o).Some? { CommitControl(e, c, t, pc, o); CommitLog(e, c, t, pc, o); }
    else if DeleteStep(c, t, pc, o).Some? { DeleteControl(e, c, t, pc, o); }
    else if UploadStep(e, c, pc, o).Some? { UploadControl(e, c, t, pc, o); }
    else if CompleteStep(c, pc, o).Some? { CompleteControl(e, c, t, pc, o); }
    else { GetControl(e, c, t, pc, o); }
  }

  lemma LocalServes(r: Request, e: Env, c: Core, t: Tid, pc: Pc, o: Outcome)
    requires Serves(r, pc) && Local(e, c, t, pc, o).Some?
    ensures Serving(r, c.v, Local(e, c, t, pc, o).value)
  {
    if CommitStep(e, c, t, pc, o).Some? { CommitServes(r, e, c, t, pc, o); }
    else if DeleteStep(c, t, pc, o).Some? { DeleteServes(r, c, t, pc, o); }
    else if UploadStep(e, c, pc, o).Some? { UploadServes(r, e, c, pc, o); }
    else if CompleteStep(c, pc, o).Some? { CompleteServes(r, c, pc, o); }
    else { GetServes(r, c, pc, o); }
  }

  lemma LocalVaultOk(e: Env, c: Core, t: Tid, pc: Pc, o: Outcome)
    requires VaultOk(e, c.v) && VaultPc(e, c.v, pc) && DeskPcOk(e, c.d, t, pc) && Local(e, c, t, pc, o).Some?
    ensures VaultKept(e, c, pc, Local(e, c, t, pc, o).value)
    ensures VaultPc(e, Local(e, c, t, pc, o).value.core.v, Local(e, c, t, pc, o).value.pc)
  {
    if CommitStep(e, c, t, pc, o).Some? { CommitVaultOk(e, c, t, pc, o); CommitVaultPc(e, c, t, pc, o); }
    else if DeleteStep(c, t, pc, o).Some? { DeleteVaultOk(e, c, t, pc, o); DeleteVaultPc(e, c, t, pc, o); }
    else if UploadStep(e, c, pc, o).Some? { UploadVaultPc(e, c, pc, o); }
    else if CompleteStep(c, pc, o).Some? { CompleteVaultPc(e, c, pc, o); }
    else { GetVaultPc(e, c, pc, o); }
  }

  lemma LocalDeskOk(e: Env, c: Core, t: Tid, pc: Pc, o: Outcome)
    requires DeskOk(e, c.d) && DeskPcOk(e, c.d, t, pc) && Local(e, c, t, pc, o).Some?
    requires VaultOk(e, c.v) && VaultPc(e, c.v, pc)
    ensures DeskKept(e, c, t, pc, Local(e, c, t, pc, o).value)
    ensures DeskPcOk(e, Local(e, c, t, pc, o).value.core.d, t, Local(e, c, t, pc, o).value.pc)
  {
    hide ProtocolInv.VaultOk;
    hide ProtocolInv.DeskOk;
    hide ProtocolInv.VaultPc;
    hide ProtocolInv.DeskGuarantee;
    hide ProtocolInv.DeskPc;
    hide ProtocolInv.ClaimsOk;
    hide ProtocolSteps.CommitStep;
    hide ProtocolSteps.DeleteStep;
    hide ProtocolSteps.UploadStep;
    hide ProtocolSteps.CompleteStep;
    hide ProtocolSteps.GetStep;
    if CommitStep(e, c, t, pc, o).Some? { CommitDeskOk(e, c, t, pc, o); CommitDeskPc(e, c, t, pc, o); }
    else if DeleteStep(c, t, pc, o).Some? { DeleteDeskOk(e, c, t, pc, o); DeleteDeskPc(e, c, t, pc, o); }
    else if UploadStep(e, c, pc, o).Some? { UploadDeskOk(e, c, t, pc, o); UploadDeskPc(e, c, t, pc, o); }
    else if CompleteStep(c, pc, o).Some? {
      CompleteDeskOk(e, c, t, pc, o);
      CompleteClaims(e, c, t, pc, o);
      CompleteDeskPc(e, c, t, pc, o);
    }
    else {
      GetVaultPc(e, c, pc, o);
      GetDeskPc(e, c, t, pc, o);
      SameDesk(c.d, t, KeyHeld(pc));
    }
  }
}
