/**
 What holds between any two steps of any interleaving.

 `VaultOk` and `DeskOk` speak of the shared state, `PcOk` of one request and the shared
 state. A step of one request changes no more than `Guarantee` allows for the lock it holds,
 and `PcOk` survives every change that is `Calm` for what the other request relies on.
 */
module ProtocolInv {
  import opened Wrappers
  import opened Pbs
  import opened ProtocolState
  import opened ProtocolSteps

  // ---- The shared state ----

  /** A mapping's snapshot was made for that very key, with the recorded size and ETag. */
  ghost predicate MappingOk(e: Env, v: Vault, k: ObjKey, m: Mapping) {
    m.at in v.made && v.made[m.at].key == k && m.size == |v.made[m.at].bytes| && m.etag == e.md5(v.made[m.at].bytes)
  }

  ghost predicate ObjectsOk(e: Env, v: Vault) {
    forall k :: k in v.objects ==> MappingOk(e, v, k, v.objects[k])
  }

  ghost predicate SnapshotsOk(v: Vault) {
    && (forall x :: x in v.live ==> x in v.made && v.live[x] == v.made[x].bytes)
    && (forall x :: x in v.made ==> x.group in v.high && x.time <= v.high[x.group])
  }

  /** A mapped key has lost its snapshot exactly when a DeleteObject has forgotten it. */
  ghost predicate DoomedOk(v: Vault) {
    && v.doomed <= v.objects.Keys
    && (forall k :: k in v.objects ==> (k in v.doomed <==> v.objects[k].at !in v.live))
  }

  ghost predicate VaultOk(e: Env, v: Vault) {
    ObjectsOk(e, v) && SnapshotsOk(v) && DoomedOk(v) && Replay(v.log) == Abstract(v)
  }

  /** Records come before directories and parts, and go after them unless a removal failed. */
  ghost predicate UploadsOk(d: Desk) {
    && d.uploads.Keys <= d.ever
    && d.orphans <= d.ever
    && d.dirs <= d.uploads.Keys + d.orphans
    && (forall p :: p in d.parts ==> p.upload in d.uploads)
  }

  /** Scratch files lie in existing directories; `final.img` is always a whole concatenation. */
  ghost predicate FilesOk(d: Desk) {
    && (forall f :: f in d.files && UploadOf(f).Some? ==> UploadOf(f).value in d.dirs)
    && (forall u :: Final(u) in d.files ==> u in d.built && d.files[Final(u)] == Cat(d.built[u]))
  }

  ghost predicate PiecesOk(e: Env, ps: seq<Piece>) {
    forall i :: 0 <= i < |ps| && ps[i].sound ==> e.md5(ps[i].bytes) == ps[i].ref.etag
  }

  /** A recorded part's file carries the recorded ETag unless a re-upload was cut short. */
  ghost predicate PartsOk(e: Env, d: Desk) {
    && (forall p :: p in d.parts && p !in d.dirty && PartFile(p) in d.files ==>
          e.md5(d.files[PartFile(p)]) == d.parts[p])
    && (forall u :: u in d.built ==> PiecesOk(e, d.built[u]))
  }

  ghost predicate DeskOk(e: Env, d: Desk) {
    UploadsOk(d) && FilesOk(d) && PartsOk(e, d)
  }

  // ---- One request and the object table ----

  /** The commit's new snapshot is live, holds its bytes, and no mapping points to it yet. */
  ghost predicate NewSnapOk(e: Env, v: Vault, j: Job, time: int) {
    var x := Coord(e.groupOf(j.key), time);
    && Lookup(v.made, x) == Some(Snap(j.body, j.key))
    && Lookup(v.live, x) == Some(j.body)
    && (j.key in v.objects ==> v.objects[j.key].at != x)
  }

  /** The superseded snapshot was made for this key, which now points elsewhere. */
  ghost predicate Superseded(v: Vault, k: ObjKey, x: Coord) {
    x in v.made && v.made[x].key == k && k in v.objects && v.objects[k].at != x
  }

  ghost predicate SeenOk(v: Vault, since: nat, at: nat, k: ObjKey, b: Bytes) {
    since <= at <= |v.log| && Lookup(Replay(v.log[..at]), k) == Some(b)
  }

  ghost predicate VaultPc(e: Env, v: Vault, pc: Pc) {
    match pc
    case Ungroup(j, used) => used.Some? ==> NewSnapOk(e, v, j, used.value)
    case RemoveSrc(j, time) => NewSnapOk(e, v, j, time)
    case Notes(j, time) => NewSnapOk(e, v, j, time)
    case ReadOld(j, time) => NewSnapOk(e, v, j, time)
    case WriteMap(j, time, seen) => NewSnapOk(e, v, j, time) && seen == Lookup(v.objects, j.key)
    case ForgetOld(j, prev, _) => Superseded(v, j.key, prev.at)
    case DelForget(k, prev, _) => Lookup(v.objects, k) == Some(prev)
    case DelUnmap(k) =>
      && k in v.objects && v.objects[k].at in v.made && v.made[v.objects[k].at].key == k
      && v.objects[k].at !in v.live
    case Reading(_, since) => since <= |v.log|
    case Restoring(k, since, at, m) => m.at in v.made && SeenOk(v, since, at, k, v.made[m.at].bytes)
    case Done(r) => r.Body? ==> SeenOk(v, r.since, r.at, r.key, r.bytes)
    case Unlock(_, r) => !r.Body?
    case RmDir(_, _, r) => !r.Body?
    case RmRec(_, _, r) => !r.Body?
    case _ => true
  }

  // ---- One request and the scratch disk ----

  ghost predicate ClaimsOk(d: Desk, pc: Pc) {
    forall u :: u in Claims(pc) ==> u in d.uploads && Some(d.uploads[u]) == KeyHeld(pc)
  }

  predicate OwnFile(t: Tid, j: Job) {
    j.file == if j.via.Some? then Final(j.via.value) else Tmp(t)
  }

  /** A completing commit carries exactly the pieces of the last rename to `final.img`. */
  ghost predicate JobOk(d: Desk, j: Job) {
    j.via.Some? ==> j.via.value in d.built && Cat(d.built[j.via.value]) == j.body
  }

  ghost predicate SourceOk(d: Desk, t: Tid, j: Job) {
    OwnFile(t, j) && Lookup(d.files, j.file) == Some(j.body) && JobOk(d, j)
  }

  ghost predicate Gone(d: Desk, u: UploadId) {
    u !in d.dirs || u in d.orphans
  }

  predicate Waitable(k: ObjKey, next: Pc) {
    match next
    case Clock(j) => j.key == k && j.via.None?
    case DelRead(_) => next.key == k
    case MkRec(_) => next.key == k
    case UpGet(_, _, _) => next.key == k
    case CoGet(_, _, _) => next.key == k
    case AbGet(_, _) => next.key == k
    case _ => false
  }

  /** The copied pieces are the first of the plan; the rest of the plan is still on disk. */
  ghost predicate CopyOk(
    e: Env, d: Desk, u: UploadId, list: seq<PartRef>, plan: seq<Option<Bytes>>, copied: seq<Piece>)
  {
    && ValidList(d.parts, u, list)
    && u in d.dirs
    && |copied| <= |list| == |plan|
    && Lookup(d.files, Partial(u)) == Some(Cat(copied))
    && PiecesOk(e, copied)
    && (forall i :: 0 <= i < |copied| ==> copied[i].ref == list[i] && plan[i] == Some(copied[i].bytes))
    && (forall i :: |copied| <= i < |list| ==> Lookup(d.files, Source(u, list[i])) == plan[i])
  }

  ghost predicate DeskPc(e: Env, d: Desk, t: Tid, pc: Pc) {
    match pc
    case Wait(k, next) => Waitable(k, next) && (next.Clock? ==> SourceOk(d, t, next.job))
    case Clock(j) => SourceOk(d, t, j)
    case WaitGroup(j, _) => SourceOk(d, t, j)
    case Backing(j, _, _, _) => SourceOk(d, t, j)
    case Ungroup(j, used) => SourceOk(d, t, j)
    case RemoveSrc(j, time) => SourceOk(d, t, j)
    case Notes(j, time) => JobOk(d, j)
    case ReadOld(j, time) => JobOk(d, j)
    case WriteMap(j, time, seen) => JobOk(d, j)
    case RmRec(_, u, _) => Gone(d, u)
    case DelDirs(_, us) => Distinct(us)
    case DelRecs(_, us) => Distinct(us) && us != [] && Gone(d, us[0])
    case UpOpen(_, p, _) => p.upload in d.dirs
    case UpWrite(_, p, _) => p.upload in d.dirs && p in d.dirty
    case UpRec(_, p, body) => Lookup(d.files, PartFile(p)) == Some(body)
    case CoDir(_, u, list) => ValidList(d.parts, u, list)
    case CoStat(_, u, list) => ValidList(d.parts, u, list) && u in d.dirs
    case CoOpen(_, u, list) => ValidList(d.parts, u, list) && u in d.dirs
    case CoCopy(_, u, list, plan, copied) => CopyOk(e, d, u, list, plan, copied)
    case CoConsume(_, u, list, plan, copied) => copied != [] && CopyOk(e, d, u, list, plan, copied)
    case AbRec(_, u) => Gone(d, u)
    case _ => true
  }

  ghost predicate PcOk(e: Env, c: Core, t: Tid, pc: Pc) {
    VaultPc(e, c.v, pc) && ClaimsOk(c.d, pc) && DeskPc(e, c.d, t, pc)
  }

  // ---- A request and what it was asked ----

  predicate JobFor(r: Request, j: Job) {
    && j.key == r.key
    && (if j.via.None? then r == PutObject(j.key, j.body) else r.CompleteMultipartUpload? && r.upload == j.via.value)
  }

  predicate RespFor(r: Request, resp: Resp) {
    && (resp.Stored? ==> r.PutObject? || r.CompleteMultipartUpload?)
    && (resp.Removed? ==> r.DeleteObject?)
    && (resp.Body? ==> r == GetObject(resp.key))
  }

  /** The program counter works on the request's own key, body and upload. */
  predicate Serves(r: Request, pc: Pc) {
    match pc
    case Wait(k, next) => k == r.key && Serves(r, next)
    case Unlock(k, resp) => k == r.key && RespFor(r, resp)
    case Done(resp) => RespFor(r, resp)
    case Dead(_) => true
    case Staging(k, body) => r == PutObject(k, body)
    case Clock(j) => JobFor(r, j)
    case WaitGroup(j, _) => JobFor(r, j)
    case Backing(j, _, _, _) => JobFor(r, j)
    case Ungroup(j, _) => JobFor(r, j)
    case RemoveSrc(j, _) => JobFor(r, j)
    case Notes(j, _) => JobFor(r, j)
    case ReadOld(j, _) => JobFor(r, j)
    case WriteMap(j, _, _) => JobFor(r, j)
    case ForgetOld(j, _, _) => JobFor(r, j)
    case RmDir(k, u, resp) => r.CompleteMultipartUpload? && r.key == k && r.upload == u && RespFor(r, resp)
    case RmRec(k, u, resp) => r.CompleteMultipartUpload? && r.key == k && r.upload == u && RespFor(r, resp)
    case DelRead(k) => r == DeleteObject(k)
    case DelForget(k, _, _) => r == DeleteObject(k)
    case DelUnmap(k) => r == DeleteObject(k)
    case DelFind(k) => r == DeleteObject(k)
    case DelDirs(k, _) => r == DeleteObject(k)
    case DelRecs(k, _) => r == DeleteObject(k)
    case Reading(k, _) => r == GetObject(k)
    case Restoring(k, _, _, _) => r == GetObject(k)
    case CoGet(k, u, list) => r == CompleteMultipartUpload(k, u, list)
    case CoList(k, u, list) => r == CompleteMultipartUpload(k, u, list)
    case CoDir(k, u, list) => r == CompleteMultipartUpload(k, u, list)
    case CoStat(k, u, list) => r == CompleteMultipartUpload(k, u, list)
    case CoHash(k, u) => r.CompleteMultipartUpload? && r.key == k && r.upload == u
    case CoOpen(k, u, list) => r == CompleteMultipartUpload(k, u, list)
    case CoCopy(k, u, list, _, _) => r == CompleteMultipartUpload(k, u, list)
    case CoConsume(k, u, list, _, _) => r == CompleteMultipartUpload(k, u, list)
    case MkRec(k) => r == CreateMultipartUpload(k)
    case UpGet(k, p, body) => r == UploadPart(k, p, body)
    case UpDir(k, p, body) => r == UploadPart(k, p, body)
    case UpOpen(k, p, body) => r == UploadPart(k, p, body)
    case UpWrite(k, p, body) => r == UploadPart(k, p, body)
    case UpRec(k, p, body) => r == UploadPart(k, p, body)
    case UpTouch(k, p) => r.UploadPart? && r.key == k && r.part == p
    case AbGet(k, u) => r == AbortMultipartUpload(k, u)
    case AbDir(k, u) => r == AbortMultipartUpload(k, u)
    case AbRec(k, u) => r == AbortMultipartUpload(k, u)
  }

  /** An effect that request r may have: it sets its own key to its own body, or removes it. */
  predicate EffectFor(r: Request, x: Effect) {
    match x
    case Put(_, k, b) => k == r.key && (r == PutObject(k, b) || r.CompleteMultipartUpload?)
    case Del(_, k) => r == DeleteObject(k)
  }

  // ---- Interference ----

  ghost predicate VaultGrows(v: Vault, w: Vault) {
    && (forall x :: x in v.made ==> x in w.made && w.made[x] == v.made[x])
    && v.log <= w.log
  }

  ghost predicate SameKey(v: Vault, w: Vault, k: ObjKey) {
    && Lookup(v.objects, k) == Lookup(w.objects, k)
    && (forall x :: x in v.made && v.made[x].key == k ==> Lookup(v.live, x) == Lookup(w.live, x))
  }

  ghost predicate SameUpload(d: Desk, f: Desk, u: UploadId) {
    && Lookup(d.uploads, u) == Lookup(f.uploads, u)
    && (u in d.dirs <==> u in f.dirs)
    && Lookup(d.built, u) == Lookup(f.built, u)
    && (forall p: PartId :: p.upload == u ==> Lookup(d.parts, p) == Lookup(f.parts, p) && (p in d.dirty <==> p in f.dirty))
    && (forall x: File :: UploadOf(x) == Some(u) ==> Lookup(d.files, x) == Lookup(f.files, x))
  }

  /** Nothing changed that a request relies on when it holds this lock. */
  ghost predicate VaultCalm(v: Vault, w: Vault, key: Option<ObjKey>) {
    VaultGrows(v, w) && (key.Some? ==> SameKey(v, w, key.value))
  }

  /** Nothing changed that request t relies on when it claims these uploads. */
  ghost predicate DeskCalm(d: Desk, f: Desk, t: Tid, claims: set<UploadId>) {
    && d.orphans <= f.orphans
    && (forall u :: u in claims ==> SameUpload(d, f, u))
    && Lookup(d.files, Tmp(t)) == Lookup(f.files, Tmp(t))
  }

  /** The most that a step may change in the vault while its request holds this lock, if any. */
  ghost predicate VaultGuarantee(v: Vault, w: Vault, key: Option<ObjKey>) {
    VaultGrows(v, w) && (forall k :: Some(k) != key ==> SameKey(v, w, k))
  }

  /** The most that a step of request t may change on the desk while it holds this lock, if any. */
  ghost predicate DeskGuarantee(d: Desk, f: Desk, t: Tid, key: Option<ObjKey>) {
    && d.orphans <= f.orphans
    && d.ever <= f.ever
    && (forall u :: u in d.uploads && Some(d.uploads[u]) != key ==> SameUpload(d, f, u))
    && (forall u :: u in d.ever && u !in d.uploads ==> u !in f.uploads)
    && (forall o: Tid :: o != t ==> Lookup(d.files, Tmp(o)) == Lookup(f.files, Tmp(o)))
  }

  ghost predicate Guarantee(c: Core, d: Core, t: Tid, key: Option<ObjKey>) {
    VaultGuarantee(c.v, d.v, key) && DeskGuarantee(c.d, d.d, t, key)
  }

  lemma GuaranteeSuffices(c: Core, d: Core, t: Tid, key: Option<ObjKey>, o: Tid, pc: Pc)
    requires Guarantee(c, d, t, key) && o != t
    requires KeyHeld(pc).None? || KeyHeld(pc) != key
    requires ClaimsOk(c.d, pc)
    ensures VaultCalm(c.v, d.v, KeyHeld(pc)) && DeskCalm(c.d, d.d, o, Claims(pc))
  {
  }

  lemma SeenStable(v: Vault, w: Vault, since: nat, at: nat, k: ObjKey, b: Bytes)
    requires SeenOk(v, since, at, k, b) && v.log <= w.log
    ensures SeenOk(w, since, at, k, b)
  {
    assert w.log[..at] == v.log[..at];
  }

  lemma VaultPcStable(e: Env, v: Vault, w: Vault, pc: Pc)
    requires VaultPc(e, v, pc) && VaultCalm(v, w, KeyHeld(pc))
    ensures VaultPc(e, w, pc)
  {
    match pc
    case Restoring(k, since, at, m) => SeenStable(v, w, since, at, k, v.made[m.at].bytes);
    case Done(r) => if r.Body? { SeenStable(v, w, r.since, r.at, r.key, r.bytes); }
    case _ =>
  }

  lemma CopyStable(
    e: Env, d: Desk, f: Desk, u: UploadId, list: seq<PartRef>, plan: seq<Option<Bytes>>, copied: seq<Piece>)
    requires CopyOk(e, d, u, list, plan, copied) && SameUpload(d, f, u)
    ensures CopyOk(e, f, u, list, plan, copied)
  {
  }

  lemma SourceStable(d: Desk, f: Desk, t: Tid, j: Job)
    requires SourceOk(d, t, j) && DeskCalm(d, f, t, Via(j))
    ensures SourceOk(f, t, j)
  {
  }

  lemma ClaimsStable(d: Desk, f: Desk, t: Tid, pc: Pc)
    requires ClaimsOk(d, pc) && DeskCalm(d, f, t, Claims(pc))
    ensures ClaimsOk(f, pc)
  {
  }

  predicate HasSource(pc: Pc) {
    pc.Clock? || pc.WaitGroup? || pc.Backing? || pc.Ungroup? || pc.RemoveSrc?
  }

  lemma DeskPcStable(e: Env, d: Desk, f: Desk, t: Tid, pc: Pc)
    requires DeskPc(e, d, t, pc) && DeskCalm(d, f, t, Claims(pc))
    ensures DeskPc(e, f, t, pc)
  {
    if HasSource(pc) {
      SourceStable(d, f, t, pc.job);
    } else {
      OtherPcStable(e, d, f, t, pc);
    }
  }

  lemma OtherPcStable(e: Env, d: Desk, f: Desk, t: Tid, pc: Pc)
    requires !HasSource(pc) && DeskPc(e, d, t, pc) && DeskCalm(d, f, t, Claims(pc))
    ensures DeskPc(e, f, t, pc)
  {
    match pc
    case Wait(_, next) => if next.Clock? { SourceStable(d, f, t, next.job); }
    case DelRecs(_, us) => assert us[0] in Claims(pc);
    case CoCopy(_, u, list, plan, copied) => CopyStable(e, d, f, u, list, plan, copied);
    case CoConsume(_, u, list, plan, copied) => CopyStable(e, d, f, u, list, plan, copied);
    case _ =>
  }
}
