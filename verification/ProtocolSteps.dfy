/**
 The steps of the bridge. Every store, PBS or filesystem call is one step of the request that
 makes it; `Outcome` says how the call ended. A store or filesystem call that fails has no
 effect, unless the code itself leaves one; a PBS call may fail after taking effect. A crash
 may come between any two steps. A failed write and the removal of its file are one step.
 */
module ProtocolSteps {
  import opened Wrappers
  import opened Pbs
  import opened ProtocolState

  datatype Outcome =
    | Ok
    | Fail(kind: ErrClass, after: bool)  // `after`: the PBS call failed after it took effect
    | Partly(kept: set<File>)             // a directory removal that failed half-way
    | Progress(n: nat)                    // a part's file after its first n bytes are written
    | Cut(n: nat)                         // a write failed after n bytes, and so did removing the file
    | Time(now: int)
    | Id(upload: UploadId)
    | Found(ids: seq<UploadId>)

  datatype Next = Next(core: Core, pc: Pc)

  // ---- PBS invocations ----

  function Accept(v: Vault, x: Coord, bytes: Bytes, key: ObjKey): Vault {
    v.(live := v.live[x := bytes], high := v.high[x.group := x.time], made := v.made[x := Snap(bytes, key)])
  }

  /** One `backup` invocation: the new state, or None when the outcome cannot happen. */
  function Backup(c: Core, x: Coord, j: Job, o: Outcome): Option<Vault> {
    if (o.Ok? || (o.Fail? && o.after)) && Accepts(c.v.high, x) && j.file in c.d.files
    then Some(Accept(c.v, x, c.d.files[j.file], j.key))
    else if o.Fail? && !o.after then Some(c.v)
    else None
  }

  /** One `forget` invocation: a missing snapshot counts as forgotten. */
  function Forget(v: Vault, x: Coord, o: Outcome): Option<Vault> {
    if o.Ok? && x in v.live then Some(v.(live := v.live - {x}))
    else if o.Fail? && o.kind.Missing? then (if x in v.live || o.after then None else Some(v))
    else if o.Fail? && o.after then Some(v.(live := v.live - {x}))
    else if o.Fail? then Some(v)
    else None
  }

  predicate Forgotten(o: Outcome) {
    o.Ok? || (o.Fail? && o.kind.Missing?)
  }

  predicate Retries(o: Outcome, tries: nat) {
    o.Fail? && o.kind.Transient? && tries < MAX_TRANSIENT_RETRIES
  }

  // ---- Scratch directories and upload records ----

  function RemoveDir(d: Desk, u: UploadId, o: Outcome): Option<Desk> {
    if o.Ok? then
      Some(d.(files := map f | f in d.files && UploadOf(f) != Some(u) :: d.files[f], dirs := d.dirs - {u}))
    else if o.Partly? then
      Some(d.(files := map f | f in d.files && (UploadOf(f) != Some(u) || f in o.kept) :: d.files[f],
              orphans := d.orphans + {u}))
    else None
  }

  /** DeleteUpload: one transaction removes the record and all its parts. */
  function DeleteUpload(d: Desk, u: UploadId): Desk {
    d.(uploads := d.uploads - {u}, parts := map p | p in d.parts && p.upload != u :: d.parts[p])
  }

  function MaybeDeleteUpload(d: Desk, u: UploadId, o: Outcome): Option<Desk> {
    if o.Ok? then Some(DeleteUpload(d, u)) else if o.Fail? then Some(d) else None
  }

  function NewUpload(d: Desk, u: UploadId, k: ObjKey): Desk {
    d.(uploads := d.uploads[u := k], ever := d.ever + {u})
  }

  function MkDir(d: Desk, u: UploadId): Desk {
    d.(dirs := d.dirs + {u})
  }

  function WriteFile(d: Desk, f: File, bytes: Bytes): Desk {
    d.(files := d.files[f := bytes])
  }

  function RemoveFile(d: Desk, f: File): Desk {
    d.(files := d.files - {f})
  }

  /** os.Create on a part's path empties any earlier attempt. */
  function OpenPart(d: Desk, p: PartId): Desk {
    WriteFile(d, PartFile(p), []).(dirty := d.dirty + {p})
  }

  function PutPart(d: Desk, p: PartId, etag: string): Desk {
    d.(parts := d.parts[p := etag], dirty := d.dirty - {p})
  }

  /** The rename that makes a finished concatenation visible as `final.img`. */
  function Rename(d: Desk, u: UploadId, copied: seq<Piece>): Desk {
    d.(files := (d.files - {Partial(u)})[Final(u) := Cat(copied)], built := d.built[u := copied])
  }

  // ---- commitObjectLocked and cleanupUpload ----

  function AfterBackup(j: Job, time: int, bumps: nat, tries: nat, o: Outcome): Pc {
    if o.Ok? then Ungroup(j, Some(time))
    else if Retries(o, tries) then Backing(j, time, bumps, tries + 1)
    else if o.Fail? && o.kind.Collision? && bumps < MAX_COLLISION_RETRIES then Backing(j, time + 1, bumps + 1, 1)
    else Ungroup(j, None)
  }

  function Finish(j: Job): Pc {
    if j.via.Some? then RmDir(j.key, j.via.value, Stored) else Unlock(j.key, Stored)
  }

  function NewMapping(e: Env, j: Job, time: int): Mapping {
    Mapping(Coord(e.groupOf(j.key), time), |j.body|, e.md5(j.body))
  }

  /** PutObjectMapping, the step at which a commit takes effect. */
  function PutMapping(e: Env, v: Vault, t: Tid, j: Job, time: int): Vault {
    v.(objects := v.objects[j.key := NewMapping(e, j, time)],
       log := v.log + [Put(t, j.key, j.body)],
       doomed := v.doomed - {j.key})
  }

  function CommitStep(e: Env, c: Core, t: Tid, pc: Pc, o: Outcome): Option<Next> {
    match pc
    case Staging(k, body) =>
      if o.Ok? then
        var j := Job(k, Tmp(t), body, None);
        Some(Next(c.(d := WriteFile(c.d, Tmp(t), body)), Wait(k, Clock(j))))
      else if o.Fail? then Some(Next(c, Done(Failed)))
      else None
    case Clock(j) =>
      if o.Time? then Some(Next(c, WaitGroup(j, o.now))) else None
    case Backing(j, time, bumps, tries) =>
      var r := Backup(c, Coord(e.groupOf(j.key), time), j, o);
      if r.Some? then Some(Next(c.(v := r.value), AfterBackup(j, time, bumps, tries, o))) else None
    case Ungroup(j, used) =>
      Some(Next(c, if used.Some? then RemoveSrc(j, used.value) else Unlock(j.key, Failed)))
    case RemoveSrc(j, time) =>
      if o.Ok? then Some(Next(c.(d := RemoveFile(c.d, j.file)), Notes(j, time)))
      else if o.Fail? then Some(Next(c, Notes(j, time)))
      else None
    case Notes(j, time) =>
      Some(Next(c, ReadOld(j, time)))
    case ReadOld(j, time) =>
      if o.Ok? then Some(Next(c, WriteMap(j, time, Lookup(c.v.objects, j.key))))
      else if o.Fail? then Some(Next(c, Unlock(j.key, Failed)))
      else None
    case WriteMap(j, time, seen) =>
      if o.Ok? then
        var next := if seen.Some? then ForgetOld(j, seen.value, 1) else Finish(j);
        Some(Next(c.(v := PutMapping(e, c.v, t, j, time)), next))
      else if o.Fail? then Some(Next(c, Unlock(j.key, Failed)))
      else None
    case ForgetOld(j, prev, tries) =>
      var r := Forget(c.v, prev.at, o);
      if r.None? then None
      else Some(Next(c.(v := r.value), if Retries(o, tries) then ForgetOld(j, prev, tries + 1) else Finish(j)))
    case RmDir(k, u, resp) =>
      var r := RemoveDir(c.d, u, o);
      if r.Some? then Some(Next(c.(d := r.value), RmRec(k, u, resp))) else None
    case RmRec(k, u, resp) =>
      var r := MaybeDeleteUpload(c.d, u, o);
      if r.Some? then Some(Next(c.(d := r.value), Unlock(k, resp))) else None
    case _ => None
  }

  // ---- DeleteObject ----

  /** DeleteObjectMapping, the step at which a delete takes effect. */
  function DeleteMapping(v: Vault, t: Tid, k: ObjKey): Vault {
    v.(objects := v.objects - {k}, log := v.log + [Del(t, k)], doomed := v.doomed - {k})
  }

  /** DeleteObject's forget: the key is doomed from the moment its snapshot is gone. */
  function Doom(v: Vault, k: ObjKey, x: Coord, o: Outcome): Option<Vault> {
    var r := Forget(v, x, o);
    if r.Some? && x !in r.value.live then Some(r.value.(doomed := r.value.doomed + {k})) else r
  }

  predicate Distinct(us: seq<UploadId>) {
    forall i, j :: 0 <= i < j < |us| ==> us[i] != us[j]
  }

  /** FindUploadsByBucketKey's answer: the uploads for this key, each once. */
  predicate Matching(d: Desk, k: ObjKey, us: seq<UploadId>) {
    && Distinct(us)
    && (forall u :: u in us ==> u in d.uploads && d.uploads[u] == k)
    && (forall u :: u in d.uploads && d.uploads[u] == k ==> u in us)
  }

  function DeleteStep(c: Core, t: Tid, pc: Pc, o: Outcome): Option<Next> {
    match pc
    case DelRead(k) =>
      if o.Ok? then Some(Next(c, if k in c.v.objects then DelForget(k, c.v.objects[k], 1) else DelFind(k)))
      else if o.Fail? then Some(Next(c, Unlock(k, Failed)))
      else None
    case DelForget(k, prev, tries) =>
      var r := Doom(c.v, k, prev.at, o);
      if r.None? then None
      else if Forgotten(o) then Some(Next(c.(v := r.value), DelUnmap(k)))
      else if Retries(o, tries) then Some(Next(c.(v := r.value), DelForget(k, prev, tries + 1)))
      else Some(Next(c.(v := r.value), Unlock(k, Failed)))
    case DelUnmap(k) =>
      if o.Ok? then
        Some(if k in c.v.objects then Next(c.(v := DeleteMapping(c.v, t, k)), Unlock(k, Removed))
             else Next(c, Unlock(k, NotFound)))
      else if o.Fail? then Some(Next(c, Unlock(k, Failed)))
      else None
    case DelFind(k) =>
      if o.Found? && Matching(c.d, k, o.ids) then Some(Next(c, DelDirs(k, o.ids)))
      else if o.Fail? then Some(Next(c, Unlock(k, Failed)))
      else None
    case DelDirs(k, us) =>
      if us == [] then Some(Next(c, Unlock(k, NotFound)))
      else
        var r := RemoveDir(c.d, us[0], o);
        if r.Some? then Some(Next(c.(d := r.value), DelRecs(k, us))) else None
    case DelRecs(k, us) =>
      if us == [] then None
      else
        var r := MaybeDeleteUpload(c.d, us[0], o);
        if r.Some? then Some(Next(c.(d := r.value), DelDirs(k, us[1..]))) else None
    case _ => None
  }

  // ---- GetObject ----

  function GetStep(c: Core, pc: Pc, o: Outcome): Option<Next> {
    match pc
    case Reading(k, since) =>
      if o.Ok? then
        Some(Next(c, if k in c.v.objects then Restoring(k, since, |c.v.log|, c.v.objects[k]) else Done(NotFound)))
      else if o.Fail? then Some(Next(c, Done(Failed)))
      else None
    case Restoring(k, since, at, m) =>
      if o.Ok? && m.at in c.v.live then Some(Next(c, Done(Body(k, since, at, c.v.live[m.at]))))
      else if o.Fail? then Some(Next(c, Done(Failed)))
      else None
    case _ => None
  }

  // ---- CreateMultipartUpload, UploadPart, AbortMultipartUpload ----

  /** GetUpload. A request names its upload's own bucket and key: other requests do not step. */
  function GetUpload(c: Core, k: ObjKey, u: UploadId, o: Outcome, found: Pc): Option<Next> {
    if o.Ok? then
      if u !in c.d.uploads then Some(Next(c, Unlock(k, NotFound)))
      else if c.d.uploads[u] == k then Some(Next(c, found))
      else None
    else if o.Fail? then Some(Next(c, Unlock(k, Failed)))
    else None
  }

  function UploadStep(e: Env, c: Core, pc: Pc, o: Outcome): Option<Next> {
    match pc
    case MkRec(k) =>
      if o.Id? && o.upload !in c.d.ever then
        Some(Next(c.(d := NewUpload(c.d, o.upload, k)), Unlock(k, Created(o.upload))))
      else if o.Fail? then Some(Next(c, Unlock(k, Failed)))
      else None
    case UpGet(k, p, body) => GetUpload(c, k, p.upload, o, UpDir(k, p, body))
    case UpDir(k, p, body) =>
      if o.Ok? then Some(Next(c.(d := MkDir(c.d, p.upload)), UpOpen(k, p, body)))
      else if o.Fail? then Some(Next(c, Unlock(k, Failed)))
      else None
    case UpOpen(k, p, body) =>
      if o.Ok? then Some(Next(c.(d := OpenPart(c.d, p)), UpWrite(k, p, body)))
      else if o.Fail? then Some(Next(c, Unlock(k, Failed)))
      else None
    case UpWrite(k, p, body) =>
      if o.Progress? && o.n <= |body| then Some(Next(c.(d := WriteFile(c.d, PartFile(p), body[..o.n])), pc))
      else if o.Ok? then Some(Next(c.(d := WriteFile(c.d, PartFile(p), body)), UpRec(k, p, body)))
      else if o.Fail? then Some(Next(c.(d := RemoveFile(c.d, PartFile(p))), Unlock(k, Failed)))
      else if o.Cut? && o.n <= |body| then
        Some(Next(c.(d := WriteFile(c.d, PartFile(p), body[..o.n])), Unlock(k, Failed)))
      else None
    case UpRec(k, p, body) =>
      if o.Ok? then Some(Next(c.(d := PutPart(c.d, p, e.md5(body))), UpTouch(k, p)))
      else if o.Fail? then Some(Next(c, Unlock(k, Failed)))
      else None
    case UpTouch(k, p) => Some(Next(c, Unlock(k, PartStored)))
    case AbGet(k, u) => GetUpload(c, k, u, o, AbDir(k, u))
    case AbDir(k, u) =>
      var r := RemoveDir(c.d, u, o);
      if r.Some? then Some(Next(c.(d := r.value), if o.Ok? then AbRec(k, u) else Unlock(k, Failed))) else None
    case AbRec(k, u) =>
      var r := MaybeDeleteUpload(c.d, u, o);
      if r.Some? then Some(Next(c.(d := r.value), Unlock(k, if o.Ok? then Aborted else Failed))) else None
    case _ => None
  }

  // ---- CompleteMultipartUpload ----

  /** The listed parts are ascending, recorded, and carry the recorded ETags. */
  predicate ValidList(parts: map<PartId, string>, u: UploadId, list: seq<PartRef>) {
    && list != []
    && 0 < list[0].number
    && (forall i :: 0 < i < |list| ==> list[i - 1].number < list[i].number)
    && (forall i :: 0 <= i < |list| ==> Lookup(parts, PartId(u, list[i].number)) == Some(list[i].etag))
  }

  function Source(u: UploadId, r: PartRef): File {
    PartFile(PartId(u, r.number))
  }

  /** What the listed part files hold. */
  function Plan(d: Desk, u: UploadId, list: seq<PartRef>): (r: seq<Option<Bytes>>)
    ensures |r| == |list|
    ensures forall i :: 0 <= i < |list| ==> r[i] == Lookup(d.files, Source(u, list[i]))
  {
    seq(|list|, i requires 0 <= i < |list| => Lookup(d.files, Source(u, list[i])))
  }

  /** The first n bytes of a file, if there are as many. */
  function Head(bytes: Option<Bytes>, n: nat): Bytes {
    if bytes.Some? && n <= |bytes.value| then bytes.value[..n] else []
  }

  function CompleteStep(c: Core, pc: Pc, o: Outcome): Option<Next> {
    match pc
    case CoGet(k, u, list) => GetUpload(c, k, u, o, CoList(k, u, list))
    case CoList(k, u, list) =>
      if o.Ok? then Some(Next(c, if ValidList(c.d.parts, u, list) then CoDir(k, u, list) else Unlock(k, Failed)))
      else if o.Fail? then Some(Next(c, Unlock(k, Failed)))
      else None
    case CoDir(k, u, list) =>
      if o.Ok? then Some(Next(c.(d := MkDir(c.d, u)), CoStat(k, u, list)))
      else if o.Fail? then Some(Next(c, RmDir(k, u, Failed)))
      else None
    case CoStat(k, u, list) =>
      if o.Ok? && Final(u) in c.d.files then Some(Next(c, CoHash(k, u)))
      else if o.Ok? || o.Fail? then Some(Next(c, CoOpen(k, u, list)))
      else None
    case CoHash(k, u) =>
      if o.Ok? && Final(u) in c.d.files then Some(Next(c, Clock(Job(k, Final(u), c.d.files[Final(u)], Some(u)))))
      else if o.Fail? then Some(Next(c, RmDir(k, u, Failed)))
      else None
    case CoOpen(k, u, list) =>
      if o.Ok? then
        Some(Next(c.(d := WriteFile(c.d, Partial(u), [])), CoCopy(k, u, list, Plan(c.d, u, list), [])))
      else if o.Fail? then Some(Next(c, RmDir(k, u, Failed)))
      else None
    case CoCopy(k, u, list, plan, copied) =>
      if |copied| < |list| then
        var r := list[|copied|];
        if o.Ok? && Source(u, r) in c.d.files then
          var piece := Piece(r, c.d.files[Source(u, r)], PartId(u, r.number) !in c.d.dirty);
          Some(Next(c.(d := WriteFile(c.d, Partial(u), Cat(copied + [piece]))),
                    CoConsume(k, u, list, plan, copied + [piece])))
        else if o.Fail? then Some(Next(c.(d := RemoveFile(c.d, Partial(u))), RmDir(k, u, Failed)))
        else if o.Cut? then
          Some(Next(c.(d := WriteFile(c.d, Partial(u), Cat(copied) + Head(Lookup(c.d.files, Source(u, r)), o.n))),
                    RmDir(k, u, Failed)))
        else None
      else if o.Ok? then
        Some(Next(c.(d := Rename(c.d, u, copied)),
                  Clock(Job(k, Final(u), Cat(copied), Some(u)))))
      else if o.Fail? then Some(Next(c, RmDir(k, u, Failed)))
      else None
    case CoConsume(k, u, list, plan, copied) =>
      if copied == [] then None
      else if o.Ok? then
        Some(Next(c.(d := RemoveFile(c.d, Source(u, copied[|copied| - 1].ref))), CoCopy(k, u, list, plan, copied)))
      else if o.Fail? then Some(Next(c, CoCopy(k, u, list, plan, copied)))
      else None
    case _ => None
  }

  /** One step of a request that touches no lock. */
  function Local(e: Env, c: Core, t: Tid, pc: Pc, o: Outcome): Option<Next> {
    if CommitStep(e, c, t, pc, o).Some? then CommitStep(e, c, t, pc, o)
    else if DeleteStep(c, t, pc, o).Some? then DeleteStep(c, t, pc, o)
    else if UploadStep(e, c, pc, o).Some? then UploadStep(e, c, pc, o)
    else if CompleteStep(c, pc, o).Some? then CompleteStep(c, pc, o)
    else GetStep(c, pc, o)
  }

  // ---- Requests, locks, crashes, garbage collection ----

  function Entry(r: Request, c: Core): Pc {
    match r
    case PutObject(k, body) => Staging(k, body)
    case DeleteObject(k) => Wait(k, DelRead(k))
    case GetObject(k) => Reading(k, |c.v.log|)
    case CreateMultipartUpload(k) => Wait(k, MkRec(k))
    case UploadPart(k, p, body) => Wait(k, UpGet(k, p, body))
    case CompleteMultipartUpload(k, u, list) => Wait(k, CoGet(k, u, list))
    case AbortMultipartUpload(k, u) => Wait(k, AbGet(k, u))
  }

  predicate KeyFree(s: State, k: ObjKey) {
    forall t :: t in s.procs ==> KeyHeld(s.procs[t]) != Some(k)
  }

  predicate GroupFree(e: Env, s: State, g: Group) {
    forall t :: t in s.procs ==> GroupHeld(e, s.procs[t]) != Some(g)
  }

  predicate Over(pc: Pc) {
    pc.Done? || pc.Dead?
  }

  /** Has this request's effect on the object table happened? */
  predicate Acted(pc: Pc) {
    match pc
    case ForgetOld(_, _, _) => true
    case RmDir(_, _, r) => r.Stored? || r.Removed?
    case RmRec(_, _, r) => r.Stored? || r.Removed?
    case Unlock(_, r) => r.Stored? || r.Removed?
    case Done(r) => r.Stored? || r.Removed?
    case Dead(a) => a
    case _ => false
  }

  datatype Label =
    | Start(t: Tid, r: Request)
    | Step(t: Tid, o: Outcome)
    | Lock(t: Tid)
    | Release(t: Tid)
    | Crash
    | Sweep(u: UploadId, dir: Outcome, rec: Option<Outcome>)  // `rec` is None when a crash comes first
    | ListDirs
    | ListIds
    | RemoveOrphan(u: UploadId, o: Outcome)

  function Move(s: State, t: Tid, pc: Pc): State {
    s.(procs := s.procs[t := pc])
  }

  function AfterCrash(procs: map<Tid, Pc>): map<Tid, Pc> {
    map t | t in procs :: if Over(procs[t]) then procs[t] else Dead(Acted(procs[t]))
  }

  function LockStep(e: Env, s: State, t: Tid): Option<State>
    requires t in s.procs
  {
    match s.procs[t]
    case Wait(k, next) => if KeyFree(s, k) then Some(Move(s, t, next)) else None
    case WaitGroup(j, time) =>
      if GroupFree(e, s, e.groupOf(j.key)) then Some(Move(s, t, Backing(j, time, 0, 1))) else None
    case _ => None
  }

  /** The TTL sweep of one upload; it is let fire only on an upload with no request in flight. */
  function SweepStep(s: State, u: UploadId, dir: Outcome, rec: Option<Outcome>): Option<State> {
    if u !in s.core.d.uploads || (exists t :: t in s.procs && u in Claims(s.procs[t])) then None
    else
      var d := RemoveDir(s.core.d, u, dir);
      if d.None? then None
      else if rec.None? then Some(s.(core := s.core.(d := d.value)))
      else
        var r := MaybeDeleteUpload(d.value, u, rec.value);
        if r.None? then None else Some(s.(core := s.core.(d := r.value)))
  }

  function Apply(e: Env, s: State, l: Label): Option<State> {
    match l
    case Start(t, r) => 
      if t in s.procs || t in s.reqs then None else Some(Move(s.(reqs := s.reqs[t := r]), t, Entry(r, s.core)))
    case Step(t, o) =>
      if t !in s.procs then None
      else
        var n := Local(e, s.core, t, s.procs[t], o);
        if n.Some? then Some(Move(s.(core := n.value.core), t, n.value.pc)) else None
    case Lock(t) => if t !in s.procs then None else LockStep(e, s, t)
    case Release(t) =>
      if t in s.procs && s.procs[t].Unlock? then Some(Move(s, t, Done(s.procs[t].resp))) else None
    case Crash => Some(State(s.core, AfterCrash(s.procs), s.reqs, Fresh))
    case Sweep(u, dir, rec) => SweepStep(s, u, dir, rec)
    case ListDirs => if s.gc.Fresh? then Some(s.(gc := Listed(s.core.d.dirs))) else None
    case ListIds => if s.gc.Listed? then Some(s.(gc := Known(s.gc.entries, s.core.d.uploads.Keys))) else None
    case RemoveOrphan(u, o) =>
      if s.gc.Known? && u in s.gc.entries && u !in s.gc.known then
        var r := RemoveDir(s.core.d, u, o);
        if r.Some? then Some(s.(core := s.core.(d := r.value))) else None
      else None
  }

  /** A run: None as soon as one label is not a step of the state it meets. */
  function Run(e: Env, s: State, ls: seq<Label>): Option<State>
    decreases |ls|
  {
    if ls == [] then Some(s)
    else
      var n := Apply(e, s, ls[0]);
      if n.None? then None else Run(e, n.value, ls[1..])
  }
}
