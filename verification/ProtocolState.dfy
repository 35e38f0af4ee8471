/**
 The shared state of the bridge and the program counters of its requests.

 `Core` is everything that outlives a request: the metadata tables, the PBS datastore and
 the scratch disk. The fields under "history" are not kept by the code; they record what
 happened so that it can be talked about. A request is a program counter (`Pc`) that carries its
 local variables.
 */
module ProtocolState {
  import opened Wrappers
  import opened Pbs

  type Tid = nat
  type UploadId = string

  datatype ObjKey = ObjKey(bucket: string, key: string)

  datatype Mapping = Mapping(at: Coord, size: nat, etag: string)

  datatype PartId = PartId(upload: UploadId, number: nat)

  /** Scratch files. A temporary file name is unique, so it is named by the request that made it. */
  datatype File =
    | Tmp(req: Tid)
    | PartFile(part: PartId)
    | Partial(upload: UploadId)
    | Final(upload: UploadId)

  function UploadOf(f: File): Option<UploadId> {
    match f
    case Tmp(_) => None
    case PartFile(p) => Some(p.upload)
    case Partial(u) => Some(u)
    case Final(u) => Some(u)
  }

  /** What the code takes from outside: the MD5 digest and the key-to-group derivation. */
  datatype Env = Env(md5: Bytes -> string, groupOf: ObjKey -> Group)

  /** A part as a client names it when it completes an upload. */
  datatype PartRef = PartRef(number: nat, etag: string)

  /** One part as it was copied into `final.img`; `sound` unless its last re-upload was cut short. */
  datatype Piece = Piece(ref: PartRef, bytes: Bytes, sound: bool)

  /** The concatenation of the pieces, in order. */
  function Cat(ps: seq<Piece>): Bytes {
    if ps == [] then [] else Cat(ps[..|ps| - 1]) + ps[|ps| - 1].bytes
  }

  /** Every snapshot PBS ever accepted: what it held and for which object it was made. */
  datatype Snap = Snap(bytes: Bytes, key: ObjKey)

  /** The visible effects of requests on the object table. */
  datatype Effect = Put(req: Tid, key: ObjKey, bytes: Bytes) | Del(req: Tid, key: ObjKey)

  /** The object mappings and the PBS datastore. */
  datatype Vault = Vault(
    objects: map<ObjKey, Mapping>,
    live: map<Coord, Bytes>,           // live snapshots
    high: map<Group, int>,             // the latest time ever accepted in each group
    // history
    made: map<Coord, Snap>,
    log: seq<Effect>,
    doomed: set<ObjKey>)               // mapped keys whose snapshot a DeleteObject has forgotten

  /** Multipart bookkeeping and the scratch disk. */
  datatype Desk = Desk(
    uploads: map<UploadId, ObjKey>,
    parts: map<PartId, string>,        // the recorded ETags
    files: map<File, Bytes>,
    dirs: set<UploadId>,
    // history
    ever: set<UploadId>,               // upload ids ever issued
    dirty: set<PartId>,                // parts whose file was opened for writing and not recorded since
    orphans: set<UploadId>,            // uploads whose directory removal failed at least once
    built: map<UploadId, seq<Piece>>)  // what the last rename to final.img was made of

  datatype Core = Core(v: Vault, d: Desk)

  /** The atomic object store that the bridge is meant to be. */
  type Objects = map<ObjKey, Bytes>

  function ApplyEffect(m: Objects, x: Effect): Objects {
    match x
    case Put(_, k, b) => m[k := b]
    case Del(_, k) => m - {k}
  }

  function Replay(log: seq<Effect>): Objects {
    if log == [] then map[] else ApplyEffect(Replay(log[..|log| - 1]), log[|log| - 1])
  }

  /** The bytes each mapped key stands for. */
  function Abstract(v: Vault): Objects {
    map k | k in v.objects :: if v.objects[k].at in v.made then v.made[v.objects[k].at].bytes else []
  }

  datatype Request =
    | PutObject(key: ObjKey, body: Bytes)
    | DeleteObject(key: ObjKey)
    | GetObject(key: ObjKey)
    | CreateMultipartUpload(key: ObjKey)
    | UploadPart(key: ObjKey, part: PartId, body: Bytes)
    | CompleteMultipartUpload(key: ObjKey, upload: UploadId, list: seq<PartRef>)
    | AbortMultipartUpload(key: ObjKey, upload: UploadId)

  /** One commit: the object, the scratch file to back up, its bytes, and the upload it completes. */
  datatype Job = Job(key: ObjKey, file: File, body: Bytes, via: Option<UploadId>)

  datatype Resp =
    | Stored
    | Removed
    | Created(id: UploadId)
    | PartStored
    | Aborted
    | Body(key: ObjKey, since: nat, at: nat, bytes: Bytes)
    | NotFound
    | Failed

  datatype Pc =
    // lock acquisition, and the two ways a request is over
    | Wait(key: ObjKey, next: Pc)
    | Unlock(key: ObjKey, resp: Resp)
    | Done(resp: Resp)
    | Dead(acted: bool)
    // PutObject, before commitObject
    | Staging(key: ObjKey, body: Bytes)
    // commitObjectLocked
    | Clock(job: Job)
    | WaitGroup(job: Job, time: int)
    | Backing(job: Job, time: int, bumps: nat, tries: nat)
    | Ungroup(job: Job, used: Option<int>)
    | RemoveSrc(job: Job, time: int)
    | Notes(job: Job, time: int)
    | ReadOld(job: Job, time: int)
    | WriteMap(job: Job, time: int, seen: Option<Mapping>)
    | ForgetOld(job: Job, prev: Mapping, tries: nat)
    // cleanupUpload
    | RmDir(key: ObjKey, upload: UploadId, resp: Resp)
    | RmRec(key: ObjKey, upload: UploadId, resp: Resp)
    // DeleteObject
    | DelRead(key: ObjKey)
    | DelForget(key: ObjKey, prev: Mapping, tries: nat)
    | DelUnmap(key: ObjKey)
    | DelFind(key: ObjKey)
    | DelDirs(key: ObjKey, rest: seq<UploadId>)
    | DelRecs(key: ObjKey, rest: seq<UploadId>)
    // GetObject
    | Reading(key: ObjKey, since: nat)
    | Restoring(key: ObjKey, since: nat, at: nat, mapping: Mapping)
    // CreateMultipartUpload
    | MkRec(key: ObjKey)
    // UploadPart
    | UpGet(key: ObjKey, part: PartId, body: Bytes)
    | UpDir(key: ObjKey, part: PartId, body: Bytes)
    | UpOpen(key: ObjKey, part: PartId, body: Bytes)
    | UpWrite(key: ObjKey, part: PartId, body: Bytes)
    | UpRec(key: ObjKey, part: PartId, body: Bytes)
    | UpTouch(key: ObjKey, part: PartId)
    // CompleteMultipartUpload, up to commitObjectLocked
    | CoGet(key: ObjKey, upload: UploadId, list: seq<PartRef>)
    | CoList(key: ObjKey, upload: UploadId, list: seq<PartRef>)
    | CoDir(key: ObjKey, upload: UploadId, list: seq<PartRef>)
    | CoStat(key: ObjKey, upload: UploadId, list: seq<PartRef>)
    | CoHash(key: ObjKey, upload: UploadId)
    | CoOpen(key: ObjKey, upload: UploadId, list: seq<PartRef>)
    | CoCopy(key: ObjKey, upload: UploadId, list: seq<PartRef>, plan: seq<Option<Bytes>>, copied: seq<Piece>)
    | CoConsume(key: ObjKey, upload: UploadId, list: seq<PartRef>, plan: seq<Option<Bytes>>, copied: seq<Piece>)
    // AbortMultipartUpload
    | AbGet(key: ObjKey, upload: UploadId)
    | AbDir(key: ObjKey, upload: UploadId)
    | AbRec(key: ObjKey, upload: UploadId)

  /** The (bucket,key) lock a request holds. */
  function KeyHeld(pc: Pc): Option<ObjKey> {
    match pc
    case Wait(_, _) => None
    case Done(_) => None
    case Dead(_) => None
    case Staging(_, _) => None
    case Reading(_, _) => None
    case Restoring(_, _, _, _) => None
    case Clock(j) => Some(j.key)
    case WaitGroup(j, _) => Some(j.key)
    case Backing(j, _, _, _) => Some(j.key)
    case Ungroup(j, _) => Some(j.key)
    case RemoveSrc(j, _) => Some(j.key)
    case Notes(j, _) => Some(j.key)
    case ReadOld(j, _) => Some(j.key)
    case WriteMap(j, _, _) => Some(j.key)
    case ForgetOld(j, _, _) => Some(j.key)
    case _ => Some(pc.key)
  }

  /** The backup-group lock a request holds. */
  function GroupHeld(e: Env, pc: Pc): Option<Group> {
    match pc
    case Backing(j, _, _, _) => Some(e.groupOf(j.key))
    case Ungroup(j, _) => Some(e.groupOf(j.key))
    case _ => None
  }

  function Via(j: Job): set<UploadId> {
    if j.via.Some? then {j.via.value} else {}
  }

  /** The uploads a request has found on record and may still work on. */
  function Claims(pc: Pc): set<UploadId> {
    match pc
    case Clock(j) => Via(j)
    case WaitGroup(j, _) => Via(j)
    case Backing(j, _, _, _) => Via(j)
    case Ungroup(j, _) => Via(j)
    case RemoveSrc(j, _) => Via(j)
    case Notes(j, _) => Via(j)
    case ReadOld(j, _) => Via(j)
    case WriteMap(j, _, _) => Via(j)
    case ForgetOld(j, _, _) => Via(j)
    case RmDir(_, u, _) => {u}
    case RmRec(_, u, _) => {u}
    case DelDirs(_, us) => set u | u in us
    case DelRecs(_, us) => set u | u in us
    case UpDir(_, p, _) => {p.upload}
    case UpOpen(_, p, _) => {p.upload}
    case UpWrite(_, p, _) => {p.upload}
    case UpRec(_, p, _) => {p.upload}
    case UpTouch(_, p) => {p.upload}
    case CoList(_, u, _) => {u}
    case CoDir(_, u, _) => {u}
    case CoStat(_, u, _) => {u}
    case CoHash(_, u) => {u}
    case CoOpen(_, u, _) => {u}
    case CoCopy(_, u, _, _, _) => {u}
    case CoConsume(_, u, _, _, _) => {u}
    case AbDir(_, u) => {u}
    case AbRec(_, u) => {u}
    case _ => {}
  }

  /** Startup reconciliation: not started, directories listed, record ids listed too. */
  datatype Gc = Fresh | Listed(entries: set<UploadId>) | Known(entries: set<UploadId>, known: set<UploadId>)

  /** `reqs` is history: what each request asked for. */
  datatype State = State(core: Core, procs: map<Tid, Pc>, reqs: map<Tid, Request>, gc: Gc)

  const INIT := State(
    Core(Vault(map[], map[], map[], map[], [], {}), Desk(map[], map[], map[], {}, {}, {}, {}, map[])), map[], map[], Fresh)
}
