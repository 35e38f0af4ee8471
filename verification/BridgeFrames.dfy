/** What the calls of the bridge's methods change and what they leave alone. */
module BridgeFrames {
  import opened Wrappers
  import opened Pbs
  import opened ProtocolState
  import opened ProtocolSteps
  import opened ProtocolInv
  import opened ProtocolProof
  import opened ProtocolRuns
  import opened ProtocolSolo
  import T = ProtocolTheorems

  /**
   What goes wrong with one call: a PBS call fails `after` it took effect, a directory removal
   leaves the files `kept`, a write stops after `written` bytes.
   */
  datatype Fault = Fine | Bad(kind: ErrClass, after: bool, kept: set<File>, written: nat)

  /** One of the six times from now on is later than every backup of the group. */
  predicate InReach(high: map<Group, int>, g: Group, now: int) {
    g in high ==> high[g] < now + MAX_COLLISION_RETRIES
  }

  ghost predicate Alone(s: State, t: Tid) {
    forall u :: u in s.procs && u != t ==> Over(s.procs[u])
  }

  /** The file that a commit backs up is there. */
  lemma SourceIsThere(e: Env, ls: seq<Label>, s: State, t: Tid)
    requires Reaches(e, ls, s) && t in s.procs && s.procs[t].Backing?
    ensures Lookup(s.core.d.files, s.procs[t].job.file) == Some(s.procs[t].job.body)
  {
    ReachableInv(e, ls, s);
    hide ProtocolRuns.Reaches;
    assert DeskPcOk(e, s.core.d, t, s.procs[t]);
  }

  /** A mapped key's snapshot is there unless a delete has forgotten it. */
  lemma UndoomedIsLive(e: Env, ls: seq<Label>, s: State, k: ObjKey)
    requires Reaches(e, ls, s)
    ensures k in s.core.v.objects && k !in s.core.v.doomed ==> s.core.v.objects[k].at in s.core.v.live
  {
    T.SnapshotSafety(e, ls, s);
  }

  /** The objects follow the log of effects. */
  lemma ObjectsFollowLog(e: Env, ls: seq<Label>, s: State, ls': seq<Label>, s': State, x: Effect)
    requires Reaches(e, ls, s) && Reaches(e, ls', s')
    ensures s'.core.v.log == s.core.v.log ==> Abstract(s'.core.v) == Abstract(s.core.v)
    ensures s'.core.v.log == s.core.v.log + [x] ==> Abstract(s'.core.v) == ApplyEffect(Abstract(s.core.v), x)
  {
    T.StoreIsReplay(e, ls, s);
    T.StoreIsReplay(e, ls', s');
    if s'.core.v.log == s.core.v.log + [x] {
      T.ReplayOneMore(s.core.v.log, s'.core.v.log);
    }
  }

  /** The pieces are the listed parts, with the bytes their files held. */
  ghost predicate CopiedFrom(files: map<File, Bytes>, u: UploadId, list: seq<PartRef>, pieces: seq<Piece>, n: nat) {
    && n == |pieces| <= |list|
    && forall i :: 0 <= i < n ==>
      pieces[i].ref == list[i] && Lookup(files, Source(u, list[i])) == Some(pieces[i].bytes)
  }

  /** What a commit of the upload may store: an existing final.img, or all the listed parts in order. */
  ghost predicate Whole(d: Desk, u: UploadId, list: seq<PartRef>, body: Bytes) {
    Lookup(d.files, Final(u)) == Some(body)
    || exists pieces :: CopiedFrom(d.files, u, list, pieces, |list|) && body == Cat(pieces)
  }

  /** The call has what it needs: a recorded list, and final.img or all listed parts. */
  predicate Ready(d: Desk, u: UploadId, list: seq<PartRef>) {
    ValidList(d.parts, u, list) && (Final(u) in d.files || AllThere(Plan(d, u, list)))
  }

  lemma CoGetIsLocal(e: Env, c: Core, t: Tid, k: ObjKey, u: UploadId, list: seq<PartRef>)
    requires u in c.d.uploads ==> c.d.uploads[u] == k
    ensures Local(e, c, t, CoGet(k, u, list), Fail(Other, false)) == Some(Next(c, Unlock(k, Failed)))
    ensures Local(e, c, t, CoGet(k, u, list), Ok)
         == Some(Next(c, if u in c.d.uploads then CoList(k, u, list) else Unlock(k, NotFound)))
  {
  }

  lemma UpGetIsLocal(e: Env, c: Core, t: Tid, k: ObjKey, p: PartId, body: Bytes)
    requires p.upload in c.d.uploads ==> c.d.uploads[p.upload] == k
    ensures Local(e, c, t, UpGet(k, p, body), Fail(Other, false)) == Some(Next(c, Unlock(k, Failed)))
    ensures Local(e, c, t, UpGet(k, p, body), Ok)
         == Some(Next(c, if p.upload in c.d.uploads then UpDir(k, p, body) else Unlock(k, NotFound)))
  {
  }

  lemma AbGetIsLocal(e: Env, c: Core, t: Tid, k: ObjKey, u: UploadId)
    requires u in c.d.uploads ==> c.d.uploads[u] == k
    ensures Local(e, c, t, AbGet(k, u), Fail(Other, false)) == Some(Next(c, Unlock(k, Failed)))
    ensures Local(e, c, t, AbGet(k, u), Ok)
         == Some(Next(c, if u in c.d.uploads then AbDir(k, u) else Unlock(k, NotFound)))
  {
  }

  lemma ReadyIsValid(d: Desk, u: UploadId, list: seq<PartRef>)
    ensures Ready(d, u, list) ==> ValidList(d.parts, u, list)
  {
  }

  /** A part that was there when copying began is there when its turn comes. */
  lemma PlannedIsThere(e: Env, ls: seq<Label>, s: State, t: Tid)
    requires Reaches(e, ls, s) && t in s.procs && s.procs[t].CoCopy?
    ensures var pc := s.procs[t];
      |pc.copied| < |pc.list| && AllThere(pc.plan) ==> Source(pc.upload, pc.list[|pc.copied|]) in s.core.d.files
  {
    hide ProtocolRuns.GcOk;
    hide ProtocolRuns.ServesAll;
    hide ProtocolInv.VaultPc;
    hide ProtocolInv.PiecesOk;
    hide ProtocolInv.VaultOk;
    hide ProtocolInv.DeskOk;
    hide ProtocolRuns.Exclusive;
    hide ProtocolRuns.LogOk;
    ReachableInv(e, ls, s);
    hide ProtocolRuns.Reaches;
    var pc := s.procs[t];
    assert CopyOk(e, s.core.d, pc.upload, pc.list, pc.plan, pc.copied);
  }

  /** Besides the partial file, files are as they were or gone. */
  ghost predicate OnlyGone(was: map<File, Bytes>, now: map<File, Bytes>, u: UploadId) {
    forall f :: f in now && f != Partial(u) ==> Lookup(was, f) == Some(now[f])
  }

  /** Nothing but the part's file and its directory differs, and no record. */
  ghost predicate OnlyPart(was: Desk, now: Desk, p: PartId) {
    && now.uploads == was.uploads && now.parts == was.parts && was.dirs <= now.dirs <= was.dirs + {p.upload}
    && forall f: File :: f != PartFile(p) ==> Lookup(now.files, f) == Lookup(was.files, f)
  }

  /** Nothing but the part's file, its directory and its record differs. */
  ghost predicate OnlyPartOrRecord(was: Desk, now: Desk, p: PartId) {
    && now.uploads == was.uploads && was.dirs <= now.dirs <= was.dirs + {p.upload}
    && (forall f: File :: f != PartFile(p) ==> Lookup(now.files, f) == Lookup(was.files, f))
    && (forall q :: q != p ==> Lookup(now.parts, q) == Lookup(was.parts, q))
  }

  lemma PartRecorded(was: Desk, mid: Desk, p: PartId, etag: string)
    requires OnlyPart(was, mid, p)
    ensures OnlyPartOrRecord(was, mid, p) && OnlyPartOrRecord(was, PutPart(mid, p, etag), p)
  {
  }

  /** What is left of a part after a failed upload: what was there, nothing, or a first piece of the body. */
  ghost predicate PartLeft(was: Desk, now: Desk, p: PartId, body: Bytes) {
    PartFile(p) in now.files ==>
      now.files[PartFile(p)] <= body || Lookup(was.files, PartFile(p)) == Some(now.files[PartFile(p)])
  }

  lemma PartSteps(d: Desk, p: PartId, body: Bytes)
    ensures var made := MkDir(d, p.upload);
      var emptied := OpenPart(made, p);
      && OnlyPart(d, d, p) && OnlyPart(d, made, p) && OnlyPart(d, emptied, p)
      && OnlyPart(d, WriteFile(emptied, PartFile(p), body), p)
      && PartLeft(d, d, p, body) && PartLeft(d, made, p, body)
  {
  }

  lemma PartParts(was: Desk, now: Desk, p: PartId)
    requires OnlyPart(was, now, p)
    ensures now.parts == was.parts
  {
  }

  lemma PartGivenUp(d: Desk, p: PartId, body: Bytes, now: Desk)
    requires GivenUp(OpenPart(MkDir(d, p.upload), p), now, p, body)
    ensures OnlyPart(d, now, p) && PartLeft(d, now, p, body)
  {
  }

  /** A half-written part's file is gone, or could not be removed. */
  ghost predicate GivenUp(was: Desk, now: Desk, p: PartId, body: Bytes) {
    || now == RemoveFile(was, PartFile(p))
    || exists n :: 0 <= n <= |body| && now == WriteFile(was, PartFile(p), body[..n])
  }

  /** The record, the parts, the files and the directory of upload u are as they were. */
  ghost predicate UploadKept(was: Desk, now: Desk, u: UploadId) {
    && Lookup(now.uploads, u) == Lookup(was.uploads, u) && (u in now.dirs <==> u in was.dirs)
    && (forall p: PartId :: p.upload == u ==> Lookup(now.parts, p) == Lookup(was.parts, p))
    && (forall f: File :: UploadOf(f) == Some(u) ==> Lookup(now.files, f) == Lookup(was.files, f))
  }

  ghost predicate NothingOf(d: Desk, u: UploadId) {
    && u !in d.uploads && u !in d.dirs
    && (forall p :: p in d.parts ==> p.upload != u) && (forall f :: f in d.files ==> UploadOf(f) != Some(u))
  }

  /** Every upload for another object is as it was. */
  ghost predicate OthersKept(was: Desk, now: Desk, k: ObjKey) {
    forall u :: Lookup(was.uploads, u) != Some(k) ==> UploadKept(was, now, u)
  }

  /** Nothing is left of the uploads there were for the object. */
  ghost predicate AllGone(was: Desk, now: Desk, k: ObjKey) {
    forall u :: Lookup(was.uploads, u) == Some(k) ==> NothingOf(now, u)
  }

  /** One upload's clean-up: it takes away from that upload only. */
  ghost predicate CleanedUp(was: Desk, now: Desk, u: UploadId) {
    && (forall w :: w != u ==> UploadKept(was, now, w))
    && (NothingOf(was, u) ==> NothingOf(now, u))
  }

  lemma UploadCleaned(was: Desk, mid: Desk, now: Desk, u: UploadId, o: Outcome, q: Outcome)
    requires RemoveDir(was, u, o) == Some(mid) && MaybeDeleteUpload(mid, u, q) == Some(now)
    ensures CleanedUp(was, now, u) && (o.Ok? && q.Ok? ==> NothingOf(now, u))
  {
  }

  lemma NothingCleaned(d: Desk, u: UploadId)
    ensures CleanedUp(d, d, u)
  {
  }

  /** After i of the uploads found: the others are as they were, and if no call failed the i are gone. */
  ghost predicate Cleaning(was: Desk, now: Desk, k: ObjKey, found: seq<UploadId>, i: nat, fair: bool) {
    && i <= |found| && OthersKept(was, now, k)
    && (fair ==> forall n :: 0 <= n < i ==> NothingOf(now, found[n]))
  }

  lemma NoneCleanedYet(d: Desk, k: ObjKey, found: seq<UploadId>)
    ensures Cleaning(d, d, k, found, 0, true)
  {
  }

  lemma OneMoreCleaned(
    first: Desk, was: Desk, now: Desk, k: ObjKey, found: seq<UploadId>, i: nat, fair: bool, still: bool)
    requires Matching(first, k, found) && Cleaning(first, was, k, found, i, fair) && i < |found| && (still ==> fair)
    requires CleanedUp(was, now, found[i]) && (still ==> NothingOf(now, found[i]))
    ensures Cleaning(first, now, k, found, i + 1, still)
  {
    var u := found[i];
    forall w | Lookup(first.uploads, w) != Some(k) ensures UploadKept(first, now, w) {
      assert w != u && UploadKept(first, was, w) && UploadKept(was, now, w);
    }
    forall n | 0 <= n < i && still ensures NothingOf(now, found[n]) {
      if found[n] != u { assert UploadKept(was, now, found[n]); }
    }
  }

  lemma AllCleaned(was: Desk, now: Desk, k: ObjKey, found: seq<UploadId>, fair: bool)
    requires Matching(was, k, found) && Cleaning(was, now, k, found, |found|, fair)
    ensures OthersKept(was, now, k) && (fair ==> AllGone(was, now, k))
  {
    forall u | Lookup(was.uploads, u) == Some(k) && fair ensures NothingOf(now, u) {
      assert u in found;
    }
  }

  // ---- What a completion leaves alone ----

  /** How far a CompleteMultipartUpload got: refused, the parts not put together, or put together. */
  datatype Stage = Refused | Unjoined | Joined(body: Bytes)

  /** Every other upload is as it was. */
  ghost predicate OnlyThisUpload(was: Desk, now: Desk, u: UploadId) {
    forall w :: w != u ==> UploadKept(was, now, w)
  }

  /** Nothing but files of upload u and its directory differs, and no record. */
  ghost predicate OnlyScratchOf(was: Desk, now: Desk, u: UploadId) {
    && now.uploads == was.uploads && now.parts == was.parts
    && (forall w: UploadId :: w != u ==> (w in now.dirs <==> w in was.dirs))
    && (forall f: File :: UploadOf(f) != Some(u) ==> Lookup(now.files, f) == Lookup(was.files, f))
  }

  lemma ScratchSteps(d: Desk, u: UploadId, bytes: Bytes, r: PartRef, copied: seq<Piece>)
    ensures OnlyScratchOf(d, d, u) && OnlyScratchOf(d, MkDir(d, u), u)
    ensures OnlyScratchOf(d, WriteFile(d, Partial(u), bytes), u) && OnlyScratchOf(d, RemoveFile(d, Partial(u)), u)
    ensures OnlyScratchOf(d, RemoveFile(d, Source(u, r)), u) && OnlyScratchOf(d, Rename(d, u, copied), u)
    ensures OnlyScratchOf(d, RemoveFile(d, Final(u)), u)
  {
    OneFile(d, u, Partial(u), bytes);
    OneFile(d, u, Source(u, r), bytes);
    OneFile(d, u, Final(u), bytes);
    hide OnlyScratchOf;
    RenamedFile(d, u, copied);
  }

  lemma OneFile(d: Desk, u: UploadId, f: File, bytes: Bytes)
    requires UploadOf(f) == Some(u)
    ensures OnlyScratchOf(d, WriteFile(d, f, bytes), u) && OnlyScratchOf(d, RemoveFile(d, f), u)
  {
  }

  lemma RenamedFile(d: Desk, u: UploadId, copied: seq<Piece>)
    ensures OnlyScratchOf(d, d, u) && OnlyScratchOf(d, MkDir(d, u), u) && OnlyScratchOf(d, Rename(d, u, copied), u)
  {
  }

  lemma ScratchTwice(a: Desk, b: Desk, c: Desk, u: UploadId)
    requires OnlyScratchOf(a, b, u) && OnlyScratchOf(b, c, u)
    ensures OnlyScratchOf(a, c, u)
  {
  }

  lemma ScratchThenCleaned(a: Desk, b: Desk, c: Desk, u: UploadId)
    requires OnlyScratchOf(a, b, u) && CleanedUp(b, c, u)
    ensures OnlyThisUpload(a, c, u)
  {
    forall w | w != u ensures UploadKept(a, c, w) {
      assert UploadKept(b, c, w);
      assert forall f: File :: UploadOf(f) == Some(w) ==> Lookup(b.files, f) == Lookup(a.files, f);
    }
  }

  /** What has been put together had all that it needs. */
  lemma WholeIsReady(d: Desk, u: UploadId, list: seq<PartRef>, body: Bytes)
    requires ValidList(d.parts, u, list) && Whole(d, u, list, body)
    ensures Ready(d, u, list)
  {
    hide ProtocolSteps.ValidList;
    if Final(u) !in d.files {
      var pieces: seq<Piece> :| CopiedFrom(d.files, u, list, pieces, |list|) && body == Cat(pieces);
      assert forall i :: 0 <= i < |list| ==> pieces[i].ref == list[i] && Source(u, list[i]) in d.files;
    }
  }

  // ---- What calls to PBS leave alone ----

  function AtOf(m: Option<Mapping>): set<Coord> {
    if m.Some? then {m.value.at} else {}
  }

  /** Every snapshot but this one is still live, with its bytes. */
  ghost predicate OthersLive(was: Vault, now: Vault, gone: Option<Mapping>) {
    forall x :: x in was.live && x !in AtOf(gone) ==> Lookup(now.live, x) == Some(was.live[x])
  }

  /** The snapshot x was made of these bytes; those there were are still there. */
  ghost predicate BackedUp(was: Vault, now: Vault, x: Coord, body: Bytes) {
    && now.objects == was.objects && OthersLive(was, now, None)
    && x !in was.live && Lookup(now.live, x) == Some(body)
  }

  /** The key now points to x, and no other key's snapshot is gone. */
  ghost predicate MappedTo(was: Vault, now: Vault, k: ObjKey, x: Coord) {
    && k in now.objects && now.objects == was.objects[k := now.objects[k]] && now.objects[k].at == x
    && OthersLive(was, now, Lookup(was.objects, k)) && x !in AtOf(Lookup(was.objects, k))
  }

  /** The key now points to a new live snapshot of the body, and no other key's snapshot is gone. */
  ghost predicate StoredAs(was: Vault, now: Vault, k: ObjKey, body: Bytes) {
    && k in now.objects && now.objects == was.objects[k := now.objects[k]]
    && now.objects[k].at !in was.live && Lookup(now.live, now.objects[k].at) == Some(body)
    && OthersLive(was, now, Lookup(was.objects, k))
  }

  /** The key's new snapshot has taken the place of its old one, which is gone. */
  ghost predicate Replaced(was: Vault, now: Vault, k: ObjKey) {
    && k in now.objects
    && now.live.Keys == was.live.Keys - AtOf(Lookup(was.objects, k)) + {now.objects[k].at}
    && now.objects[k].at !in AtOf(Lookup(was.objects, k))
  }

  /** No mapping changed, and no snapshot is gone. */
  ghost predicate NothingLost(was: Vault, now: Vault) {
    now.objects == was.objects && OthersLive(was, now, None)
  }

  lemma StillLive(a: Vault, b: Vault, c: Vault, gone: Option<Mapping>)
    requires OthersLive(a, b, None) && OthersLive(b, c, gone)
    ensures OthersLive(a, c, gone)
  {
  }

  lemma BackedUpThenMapped(a: Vault, b: Vault, c: Vault, k: ObjKey, x: Coord, body: Bytes)
    requires BackedUp(a, b, x, body) && MappedTo(b, c, k, x)
    ensures StoredAs(a, c, k, body)
    ensures b.live.Keys == a.live.Keys + {x} && c.live.Keys == b.live.Keys - AtOf(Lookup(b.objects, k)) ==>
      Replaced(a, c, k)
  {
  }

  /** PBS accepts a backup at a coordinate only when no snapshot is there. */
  lemma AcceptedIsNew(e: Env, ls: seq<Label>, s: State, x: Coord)
    requires Reaches(e, ls, s) && Accepts(s.core.v.high, x)
    ensures x !in s.core.v.live
  {
    ReachableInv(e, ls, s);
    hide ProtocolRuns.Reaches;
  }

  lemma StillOnlyGone(was: map<File, Bytes>, d: Desk, u: UploadId, bytes: Bytes, r: PartRef)
    requires OnlyGone(was, d.files, u)
    ensures OnlyGone(was, WriteFile(d, Partial(u), bytes).files, u)
    ensures OnlyGone(was, RemoveFile(WriteFile(d, Partial(u), bytes), Source(u, r)).files, u)
    ensures Source(u, r) in d.files ==> Lookup(was, Source(u, r)) == Some(d.files[Source(u, r)])
  {
  }

  lemma NoneCopied(files: map<File, Bytes>, u: UploadId, list: seq<PartRef>)
    ensures CopiedFrom(files, u, list, [], 0)
  {
  }

  lemma CopiedSnoc(files: map<File, Bytes>, u: UploadId, list: seq<PartRef>, pieces: seq<Piece>, p: Piece)
    requires CopiedFrom(files, u, list, pieces, |pieces|) && |pieces| < |list|
    requires p.ref == list[|pieces|] && Lookup(files, Source(u, p.ref)) == Some(p.bytes)
    ensures CopiedFrom(files, u, list, pieces + [p], |pieces| + 1)
  {
  }
}
