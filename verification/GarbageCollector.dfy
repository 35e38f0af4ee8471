/** The garbage collector of internal/stage/gc.go, run while no request touches what it removes. */
module GarbageCollector {
  import opened Wrappers
  import opened KeyNames
  import opened MultipartStore
  import opened Scratch
  import opened Staging

  class GC {
    const store: MultipartStore.DB
    const stage: Manager
    const down: nat -> bool  // which of the store calls fail, without an effect
    var calls: nat

    constructor (store: MultipartStore.DB, stage: Manager, down: nat -> bool)
      ensures this.store == store && this.stage == stage && this.down == down
    {
      this.store, this.stage, this.down, calls := store, stage, down, 0;
    }

    /** A store call begins; false when it fails. */
    method Ask() returns (ok: bool)
      modifies this`calls
      ensures ok == !down(old(calls)) && calls == old(calls) + 1
    {
      ok := !down(calls);
      calls := calls + 1;
    }

    /** None of these store calls fails. */
    ghost predicate StoreUp(first: nat, next: nat) {
      forall i :: first <= i < next ==> !down(i)
    }

    /** Removes one upload; its record goes, if the store lets it, even if its scratch cannot be removed. */
    method Reap(id: Bytes, ghost gone: set<Bytes>, ghost was: Uploads, ghost parts: Parts) returns (ok: bool)
      requires store.Valid() && SlashFree(id) && id in was
      requires Left(was, gone, store.uploads) && store.Parts() == WithoutAll(parts, gone)
      modifies this`calls, store, stage.disk
      ensures store.Valid() && ok == !down(old(calls)) && calls == old(calls) + 1
      ensures var now := if ok then gone + {id} else gone;
        Left(was, now, store.uploads) && store.Parts() == WithoutAll(parts, now)
      ensures forall u :: '/' !in u && u != id ==> stage.ScratchOf(u) == old(stage.ScratchOf(u))
      ensures stage.disk.faults(old(stage.disk.ops)).Fine? ==> stage.ScratchOf(id) == (false, map[])
      ensures stage.disk.ops == old(stage.disk.ops) + 1
    {
      OneMoreGone(was, parts, gone, id);
      var removed := stage.RemoveUploadDir(id);
      ok := Ask();
      if ok {
        var found := store.DeleteUpload(id);
      }
    }

    /**
     Removes uploads with no activity since the cutoff, and no others: all of them when no store
     call fails, and otherwise those whose record the store let go. The scratch of a listed upload
     goes unless the disk fails; nothing of any other upload changes.
     */
    method Sweep(cutoff: int) returns (listed: bool, ghost gone: set<Bytes>)
      requires store.Valid()
      modifies this`calls, store, stage.disk
      ensures store.Valid() && calls > old(calls) && listed == !down(old(calls))
      ensures Left(old(store.uploads), gone, store.uploads) && store.Parts() == WithoutAll(old(store.Parts()), gone)
      ensures var stale := StaleIds(old(store.uploads), cutoff);
        && gone <= stale && (StoreUp(old(calls), calls) ==> gone == stale)
        && (forall u :: '/' !in u && (u in stale ==> !listed) ==> stage.ScratchOf(u) == old(stage.ScratchOf(u)))
        && (listed && Quiet(stage.disk.faults, old(stage.disk.ops)) ==>
              forall u :: u in stale ==> stage.ScratchOf(u) == (false, map[]))
    {
      ghost var was, parts := store.uploads, store.Parts();
      gone := {};
      NoneGone(was, parts);
      listed := Ask();
      if !listed { return; }
      var uploads := store.ListUploadsOlderThan(cutoff);
      var i := 0;
      while i < |uploads|
        invariant 0 <= i <= |uploads| && store.Valid() && calls > old(calls)
        invariant gone <= IdsOf(uploads, i) && (StoreUp(old(calls), calls) ==> gone == IdsOf(uploads, i))
        invariant Left(was, gone, store.uploads) && store.Parts() == WithoutAll(parts, gone)
        invariant forall u :: '/' !in u && u !in IdsOf(uploads, i) ==> stage.ScratchOf(u) == old(stage.ScratchOf(u))
        invariant stage.disk.ops >= old(stage.disk.ops)
        invariant Quiet(stage.disk.faults, old(stage.disk.ops)) ==>
          forall u :: u in IdsOf(uploads, i) ==> stage.ScratchOf(u) == (false, map[])
      {
        var id := uploads[i].id;
        OneMoreId(uploads, i);
        var ok := Reap(id, gone, was, parts);
        gone := if ok then gone + {id} else gone;
        i := i + 1;
      }
    }

    /**
     Removes the scratch directories that have no upload record. Those of recorded uploads
     are never touched; afterwards no other is left, unless the disk or the listing of records fails.
     */
    method ReconcileOnStartup()
      requires store.Valid()
      modifies this`calls, stage.disk
      ensures forall u :: u in store.uploads ==> stage.ScratchOf(u) == old(stage.ScratchOf(u))
      ensures Quiet(stage.disk.faults, old(stage.disk.ops)) && !down(old(calls)) ==>
        forall u :: '/' !in u && stage.ScratchOf(u).0 ==> u in store.uploads
    {
      var entries := stage.disk.ReadDir(stage.MultipartRoot());
      if entries.None? { return; }
      var ok := Ask();
      if !ok { return; }
      var known := store.ListAllUploadIDs();
      var rest := entries.value;
      while rest != {}
        invariant rest <= entries.value
        invariant forall u :: u in store.uploads ==> stage.ScratchOf(u) == old(stage.ScratchOf(u))
        invariant stage.disk.ops >= old(stage.disk.ops) && stage.disk.dirs <= old(stage.disk.dirs)
        invariant Quiet(stage.disk.faults, old(stage.disk.ops)) ==>
          forall u :: u in entries.value && u !in rest && stage.ScratchOf(u).0 ==> u in store.uploads
        decreases rest
      {
        var name :| name in rest;
        rest := rest - {name};
        if name !in known {
          var removed := stage.RemoveUploadDir(name);
        }
      }
    }
  }

  ghost predicate Left(was: Uploads, gone: set<Bytes>, now: Uploads) {
    now.Keys == was.Keys - gone && forall id :: id in now ==> now[id] == was[id]
  }

  ghost function WithoutAll(t: Parts, ids: set<Bytes>): Parts {
    map x | x in t && x.0 !in ids :: t[x]
  }

  lemma NoneGone(uploads: Uploads, t: Parts)
    ensures WithoutAll(t, {}) == t && Left(uploads, {}, uploads)
  {
  }

  lemma OneMoreGone(uploads: Uploads, t: Parts, gone: set<Bytes>, id: Bytes)
    ensures WithoutAll(t, gone + {id}) == Without(WithoutAll(t, gone), id)
    ensures id in gone ==> gone + {id} == gone
  {
  }
}
