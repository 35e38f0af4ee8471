/**
 The reference-counted lock table of internal/store/lock.go.

 The class holds the two critical sections of the code as methods. Module `LockSteps`
 interleaves them, statement by statement, with the locking of the entries themselves,
 for any number of threads that may hold several locks each.
 */
module LockTable {
  import opened Wrappers

  class RefCountedMutex {
    var ref: int
    constructor ()
      ensures ref == 0
    {
      ref := 0;
    }
  }

  class KeyedMutex {
    var locks: map<string, RefCountedMutex>
    /** The keys of all lock calls whose unlock has not finished, with multiplicity. */
    ghost var registered: multiset<string>

    /** Counts are exact, and every key has its own entry. */
    ghost predicate Counted()
      reads this, locks.Values
    {
      && (forall k :: k in locks ==> locks[k].ref == registered[k])
      && (forall k :: k in registered ==> k in locks)
      && (forall k, l :: k in locks && l in locks && k != l ==> locks[k] != locks[l])
    }

    /** And there is no entry without a call. */
    ghost predicate Valid()
      reads this, locks.Values
    {
      Counted() && forall k :: k in locks ==> k in registered
    }

    constructor ()
      ensures Valid() && registered == multiset{} && locks == map[]
    {
      locks := map[];
      registered := multiset{};
    }

    /** The table section of Lock: find or create the entry, and count this call in. */
    method Register(key: string) returns (rm: RefCountedMutex)
      requires Valid()
      modifies this, locks.Values
      ensures Valid()
      ensures registered == old(registered) + multiset{key}
      ensures locks == old(locks)[key := rm]
      ensures if key in old(locks) then rm == old(locks[key]) else fresh(rm)
    {
      rm := FindOrCreate(key);
      CountIn(key, rm);
    }

    method CountIn(key: string, rm: RefCountedMutex)
      requires Counted() && key in locks && locks[key] == rm
      requires forall k :: k in locks && k != key ==> k in registered
      modifies rm, this`registered
      ensures Valid() && registered == old(registered) + multiset{key}
    {
      rm.ref := rm.ref + 1;
      registered := registered + multiset{key};
      forall k | k in locks ensures locks[k].ref == registered[k] {
        if k != key { assert locks[k] != rm; }
      }
    }

    method FindOrCreate(key: string) returns (rm: RefCountedMutex)
      requires Valid()
      modifies this`locks
      ensures Counted() && locks == old(locks)[key := rm] && forall k :: k in locks && k != key ==> k in registered
      ensures if key in old(locks) then rm == old(locks[key]) else fresh(rm)
    {
      if key in locks {
        rm := locks[key];
      } else {
        rm := new RefCountedMutex();
        locks := locks[key := rm];
      }
    }

    /** The table section of the returned unlock: count this call out, drop an unused entry. */
    method Deregister(key: string, rm: RefCountedMutex)
      requires Valid() && key in locks && locks[key] == rm
      modifies this, locks.Values
      ensures Valid()
      ensures registered == old(registered) - multiset{key}
      ensures locks == if key in registered then old(locks) else old(locks) - {key}
    {
      rm.ref := rm.ref - 1;
      if rm.ref == 0 {
        locks := locks - {key};
      }
      registered := registered - multiset{key};
    }

    /** Once every lock call has been unlocked the table is empty: no entry leaks. */
    lemma NoLeak()
      requires Valid() && registered == multiset{}
      ensures locks == map[]
    {
      assert forall k :: k in locks ==> k in registered;
      assert locks.Keys == {};
    }
  }
}
