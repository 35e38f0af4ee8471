/**
 Deadlock freedom of the two-level locking that internal/backend/backend.go builds on
 KeyedMutex: every operation takes at most one (bucket,key) lock and then at most one
 backup-group lock, and takes nothing more while it holds the latter.
 */
module LockOrder {
  import opened Wrappers
  import opened KeyNames
  import opened LockSteps

  // ---- Lock names ----

  function LockKey(bucket: string, key: string): string {
    Pair(bucket, key)
  }

  function GroupLockKey(ns: string, btype: string, id: string): string {
    "group" + [NUL] + ns + [NUL] + btype + [NUL] + id
  }

  function Nuls(s: string): nat {
    if s == [] then 0 else (if s[0] == NUL then 1 else 0) + Nuls(s[1..])
  }

  lemma {:induction false} NulsOfFree(s: string)
    requires NulFree(s)
    ensures Nuls(s) == 0
  {
    if s != [] { NulsOfFree(s[1..]); }
  }

  lemma {:induction false} NulsOfJoin(a: string, b: string)
    ensures Nuls(a + b) == Nuls(a) + Nuls(b)
  {
    if a == [] {
      assert a + b == b;
    } else {
      assert (a + b)[1..] == a[1..] + b;
      NulsOfJoin(a[1..], b);
    }
  }

  lemma NulsOfLockKey(bucket: string, key: string)
    ensures Nuls(LockKey(bucket, key)) == Nuls(bucket) + 1 + Nuls(key)
  {
    NulsOfJoin(bucket + [NUL], key);
    NulsOfJoin(bucket, [NUL]);
  }

  lemma NulsOfGroupLockKey(ns: string, btype: string, id: string)
    ensures Nuls(GroupLockKey(ns, btype, id)) == 3 + Nuls(ns) + Nuls(btype) + Nuls(id)
  {
    var a := "group" + [NUL] + ns;
    var b := a + [NUL] + btype;
    NulsOfJoin(b + [NUL], id);
    NulsOfJoin(b, [NUL]);
    NulsOfJoin(a + [NUL], btype);
    NulsOfJoin(a, [NUL]);
    NulsOfJoin("group" + [NUL], ns);
    NulsOfJoin("group", [NUL]);
    NulsOfFree("group");
  }

  /** A group lock's name is told from a (bucket,key) lock's name by its separators. */
  predicate IsGroup(name: string) {
    Nuls(name) >= 3
  }

  /** With NUL-free buckets and keys the two name spaces are disjoint. */
  lemma NamesAreDisjoint(bucket: string, key: string, ns: string, btype: string, id: string)
    requires NulFree(bucket) && NulFree(key)
    ensures LockKey(bucket, key) != GroupLockKey(ns, btype, id)
    ensures !IsGroup(LockKey(bucket, key)) && IsGroup(GroupLockKey(ns, btype, id))
  {
    NulsOfLockKey(bucket, key);
    NulsOfFree(bucket);
    NulsOfFree(key);
    NulsOfGroupLockKey(ns, btype, id);
  }

  /** With NUL-free buckets, different objects have different locks. */
  lemma LockKeyInjective(b1: string, k1: string, b2: string, k2: string)
    requires NulFree(b1) && NulFree(b2) && LockKey(b1, k1) == LockKey(b2, k2)
    ensures b1 == b2 && k1 == k2
  {
    PairInjective(b1, k1, b2, k2);
  }

  /** The key has two separators of its own. */
  predicate HasTwoNuls(key: string) {
    exists i, j :: 0 <= i < j < |key| && key[i] == NUL && key[j] == NUL
  }

  ghost predicate IsSomeGroupName(name: string) {
    exists ns, btype, id :: name == GroupLockKey(ns, btype, id)
  }

  /**
   Exactly which (bucket,key) locks collide with a group lock when only the bucket is known
   to be NUL-free: those of bucket "group" whose key has two separators of its own.
   */
  lemma CollisionIffKeyHasNuls(bucket: string, key: string)
    requires NulFree(bucket)
    ensures IsSomeGroupName(LockKey(bucket, key)) <==> bucket == "group" && HasTwoNuls(key)
  {
    if bucket == "group" && HasTwoNuls(key) {
      var i, j :| 0 <= i < j < |key| && key[i] == NUL && key[j] == NUL;
      assert key == key[..i] + [NUL] + key[i + 1..j] + [NUL] + key[j + 1..];
      assert LockKey(bucket, key) == GroupLockKey(key[..i], key[i + 1..j], key[j + 1..]);
    }
    if IsSomeGroupName(LockKey(bucket, key)) {
      var ns, btype, id :| LockKey(bucket, key) == GroupLockKey(ns, btype, id);
      var rest := ns + [NUL] + btype + [NUL] + id;
      assert GroupLockKey(ns, btype, id) == LockKey("group", rest);
      LockKeyInjective(bucket, key, "group", rest);
      assert rest[|ns|] == NUL && rest[|ns| + 1 + |btype|] == NUL;
    }
  }

  // ---- The discipline ----

  /** Thread th may ask for this lock: a key lock with empty hands, a group lock on top of no other group lock. */
  predicate MayCall(th: Thread, name: string) {
    if IsGroup(name) then forall k :: k in th.held ==> !IsGroup(k) else th.held == map[]
  }

  /** What the discipline says of a thread that is inside Lock. */
  predicate Disciplined(th: Thread) {
    Calling(th.pc) ==> MayCall(th, th.pc.key)
  }

  predicate Calling(pc: Pc) {
    pc.Enter? || pc.Look? || pc.Count? || pc.Leave? || pc.Block?
  }

  ghost predicate AllDisciplined(s: State) {
    forall t :: t in s.procs ==> Disciplined(s.procs[t])
  }

  /** Every Lock call of the run obeys the discipline. */
  ghost predicate DisciplinedRun(s: State, ls: seq<Label>)
    decreases |ls|
  {
    ls != [] ==>
      && (ls[0].Call? && ls[0].t in s.procs ==> MayCall(s.procs[ls[0].t], ls[0].key))
      && Apply(s, ls[0]).Some?
      && DisciplinedRun(Apply(s, ls[0]).value, ls[1..])
  }

  lemma DisciplineKept(s: State, l: Label)
    requires AllDisciplined(s) && Apply(s, l).Some?
    requires l.Call? && l.t in s.procs ==> MayCall(s.procs[l.t], l.key)
    ensures AllDisciplined(Apply(s, l).value)
  {
    OneMoves(s, l);
    OwnDiscipline(s, l);
  }

  lemma OwnDiscipline(s: State, l: Label)
    requires AllDisciplined(s) && Apply(s, l).Some?
    requires l.Call? && l.t in s.procs ==> MayCall(s.procs[l.t], l.key)
    ensures l.t in Apply(s, l).value.procs && Disciplined(Apply(s, l).value.procs[l.t])
  {
    if l.t in s.procs { assert Disciplined(s.procs[l.t]); }
  }

  lemma {:induction false} RunDisciplined(s: State, ls: seq<Label>)
    requires Inv(s) && AllDisciplined(s) && DisciplinedRun(s, ls)
    ensures Run(s, ls).Some? && Inv(Run(s, ls).value) && AllDisciplined(Run(s, ls).value)
    decreases |ls|
  {
    if ls != [] {
      DisciplineKept(s, ls[0]);
      ApplyKeeps(s, ls[0]);
      RunDisciplined(Apply(s, ls[0]).value, ls[1..]);
    }
  }

  // ---- Progress ----

  /** A thread that can take its next statement, or return one of the locks it holds. */
  ghost predicate CanMove(s: State, t: Tid) {
    t in s.procs &&
    (Apply(s, Step(t)).Some? || exists key :: key in s.procs[t].held && Apply(s, Unlock(t, key)).Some?)
  }

  ghost predicate SomeoneMoves(s: State) {
    exists t :: CanMove(s, t)
  }

  /** Whoever holds the table mutex, or waits for it while it is free, can go on. */
  lemma TableMoves(s: State, t: Tid)
    requires Inv(s) && t in s.procs && !s.procs[t].pc.Idle? && !s.procs[t].pc.Block?
    ensures SomeoneMoves(s)
  {
    assert ThreadOk(s.locks, s.procs[t]);
    if s.table.Some? && (s.procs[t].pc.Enter? || s.procs[t].pc.Exit?) {
      var o := s.table.value;
      assert ThreadOk(s.locks, s.procs[o]);
      assert CanMove(s, o);
    } else {
      assert CanMove(s, t);
    }
  }

  lemma IdleMoves(s: State, t: Tid, key: string)
    requires Inv(s) && t in s.procs && s.procs[t].pc.Idle? && key in s.procs[t].held
    ensures SomeoneMoves(s)
  {
    assert ThreadOk(s.locks, s.procs[t]);
    assert s.procs[t].held[key] in s.entries;
    assert Apply(s, Unlock(t, key)).Some?;
    assert CanMove(s, t);
  }

  /** A thread blocked on an entry either moves or waits for a thread that holds that key. */
  lemma BlockedOnHolder(s: State, t: Tid) returns (o: Tid)
    requires Inv(s) && t in s.procs && s.procs[t].pc.Block?
    ensures SomeoneMoves(s) || (o in s.procs && s.procs[t].pc.key in s.procs[o].held)
  {
    var key, rm := s.procs[t].pc.key, s.procs[t].pc.rm;
    o := t;
    assert ThreadOk(s.locks, s.procs[t]);
    if s.entries[rm].holder.None? {
      assert CanMove(s, t);
    } else {
      o := s.entries[rm].holder.value;
    }
  }

  lemma BlockedOnGroup(s: State, t: Tid)
    requires Inv(s) && AllDisciplined(s) && t in s.procs && s.procs[t].pc.Block? && IsGroup(s.procs[t].pc.key)
    ensures SomeoneMoves(s)
  {
    var o := BlockedOnHolder(s, t);
    if o in s.procs && s.procs[t].pc.key in s.procs[o].held {
      assert Disciplined(s.procs[o]);
      if s.procs[o].pc.Idle? { IdleMoves(s, o, s.procs[t].pc.key); }
      else if !s.procs[o].pc.Block? { TableMoves(s, o); }
    }
  }

  lemma BlockedMoves(s: State, t: Tid)
    requires Inv(s) && AllDisciplined(s) && t in s.procs && s.procs[t].pc.Block?
    ensures SomeoneMoves(s)
  {
    if IsGroup(s.procs[t].pc.key) {
      BlockedOnGroup(s, t);
    } else {
      var o := BlockedOnHolder(s, t);
      if o in s.procs && s.procs[t].pc.key in s.procs[o].held {
        assert Disciplined(s.procs[o]);
        if s.procs[o].pc.Idle? { IdleMoves(s, o, s.procs[t].pc.key); }
        else if s.procs[o].pc.Block? { BlockedOnGroup(s, o); }
        else { TableMoves(s, o); }
      }
    }
  }

  lemma EmptyOrNot<K, V>(m: map<K, V>)
    ensures m == map[] || exists k :: k in m
  {
    if forall k :: k !in m { assert m == map[]; }
  }

  /**
   In every state that a disciplined run reaches, as long as some thread has not returned
   all its locks, some thread can take a step.
   */
  lemma DeadlockFree(ls: seq<Label>, s: State, t: Tid)
    requires DisciplinedRun(INIT, ls) && Reaches(ls, s)
    requires t in s.procs && !Finished(s.procs[t])
    ensures SomeoneMoves(s)
  {
    RunDisciplined(INIT, ls);
    if s.procs[t].pc.Idle? {
      EmptyOrNot(s.procs[t].held);
      var key :| key in s.procs[t].held;
      IdleMoves(s, t, key);
    } else if s.procs[t].pc.Block? {
      BlockedMoves(s, t);
    } else {
      TableMoves(s, t);
    }
  }

  // ---- Why the discipline is needed ----

  lemma {:induction false} RunJoins(s: State, a: seq<Label>, b: seq<Label>)
    requires Run(s, a).Some?
    ensures Run(s, a + b) == Run(Run(s, a).value, b)
    decreases |a|
  {
    if a == [] {
      assert a + b == b;
    } else {
      assert (a + b)[1..] == a[1..] + b;
      RunJoins(Apply(s, a[0]).value, a[1..], b);
    }
  }

  lemma RunFront(s: State, ls: seq<Label>, n: State)
    requires ls != [] && Apply(s, ls[0]).Some?
    requires var r := Apply(s, ls[0]).value;
      r.table == n.table && r.locks == n.locks && r.entries == n.entries && r.next == n.next && r.procs == n.procs
    ensures Run(s, ls) == Run(n, ls[1..])
  {
  }

  const CALLS := [Step(0), Step(0), Step(0), Step(0)]

  function Solo(key: string, table: Option<Tid>, entry: Entry, th: Thread): State {
    State(table, map[key := 0], map[0 := entry], 1, map[0 := th])
  }

  /** One thread, alone, as far as blocking on the entry it calls for a second time. */
  lemma SecondCall(key: string)
    ensures Run(Solo(key, None, Entry(1, Some(0)), Thread(map[key := 0], Enter(key))), CALLS)
         == Some(Solo(key, None, Entry(2, Some(0)), Thread(map[key := 0], Block(key, 0))))
  {
    var e, held := Entry(1, Some(0)), map[key := 0];
    var s1 := Solo(key, Some(0), e, Thread(held, Look(key)));
    var s2 := Solo(key, Some(0), e, Thread(held, Count(key, 0)));
    var s3 := Solo(key, Some(0), Entry(2, Some(0)), Thread(held, Leave(key, 0)));
    var s4 := Solo(key, None, Entry(2, Some(0)), Thread(held, Block(key, 0)));
    RunFront(Solo(key, None, e, Thread(held, Enter(key))), CALLS, s1);
    RunFront(s1, CALLS[1..], s2);
    RunFront(s2, CALLS[1..][1..], s3);
    RunFront(s3, CALLS[1..][1..][1..], s4);
    assert CALLS[1..][1..][1..][1..] == [];
  }

  const LOOKUP := [Step(0), Step(0)]
  const TAKE := [Step(0), Step(0), Step(0)]

  function Called(key: string): State {
    State(None, map[], map[], 0, map[0 := Thread(map[], Enter(key))])
  }

  lemma FirstLookup(key: string)
    ensures Run(Called(key), LOOKUP) == Some(Solo(key, Some(0), Entry(0, None), Thread(map[], Count(key, 0))))
  {
    var s1 := State(Some(0), map[], map[], 0, map[0 := Thread(map[], Look(key))]);
    RunFront(Called(key), LOOKUP, s1);
    RunFront(s1, LOOKUP[1..], Solo(key, Some(0), Entry(0, None), Thread(map[], Count(key, 0))));
    assert LOOKUP[1..][1..] == [];
  }

  lemma FirstTake(key: string)
    ensures Run(Solo(key, Some(0), Entry(0, None), Thread(map[], Count(key, 0))), TAKE)
         == Some(Solo(key, None, Entry(1, Some(0)), Thread(map[key := 0], Idle)))
  {
    var s3 := Solo(key, Some(0), Entry(1, None), Thread(map[], Leave(key, 0)));
    var s4 := Solo(key, None, Entry(1, None), Thread(map[], Block(key, 0)));
    RunFront(Solo(key, Some(0), Entry(0, None), Thread(map[], Count(key, 0))), TAKE, s3);
    RunFront(s3, TAKE[1..], s4);
    RunFront(s4, TAKE[1..][1..], Solo(key, None, Entry(1, Some(0)), Thread(map[key := 0], Idle)));
    assert TAKE[1..][1..][1..] == [];
  }

  lemma Starts(key: string)
    ensures Run(INIT, [Spawn(0), Call(0, key)]) == Some(Called(key))
  {
    var ls := [Spawn(0), Call(0, key)];
    var s1 := State(None, map[], map[], 0, map[0 := Thread(map[], Idle)]);
    RunFront(INIT, ls, s1);
    RunFront(s1, ls[1..], Called(key));
    assert ls[1..][1..] == [];
  }

  lemma CallsAgain(key: string)
    ensures Run(Solo(key, None, Entry(1, Some(0)), Thread(map[key := 0], Idle)), [Call(0, key)])
         == Some(Solo(key, None, Entry(1, Some(0)), Thread(map[key := 0], Enter(key))))
  {
    RunFront(Solo(key, None, Entry(1, Some(0)), Thread(map[key := 0], Idle)), [Call(0, key)],
             Solo(key, None, Entry(1, Some(0)), Thread(map[key := 0], Enter(key))));
    assert [Call(0, key)][1..] == [];
  }

  /** What the thread that calls Lock twice for one key ends in. */
  function Stuck(key: string): State {
    Solo(key, None, Entry(2, Some(0)), Thread(map[key := 0], Block(key, 0)))
  }

  function Reentry(key: string): seq<Label> {
    [Spawn(0), Call(0, key)] + LOOKUP + TAKE + [Call(0, key)] + CALLS
  }

  lemma ReentryRuns(key: string)
    ensures Reaches(Reentry(key), Stuck(key))
  {
    var ls := [Spawn(0), Call(0, key)];
    Starts(key);
    FirstLookup(key);
    RunJoins(INIT, ls, LOOKUP);
    FirstTake(key);
    RunJoins(INIT, ls + LOOKUP, TAKE);
    CallsAgain(key);
    RunJoins(INIT, ls + LOOKUP + TAKE, [Call(0, key)]);
    SecondCall(key);
    RunJoins(INIT, ls + LOOKUP + TAKE + [Call(0, key)], CALLS);
  }

  /** Without the discipline it is false: Lock is not reentrant, a thread can block itself for ever. */
  lemma ReentryDeadlocks(key: string)
    ensures Reaches(Reentry(key), Stuck(key)) && !Finished(Stuck(key).procs[0]) && !SomeoneMoves(Stuck(key))
  {
    ReentryRuns(key);
    assert forall t :: !CanMove(Stuck(key), t);
  }
}
