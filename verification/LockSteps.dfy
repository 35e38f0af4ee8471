/**
 KeyedMutex as a step system: any number of threads, each of which may hold several locks,
 interleaved statement by statement. The table mutex `k.mu` and every entry's own mutex are
 locked and unlocked in separate steps, and entries are deleted and created anew.
 */
module LockSteps {
  import opened Wrappers

  type Tid = nat
  type Eid = nat

  datatype Entry = Entry(ref: int, holder: Option<Tid>)

  datatype Pc =
    | Idle
    // Lock(key)
    | Enter(key: string)              // k.mu.Lock()
    | Look(key: string)               // look the entry up, or create it
    | Count(key: string, rm: Eid)     // rm.ref++
    | Leave(key: string, rm: Eid)     // k.mu.Unlock()
    | Block(key: string, rm: Eid)     // rm.mu.Lock()
    // the returned unlock, after rm.mu.Unlock()
    | Exit(key: string, rm: Eid)      // k.mu.Lock()
    | Drop(key: string, rm: Eid)      // rm.ref--
    | Test(key: string, rm: Eid)      // if rm.ref == 0 then delete
    | Close(key: string)              // k.mu.Unlock()

  datatype Thread = Thread(held: map<string, Eid>, pc: Pc)

  datatype State = State(
    table: Option<Tid>,               // who holds k.mu
    locks: map<string, Eid>,
    entries: map<Eid, Entry>,         // every entry ever allocated
    next: Eid,
    procs: map<Tid, Thread>)

  const INIT := State(None, map[], map[], 0, map[])

  datatype Label = Spawn(t: Tid) | Call(t: Tid, key: string) | Unlock(t: Tid, key: string) | Step(t: Tid)

  function At(s: State, t: Tid, pc: Pc): State
    requires t in s.procs
  {
    s.(procs := s.procs[t := s.procs[t].(pc := pc)])
  }

  function SetRef(s: State, rm: Eid, n: int): State
    requires rm in s.entries
  {
    s.(entries := s.entries[rm := s.entries[rm].(ref := n)])
  }

  function SetHolder(s: State, rm: Eid, h: Option<Tid>): State
    requires rm in s.entries
  {
    s.(entries := s.entries[rm := s.entries[rm].(holder := h)])
  }

  function Create(s: State, key: string): State {
    s.(locks := s.locks[key := s.next], entries := s.entries[s.next := Entry(0, None)], next := s.next + 1)
  }

  /** The next statement of thread t, or None while it must wait. */
  function StepOf(s: State, t: Tid): Option<State>
    requires t in s.procs
  {
    match s.procs[t].pc
    case Idle => None
    case Enter(key) => if s.table.None? then Some(At(s.(table := Some(t)), t, Look(key))) else None
    case Look(key) =>
      if key in s.locks then Some(At(s, t, Count(key, s.locks[key]))) else Some(At(Create(s, key), t, Count(key, s.next)))
    case Count(key, rm) =>
      if rm in s.entries then Some(At(SetRef(s, rm, s.entries[rm].ref + 1), t, Leave(key, rm))) else None
    case Leave(key, rm) => Some(At(s.(table := None), t, Block(key, rm)))
    case Block(key, rm) =>
      if rm in s.entries && s.entries[rm].holder.None? then
        var r := SetHolder(s, rm, Some(t));
        Some(r.(procs := r.procs[t := Thread(s.procs[t].held[key := rm], Idle)]))
      else None
    case Exit(key, rm) => if s.table.None? then Some(At(s.(table := Some(t)), t, Drop(key, rm))) else None
    case Drop(key, rm) =>
      if rm in s.entries then Some(At(SetRef(s, rm, s.entries[rm].ref - 1), t, Test(key, rm))) else None
    case Test(key, rm) =>
      if rm !in s.entries then None
      else if s.entries[rm].ref == 0 then Some(At(s.(locks := s.locks - {key}), t, Close(key)))
      else Some(At(s, t, Close(key)))
    case Close(key) => Some(At(s.(table := None), t, Idle))
  }

  function Apply(s: State, l: Label): Option<State> {
    match l
    case Spawn(t) => if t in s.procs then None else Some(s.(procs := s.procs[t := Thread(map[], Idle)]))
    case Call(t, key) => if t in s.procs && s.procs[t].pc.Idle? then Some(At(s, t, Enter(key))) else None
    case Unlock(t, key) =>
      if t in s.procs && s.procs[t].pc.Idle? && key in s.procs[t].held && s.procs[t].held[key] in s.entries then
        var rm := s.procs[t].held[key];
        var r := SetHolder(s, rm, None);
        Some(r.(procs := r.procs[t := Thread(s.procs[t].held - {key}, Exit(key, rm))]))
      else None
    case Step(t) => if t in s.procs then StepOf(s, t) else None
  }

  function Run(s: State, ls: seq<Label>): Option<State>
    decreases |ls|
  {
    if ls == [] then Some(s)
    else
      var n := Apply(s, ls[0]);
      if n.None? then None else Run(n.value, ls[1..])
  }

  // ---- The invariant ----

  predicate InTable(pc: Pc) {
    pc.Look? || pc.Count? || pc.Leave? || pc.Drop? || pc.Test? || pc.Close?
  }

  /** Counted in for this entry, but not holding its mutex. */
  predicate Pending(pc: Pc, key: string, rm: Eid) {
    pc == Leave(key, rm) || pc == Block(key, rm) || pc == Exit(key, rm) || pc == Drop(key, rm)
  }

  predicate Holds(th: Thread, key: string, rm: Eid) {
    key in th.held && th.held[key] == rm
  }

  function Holders(procs: map<Tid, Thread>, key: string, rm: Eid): set<Tid> {
    set t | t in procs && Holds(procs[t], key, rm)
  }

  function Waiters(procs: map<Tid, Thread>, key: string, rm: Eid): set<Tid> {
    set t | t in procs && Pending(procs[t].pc, key, rm)
  }

  /** k.mu is held by exactly the thread that is inside the table section. */
  ghost predicate TableOk(s: State) {
    forall t :: t in s.procs ==> (InTable(s.procs[t].pc) <==> s.table == Some(t))
  }

  ghost predicate EntriesOk(s: State) {
    && (forall rm :: rm in s.entries ==> rm < s.next)
    && (forall k :: k in s.locks ==> s.locks[k] in s.entries)
    && (forall k, l :: k in s.locks && l in s.locks && k != l ==> s.locks[k] != s.locks[l])
  }

  /** Whoever is registered on a key is registered on the one entry the table has for it. */
  ghost predicate ThreadOk(locks: map<string, Eid>, th: Thread) {
    && (forall k :: k in th.held ==> Lookup(locks, k) == Some(th.held[k]))
    && (Working(th.pc) ==> Lookup(locks, th.pc.key) == Some(th.pc.rm))
  }

  /** Between looking an entry up and having counted itself out of it. */
  predicate Working(pc: Pc) {
    pc.Count? || pc.Leave? || pc.Block? || pc.Exit? || pc.Drop? || pc.Test?
  }

  /** The thread in the table section has just created this entry, or just counted itself out. */
  predicate Unsettled(s: State, key: string) {
    s.table.Some? && s.table.value in s.procs &&
    var pc := s.procs[s.table.value].pc;
    (pc.Count? || pc.Test?) && pc.key == key
  }

  /** An entry's count is the number of threads registered on it; only unsettled entries have none. */
  ghost predicate OneRefOk(s: State, k: string) {
    k in s.locks ==>
      var rm := s.locks[k];
      && rm in s.entries
      && s.entries[rm].ref == Registered(s.procs, k, rm)
      && (s.entries[rm].ref == 0 ==> Unsettled(s, k))
  }

  ghost predicate RefsOk(s: State) {
    forall k :: OneRefOk(s, k)
  }

  /** An entry's mutex is held by exactly the thread that returned from Lock with it. */
  ghost predicate HolderOk(s: State) {
    forall k, t :: k in s.locks && s.locks[k] in s.entries && t in s.procs ==>
      (s.entries[s.locks[k]].holder == Some(t) <==> k in s.procs[t].held)
  }

  /** Only threads hold mutexes. */
  ghost predicate HoldersLive(s: State) {
    && (s.table.Some? ==> s.table.value in s.procs)
    && (forall rm :: rm in s.entries && s.entries[rm].holder.Some? ==> s.entries[rm].holder.value in s.procs)
  }

  ghost predicate Inv(s: State) {
    && TableOk(s) && EntriesOk(s) && RefsOk(s) && HolderOk(s) && HoldersLive(s)
    && ThreadsOk(s)
  }

  // ---- Every step keeps it ----

  lemma InitOk()
    ensures Inv(INIT)
  {
  }

  lemma HoldersMove(procs: map<Tid, Thread>, t: Tid, th: Thread, key: string, rm: Eid)
    ensures |Holders(procs[t := th], key, rm)| == |Holders(procs, key, rm)|
      + (if Holds(th, key, rm) then 1 else 0) - (if t in procs && Holds(procs[t], key, rm) then 1 else 0)
  {
    var h := Holders(procs, key, rm) - {t};
    assert Holders(procs[t := th], key, rm) == if Holds(th, key, rm) then h + {t} else h;
    assert Holders(procs, key, rm) == if t in procs && Holds(procs[t], key, rm) then h + {t} else h;
  }

  lemma WaitersMove(procs: map<Tid, Thread>, t: Tid, th: Thread, key: string, rm: Eid)
    ensures |Waiters(procs[t := th], key, rm)| == |Waiters(procs, key, rm)|
      + (if Pending(th.pc, key, rm) then 1 else 0) - (if t in procs && Pending(procs[t].pc, key, rm) then 1 else 0)
  {
    var w := Waiters(procs, key, rm) - {t};
    assert Waiters(procs[t := th], key, rm) == if Pending(th.pc, key, rm) then w + {t} else w;
    assert Waiters(procs, key, rm) == if t in procs && Pending(procs[t].pc, key, rm) then w + {t} else w;
  }

  function Share(th: Thread, key: string, rm: Eid): int {
    (if Holds(th, key, rm) then 1 else 0) + (if Pending(th.pc, key, rm) then 1 else 0)
  }

  function Registered(procs: map<Tid, Thread>, key: string, rm: Eid): int {
    |Holders(procs, key, rm)| + |Waiters(procs, key, rm)|
  }

  /** One thread's change alters the count of an entry by what that thread's share changes. */
  lemma RegisteredMoves(procs: map<Tid, Thread>, t: Tid, th: Thread, key: string, rm: Eid)
    ensures Registered(procs[t := th], key, rm)
         == Registered(procs, key, rm) + Share(th, key, rm) - (if t in procs then Share(procs[t], key, rm) else 0)
  {
    HoldersMove(procs, t, th, key, rm);
    WaitersMove(procs, t, th, key, rm);
  }

  /** Nobody is registered on an entry that no table key leads to. */
  lemma NobodyRegistered(s: State, key: string, rm: Eid)
    requires ThreadsOk(s) && Lookup(s.locks, key) != Some(rm)
    ensures Registered(s.procs, key, rm) == 0
  {
    forall t | t in s.procs ensures t !in Holders(s.procs, key, rm) && t !in Waiters(s.procs, key, rm) {
      assert ThreadOk(s.locks, s.procs[t]);
    }
    assert Holders(s.procs, key, rm) == {} && Waiters(s.procs, key, rm) == {};
  }

  ghost predicate ThreadsOk(s: State) {
    forall t :: t in s.procs ==> ThreadOk(s.locks, s.procs[t])
  }

  /** The thread that deletes an entry is the only one the table still leads to it. */
  lemma NobodyElse(s: State, t: Tid, key: string, rm: Eid)
    requires Inv(s) && t in s.procs && s.procs[t].pc == Test(key, rm) && s.entries[rm].ref == 0
    ensures forall o :: o in s.procs ==> key !in s.procs[o].held
    ensures forall o :: o in s.procs && o != t && Working(s.procs[o].pc) ==> s.procs[o].pc.key != key
  {
    assert ThreadOk(s.locks, s.procs[t]) && OneRefOk(s, key);
    assert Holders(s.procs, key, rm) == {} && Waiters(s.procs, key, rm) == {};
    forall o | o in s.procs
      ensures key !in s.procs[o].held && (o != t && Working(s.procs[o].pc) ==> s.procs[o].pc.key != key)
    {
      assert ThreadOk(s.locks, s.procs[o]);
      assert o !in Holders(s.procs, key, rm) && o !in Waiters(s.procs, key, rm);
    }
  }

  /** A thread enters the table section when nobody is in it, leaves it, or stays where it is. */
  ghost predicate TableMove(s: State, n: State, t: Tid) {
    && t in n.procs && n.procs == s.procs[t := n.procs[t]]
    && var was := t in s.procs && InTable(s.procs[t].pc);
       var now := InTable(n.procs[t].pc);
       || (n.table == s.table && was == now)
       || (s.table.None? && n.table == Some(t) && now)
       || (was && n.table.None? && !now)
  }

  lemma StepTableMove(s: State, l: Label)
    requires Apply(s, l).Some?
    ensures TableMove(s, Apply(s, l).value, l.t)
  {
  }

  lemma TableKeeps(s: State, l: Label)
    requires TableOk(s) && HoldersLive(s) && Apply(s, l).Some?
    ensures TableOk(Apply(s, l).value)
  {
    StepTableMove(s, l);
    hide Apply;
  }

  lemma EntriesKeep(s: State, l: Label)
    requires EntriesOk(s) && Apply(s, l).Some?
    ensures EntriesOk(Apply(s, l).value)
  {
  }

  lemma LiveKeeps(s: State, l: Label)
    requires HoldersLive(s) && Apply(s, l).Some?
    ensures HoldersLive(Apply(s, l).value)
  {
  }

  /** The table changes by creating a missing entry or by deleting an unused one, or not at all. */
  lemma LocksChange(s: State, l: Label)
    requires EntriesOk(s) && Apply(s, l).Some?
    ensures var n := Apply(s, l).value.locks;
      || n == s.locks
      || (l.Step? && s.procs[l.t].pc.Look? && s.procs[l.t].pc.key !in s.locks && n == s.locks[s.procs[l.t].pc.key := s.next])
      || (l.Step? && s.procs[l.t].pc.Test? && n == s.locks - {s.procs[l.t].pc.key} && s.entries[s.procs[l.t].pc.rm].ref == 0)
  {
  }

  lemma OthersKeep(s: State, l: Label, o: Tid)
    requires Inv(s) && Apply(s, l).Some? && o in s.procs && o != l.t
    ensures ThreadOk(Apply(s, l).value.locks, s.procs[o])
  {
    LocksChange(s, l);
    assert ThreadOk(s.locks, s.procs[o]);
    if l.Step? && s.procs[l.t].pc.Test? && s.entries[s.procs[l.t].pc.rm].ref == 0 {
      NobodyElse(s, l.t, s.procs[l.t].pc.key, s.procs[l.t].pc.rm);
    }
  }

  ghost predicate OwnOk(s: State, t: Tid) {
    t in s.procs && ThreadOk(s.locks, s.procs[t])
  }

  lemma OwnKeeps(s: State, l: Label)
    requires Inv(s) && Apply(s, l).Some?
    ensures OwnOk(Apply(s, l).value, l.t)
  {
    if l.t in s.procs { assert ThreadOk(s.locks, s.procs[l.t]); }
    if Deletes(s, l) {
      NobodyElse(s, l.t, s.procs[l.t].pc.key, s.procs[l.t].pc.rm);
      DeletingKeeps(s, l);
    } else {
      hide Inv;
      OwnStepKeeps(s, l);
    }
  }

  /** The step takes an unused entry out of the table. */
  predicate Deletes(s: State, l: Label) {
    && l.Step? && l.t in s.procs && s.procs[l.t].pc.Test?
    && s.procs[l.t].pc.rm in s.entries && s.entries[s.procs[l.t].pc.rm].ref == 0
  }

  lemma DeletingKeeps(s: State, l: Label)
    requires Apply(s, l).Some? && Deletes(s, l) && OwnOk(s, l.t) && s.procs[l.t].pc.key !in s.procs[l.t].held
    ensures OwnOk(Apply(s, l).value, l.t)
  {
  }

  lemma OwnStepKeeps(s: State, l: Label)
    requires Apply(s, l).Some? && !Deletes(s, l) && (l.t in s.procs ==> OwnOk(s, l.t))
    ensures OwnOk(Apply(s, l).value, l.t)
  {
    if l.Step? && s.procs[l.t].pc.Look? { LookingKeeps(s, l); }
    else { OwnPlainKeeps(s, l); }
  }

  lemma LookingKeeps(s: State, l: Label)
    requires Apply(s, l).Some? && l.Step? && l.t in s.procs && s.procs[l.t].pc.Look? && OwnOk(s, l.t)
    ensures OwnOk(Apply(s, l).value, l.t)
  {
  }

  lemma OwnPlainKeeps(s: State, l: Label)
    requires Apply(s, l).Some? && !Deletes(s, l) && (l.t in s.procs ==> OwnOk(s, l.t))
    requires l.Step? && l.t in s.procs ==> !s.procs[l.t].pc.Look?
    ensures OwnOk(Apply(s, l).value, l.t)
  {
    TableStays(s, l);
    OwnStays(s, l);
    hide Apply;
  }

  lemma OwnStays(s: State, l: Label)
    requires Apply(s, l).Some? && !Deletes(s, l) && (l.t in s.procs ==> OwnOk(s, l.t))
    requires l.Step? && l.t in s.procs ==> !s.procs[l.t].pc.Look?
    ensures l.t in Apply(s, l).value.procs && ThreadOk(s.locks, Apply(s, l).value.procs[l.t])
  {
  }

  lemma TableStays(s: State, l: Label)
    requires Apply(s, l).Some? && !Deletes(s, l) && (l.Step? && l.t in s.procs ==> !s.procs[l.t].pc.Look?)
    ensures Apply(s, l).value.locks == s.locks
  {
  }

  lemma OneMoves(s: State, l: Label)
    requires Apply(s, l).Some?
    ensures l.t in Apply(s, l).value.procs
    ensures Apply(s, l).value.procs == s.procs[l.t := Apply(s, l).value.procs[l.t]]
  {
  }

  lemma ThreadsKeep(s: State, l: Label)
    requires Inv(s) && Apply(s, l).Some?
    ensures ThreadsOk(Apply(s, l).value)
  {
    OneMoves(s, l);
    OwnKeeps(s, l);
    forall o | o in s.procs && o != l.t ensures ThreadOk(Apply(s, l).value.locks, s.procs[o]) {
      OthersKeep(s, l, o);
    }
  }

  /** A freshly allocated entry is nobody's. */
  lemma HeldIsInTable(s: State)
    requires ThreadsOk(s)
    ensures forall t, k :: t in s.procs && k in s.procs[t].held ==> Lookup(s.locks, k) == Some(s.procs[t].held[k])
  {
    forall t, k | t in s.procs && k in s.procs[t].held ensures Lookup(s.locks, k) == Some(s.procs[t].held[k]) {
      assert ThreadOk(s.locks, s.procs[t]);
    }
  }

  lemma HolderKeepsUnlock(s: State, l: Label)
    requires EntriesOk(s) && HolderOk(s) && ThreadsOk(s) && l.Unlock? && Apply(s, l).Some?
    ensures HolderOk(Apply(s, l).value)
  {
    HeldIsInTable(s);
  }

  lemma HolderKeepsBlock(s: State, l: Label)
    requires EntriesOk(s) && HolderOk(s) && ThreadsOk(s) && l.Step? && l.t in s.procs && s.procs[l.t].pc.Block?
    requires Apply(s, l).Some?
    ensures HolderOk(Apply(s, l).value)
  {
    assert ThreadOk(s.locks, s.procs[l.t]);
  }

  lemma HolderKeepsElse(s: State, l: Label)
    requires EntriesOk(s) && HolderOk(s) && HoldersLive(s) && ThreadsOk(s) && Apply(s, l).Some?
    requires !l.Unlock? && !(l.Step? && s.procs[l.t].pc.Block?)
    ensures HolderOk(Apply(s, l).value)
  {
    var n := Apply(s, l).value;
    LocksChange(s, l);
    HeldStays(s, l);
    HeldIsInTable(s);
    forall k, t | k in n.locks && n.locks[k] in n.entries && t in n.procs
      ensures n.entries[n.locks[k]].holder == Some(t) <==> k in n.procs[t].held
    {
      if k in s.locks && t in s.procs { assert n.locks[k] == s.locks[k]; }
    }
  }

  /** Steps other than taking and giving up an entry's mutex change no holder. */
  lemma HeldStays(s: State, l: Label)
    requires EntriesOk(s) && Apply(s, l).Some? && !l.Unlock? && !(l.Step? && s.procs[l.t].pc.Block?)
    ensures ThreadsHold(s, Apply(s, l).value) && EntriesHeld(s, Apply(s, l).value)
  {
    OneMoves(s, l);
    OwnHolds(s, l);
    EntriesStay(s, l);
  }

  /** The threads hold what they held. */
  ghost predicate ThreadsHold(s: State, n: State) {
    forall t :: t in n.procs ==> n.procs[t].held == if t in s.procs then s.procs[t].held else map[]
  }

  /** The entries are held by whom they were held; new ones by nobody. */
  ghost predicate EntriesHeld(s: State, n: State) {
    && (forall rm :: rm in s.entries ==> rm in n.entries && n.entries[rm].holder == s.entries[rm].holder)
    && (forall rm :: rm in n.entries && rm !in s.entries ==> n.entries[rm].holder.None?)
  }

  lemma OwnHolds(s: State, l: Label)
    requires Apply(s, l).Some? && !l.Unlock? && !(l.Step? && s.procs[l.t].pc.Block?)
    ensures var n := Apply(s, l).value;
      l.t in n.procs && n.procs[l.t].held == if l.t in s.procs then s.procs[l.t].held else map[]
  {
  }

  lemma EntriesStay(s: State, l: Label)
    requires EntriesOk(s) && Apply(s, l).Some? && !l.Unlock? && !(l.Step? && s.procs[l.t].pc.Block?)
    ensures EntriesHeld(s, Apply(s, l).value)
  {
  }

  lemma HolderKeeps(s: State, l: Label)
    requires Inv(s) && Apply(s, l).Some?
    ensures HolderOk(Apply(s, l).value)
  {
    if l.Unlock? { HolderKeepsUnlock(s, l); }
    else if l.Step? && s.procs[l.t].pc.Block? { HolderKeepsBlock(s, l); }
    else { HolderKeepsElse(s, l); }
  }

  /** A created entry starts with nobody on it, and its creator still has to count itself in. */
  lemma CreatedRefOk(s: State, l: Label, k: string)
    requires EntriesOk(s) && ThreadsOk(s) && TableOk(s) && Apply(s, l).Some?
    requires k !in s.locks && k in Apply(s, l).value.locks
    ensures OneRefOk(Apply(s, l).value, k)
  {
    var n := Apply(s, l).value;
    LocksChange(s, l);
    assert l.Step? && s.procs[l.t].pc == Look(k) && n == At(Create(s, k), l.t, Count(k, s.next));
    RegisteredMoves(s.procs, l.t, n.procs[l.t], k, s.next);
    NobodyRegistered(s, k, s.next);
    HeldIsInTable(s);
    assert k !in s.procs[l.t].held && s.table == Some(l.t);
    assert n.procs[l.t] == Thread(s.procs[l.t].held, Count(k, s.next));
    assert Share(n.procs[l.t], k, s.next) == 0 == Share(s.procs[l.t], k, s.next);
    assert n.procs == s.procs[l.t := n.procs[l.t]];
    assert n.locks[k] == s.next && n.entries[s.next] == Entry(0, None);
  }

  /** How the count of an entry that stays in the table moves with its registrations. */
  ghost predicate RefMovesWith(s: State, l: Label, n: State, k: string) {
    k in s.locks && s.locks[k] in s.entries &&
    var rm := s.locks[k];
    && Lookup(n.locks, k) == Some(rm) && rm in n.entries && l.t in n.procs
    && n.entries[rm].ref - s.entries[rm].ref
         == Share(n.procs[l.t], k, rm) - (if l.t in s.procs then Share(s.procs[l.t], k, rm) else 0)
  }

  lemma UnlockRefMoves(s: State, l: Label, k: string)
    requires EntriesOk(s) && ThreadsOk(s) && HolderOk(s) && Apply(s, l).Some? && k in s.locks && l.Unlock?
    ensures RefMovesWith(s, l, Apply(s, l).value, k)
  {
    assert ThreadOk(s.locks, s.procs[l.t]);
  }

  lemma BlockRefMoves(s: State, l: Label, k: string)
    requires EntriesOk(s) && ThreadsOk(s) && HolderOk(s) && Apply(s, l).Some? && k in s.locks
    requires l.Step? && l.t in s.procs && s.procs[l.t].pc.Block?
    ensures RefMovesWith(s, l, Apply(s, l).value, k)
  {
    assert ThreadOk(s.locks, s.procs[l.t]);
  }

  /** The two statements that change a count. */
  lemma CountRefMoves(s: State, l: Label, k: string)
    requires EntriesOk(s) && ThreadsOk(s) && Apply(s, l).Some? && k in s.locks
    requires l.Step? && l.t in s.procs && (s.procs[l.t].pc.Count? || s.procs[l.t].pc.Drop?)
    ensures RefMovesWith(s, l, Apply(s, l).value, k)
  {
    assert ThreadOk(s.locks, s.procs[l.t]);
  }

  /** The others change no count, and nobody's registration. */
  lemma TableRefMoves(s: State, l: Label, k: string)
    requires EntriesOk(s) && ThreadsOk(s) && Apply(s, l).Some?
    requires k in s.locks && k in Apply(s, l).value.locks && !l.Unlock?
    requires l.Step? && l.t in s.procs ==> !s.procs[l.t].pc.Block? && !s.procs[l.t].pc.Count? && !s.procs[l.t].pc.Drop?
    ensures RefMovesWith(s, l, Apply(s, l).value, k)
  {
    hide Share;
    LocksChange(s, l);
    SameShare(s, l, k, s.locks[k]);
  }

  lemma SameShare(s: State, l: Label, k: string, rm: Eid)
    requires Apply(s, l).Some? && !l.Unlock?
    requires l.Step? && l.t in s.procs ==> !s.procs[l.t].pc.Block? && !s.procs[l.t].pc.Count? && !s.procs[l.t].pc.Drop?
    ensures l.t in Apply(s, l).value.procs
    ensures Share(Apply(s, l).value.procs[l.t], k, rm) == if l.t in s.procs then Share(s.procs[l.t], k, rm) else 0
  {
  }

  lemma RefMoves(s: State, l: Label, k: string)
    requires EntriesOk(s) && ThreadsOk(s) && HolderOk(s) && Apply(s, l).Some?
    requires k in s.locks && k in Apply(s, l).value.locks
    ensures RefMovesWith(s, l, Apply(s, l).value, k)
  {
    if l.Unlock? { UnlockRefMoves(s, l, k); }
    else if l.Step? && l.t in s.procs && s.procs[l.t].pc.Block? { BlockRefMoves(s, l, k); }
    else if l.Step? && l.t in s.procs && (s.procs[l.t].pc.Count? || s.procs[l.t].pc.Drop?) { CountRefMoves(s, l, k); }
    else { TableRefMoves(s, l, k); }
  }

  /** A count reaches zero only in the hands of the thread that then deletes the entry. */
  lemma ZeroIsUnsettled(s: State, l: Label, k: string)
    requires EntriesOk(s) && ThreadsOk(s) && TableOk(s) && HoldersLive(s) && OneRefOk(s, k) && Apply(s, l).Some?
    requires k in s.locks && k in Apply(s, l).value.locks && s.locks[k] in Apply(s, l).value.entries
    requires Apply(s, l).value.entries[s.locks[k]].ref == 0
    ensures Unsettled(Apply(s, l).value, k)
  {
    if s.table == Some(l.t) {
      ZeroByHolder(s, l, k);
    } else {
      ZeroByOther(s, l, k);
    }
  }

  lemma ZeroByHolder(s: State, l: Label, k: string)
    requires EntriesOk(s) && ThreadsOk(s) && TableOk(s) && s.table == Some(l.t) && l.t in s.procs && OneRefOk(s, k)
    requires Apply(s, l).Some? && k in s.locks && k in Apply(s, l).value.locks && s.locks[k] in Apply(s, l).value.entries
    requires Apply(s, l).value.entries[s.locks[k]].ref == 0
    ensures Unsettled(Apply(s, l).value, k)
  {
    assert ThreadOk(s.locks, s.procs[l.t]);
    assert l.Step? && InTable(s.procs[l.t].pc);
  }

  /** A thread outside the table section changes no count. */
  lemma ZeroByOther(s: State, l: Label, k: string)
    requires EntriesOk(s) && TableOk(s) && HoldersLive(s) && OneRefOk(s, k) && s.table != Some(l.t)
    requires Apply(s, l).Some? && k in s.locks && k in Apply(s, l).value.locks && s.locks[k] in Apply(s, l).value.entries
    requires Apply(s, l).value.entries[s.locks[k]].ref == 0
    ensures Unsettled(Apply(s, l).value, k)
  {
    assert l.t in s.procs ==> !InTable(s.procs[l.t].pc);
    assert s.entries[s.locks[k]].ref == 0;
  }

  lemma OneRefKeeps(s: State, l: Label, k: string)
    requires Inv(s) && Apply(s, l).Some?
    ensures OneRefOk(Apply(s, l).value, k)
  {
    var n := Apply(s, l).value;
    if k in n.locks && k !in s.locks {
      CreatedRefOk(s, l, k);
    } else if k in n.locks {
      OldRefKeeps(s, l, k);
    }
  }

  lemma OldRefKeeps(s: State, l: Label, k: string)
    requires EntriesOk(s) && ThreadsOk(s) && HolderOk(s) && TableOk(s) && HoldersLive(s) && OneRefOk(s, k)
    requires Apply(s, l).Some? && k in s.locks && k in Apply(s, l).value.locks
    ensures OneRefOk(Apply(s, l).value, k)
  {
    var n := Apply(s, l).value;
    RefMoves(s, l, k);
    OneMoves(s, l);
    RegisteredMoves(s.procs, l.t, n.procs[l.t], k, s.locks[k]);
    if n.entries[s.locks[k]].ref == 0 { ZeroIsUnsettled(s, l, k); }
  }

  lemma RefsKeep(s: State, l: Label)
    requires Inv(s) && Apply(s, l).Some?
    ensures RefsOk(Apply(s, l).value)
  {
    var n := Apply(s, l).value;
    forall k ensures OneRefOk(n, k) {
      OneRefKeeps(s, l, k);
    }
  }

  /** Every step of every thread keeps the invariant. */
  lemma ApplyKeeps(s: State, l: Label)
    requires Inv(s) && Apply(s, l).Some?
    ensures Inv(Apply(s, l).value)
  {
    TableKeeps(s, l);
    EntriesKeep(s, l);
    LiveKeeps(s, l);
    ThreadsKeep(s, l);
    HolderKeeps(s, l);
    RefsKeep(s, l);
  }

  lemma {:induction false} RunKeeps(s: State, ls: seq<Label>)
    requires Inv(s) && Run(s, ls).Some?
    ensures Inv(Run(s, ls).value)
    decreases |ls|
  {
    if ls != [] {
      ApplyKeeps(s, ls[0]);
      RunKeeps(Apply(s, ls[0]).value, ls[1..]);
    }
  }

  ghost predicate Reaches(ls: seq<Label>, s: State) {
    Run(INIT, ls) == Some(s)
  }

  // ---- What the lock table guarantees ----

  lemma ReachableInv(ls: seq<Label>, s: State)
    requires Reaches(ls, s)
    ensures Inv(s)
  {
    RunKeeps(INIT, ls);
  }

  /** At most one thread holds a key, although entries are deleted and created anew. */
  lemma MutualExclusion(ls: seq<Label>, s: State, t: Tid, o: Tid, key: string)
    requires Reaches(ls, s) && t in s.procs && o in s.procs
    requires key in s.procs[t].held && key in s.procs[o].held
    ensures t == o
  {
    ReachableInv(ls, s);
    HeldIsInTable(s);
  }

  /** An entry's count is exact, and outside the table section an entry exists iff someone is registered. */
  lemma CountsAreExact(ls: seq<Label>, s: State, key: string)
    requires Reaches(ls, s)
    ensures key in s.locks ==>
      s.locks[key] in s.entries && s.entries[s.locks[key]].ref == Registered(s.procs, key, s.locks[key])
    ensures key !in s.locks ==> forall rm :: Registered(s.procs, key, rm) == 0
    ensures s.table.None? && key in s.locks ==> s.entries[s.locks[key]].ref > 0
  {
    ReachableInv(ls, s);
    assert OneRefOk(s, key);
    if key !in s.locks {
      forall rm ensures Registered(s.procs, key, rm) == 0 { NobodyRegistered(s, key, rm); }
    }
  }

  predicate Finished(th: Thread) {
    th.pc.Idle? && th.held == map[]
  }

  lemma NobodyLeft(s: State, k: string, rm: Eid)
    requires forall t :: t in s.procs ==> Finished(s.procs[t])
    ensures Registered(s.procs, k, rm) == 0
  {
    assert Holders(s.procs, k, rm) == {} && Waiters(s.procs, k, rm) == {};
  }

  /** When every thread has unlocked, the table is empty. */
  lemma NoLeak(ls: seq<Label>, s: State)
    requires Reaches(ls, s) && forall t :: t in s.procs ==> Finished(s.procs[t])
    ensures s.locks == map[]
  {
    ReachableInv(ls, s);
    forall k ensures k !in s.locks {
      if k in s.locks { NobodyLeft(s, k, s.locks[k]); }
      assert OneRefOk(s, k);
    }
    assert s.locks.Keys == {};
  }
}
