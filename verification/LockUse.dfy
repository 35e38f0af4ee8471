/**
 How the requests of the bridge use the lock table: every run of the protocol, from the last
 crash on, is accompanied by a run of the lock table in which one thread per request holds just
 the locks that the request holds, and that run obeys the lock order.
 */
module LockUse {
  import opened Wrappers
  import opened KeyNames
  import opened LockOrder
  import opened Pbs
  import L = LockSteps
  import opened ProtocolState
  import opened ProtocolSteps
  import opened ProtocolInv
  import opened ProtocolProof
  import opened ProtocolRuns

  // ---- Runs of the lock table ----

  /** The labels lead the lock table here, in the lock order. */
  ghost predicate Leads(ks: seq<L.Label>, m: L.State) {
    DisciplinedRun(L.INIT, ks) && L.Run(L.INIT, ks) == Some(m)
  }

  lemma {:induction false} DisciplinedSnoc(s: L.State, ks: seq<L.Label>, m: L.State, l: L.Label)
    requires DisciplinedRun(s, ks) && L.Run(s, ks) == Some(m) && L.Apply(m, l).Some?
    requires l.Call? && l.t in m.procs ==> MayCall(m.procs[l.t], l.key)
    ensures DisciplinedRun(s, ks + [l]) && L.Run(s, ks + [l]) == L.Apply(m, l)
    decreases |ks|
  {
    if ks == [] {
      assert (ks + [l])[1..] == [];
    } else {
      assert (ks + [l])[1..] == ks[1..] + [l] && (ks + [l])[0] == ks[0];
      DisciplinedSnoc(L.Apply(s, ks[0]).value, ks[1..], m, l);
    }
  }

  lemma Extends(ks: seq<L.Label>, m: L.State, l: L.Label) returns (next: seq<L.Label>, n: L.State)
    requires Leads(ks, m) && L.Inv(m) && L.Apply(m, l).Some?
    requires l.Call? && l.t in m.procs ==> MayCall(m.procs[l.t], l.key)
    ensures Leads(next, n) && L.Inv(n) && Some(n) == L.Apply(m, l)
  {
    hide LockSteps.Inv;
    DisciplinedSnoc(L.INIT, ks, m, l);
    L.ApplyKeeps(m, l);
    next, n := ks + [l], L.Apply(m, l).value;
  }

  /** Between calls: nobody is in the table section, and all threads but t are as they were. */
  ghost predicate Quiescent(m: L.State, n: L.State, t: Tid, th: L.Thread) {
    n.table == None && n.procs == m.procs[t := th]
  }

  /** Lock(name), from its first statement to its return, when nobody holds the name. */
  lemma Acquire(ks: seq<L.Label>, m: L.State, t: Tid, name: string)
    returns (next: seq<L.Label>, n: L.State, th: L.Thread)
    requires Leads(ks, m) && L.Inv(m) && m.table == None
    requires t in m.procs && m.procs[t].pc == L.Enter(name) && forall o :: o in m.procs ==> name !in m.procs[o].held
    ensures Leads(next, n) && L.Inv(n) && Quiescent(m, n, t, th)
    ensures th.pc == L.Idle && th.held.Keys == m.procs[t].held.Keys + {name}
  {
    hide Leads;
    hide LockSteps.Inv;
    var ks1, m1, rm := Counts(ks, m, t, name);
    next, n, th := Blocks(ks1, m1, t, name, rm);
    assert m1.procs[t := th] == m.procs[t := th];
  }

  /** The first half: the table section. */
  lemma Counts(ks: seq<L.Label>, m: L.State, t: Tid, name: string)
    returns (next: seq<L.Label>, n: L.State, rm: L.Eid)
    requires Leads(ks, m) && L.Inv(m) && m.table == None && t in m.procs && m.procs[t].pc == L.Enter(name)
    ensures Leads(next, n) && L.Inv(n) && Quiescent(m, n, t, L.Thread(m.procs[t].held, L.Block(name, rm)))
  {
    hide Leads;
    hide LockSteps.Inv;
    var held := m.procs[t].held;
    var ks1, m1 := Extends(ks, m, L.Step(t));
    assert m1.procs == m.procs[t := L.Thread(held, L.Look(name))];
    var ks2, m2 := Extends(ks1, m1, L.Step(t));
    rm := m2.procs[t].pc.rm;
    assert m2.procs == m.procs[t := L.Thread(held, L.Count(name, rm))];
    EntryIsThere(m2, t);
    var ks3, m3 := Extends(ks2, m2, L.Step(t));
    assert m3.procs == m.procs[t := L.Thread(held, L.Leave(name, rm))];
    next, n := Extends(ks3, m3, L.Step(t));
  }

  lemma EntryIsThere(m: L.State, t: Tid)
    requires L.Inv(m) && t in m.procs && L.Working(m.procs[t].pc)
    ensures m.procs[t].pc.rm in m.entries && Lookup(m.locks, m.procs[t].pc.key) == Some(m.procs[t].pc.rm)
  {
    assert L.ThreadOk(m.locks, m.procs[t]);
  }

  /** The second half: the entry's own mutex is free. */
  lemma Blocks(ks: seq<L.Label>, m: L.State, t: Tid, name: string, rm: L.Eid)
    returns (next: seq<L.Label>, n: L.State, th: L.Thread)
    requires Leads(ks, m) && L.Inv(m) && m.table == None && t in m.procs && m.procs[t].pc == L.Block(name, rm)
    requires forall o :: o in m.procs ==> name !in m.procs[o].held
    ensures Leads(next, n) && L.Inv(n) && Quiescent(m, n, t, th)
    ensures th.pc == L.Idle && th.held.Keys == m.procs[t].held.Keys + {name}
  {
    hide Leads;
    EntryIsThere(m, t);
    assert m.entries[rm].holder.None?;
    hide LockSteps.Inv;
    th := L.Thread(m.procs[t].held[name := rm], L.Idle);
    next, n := Extends(ks, m, L.Step(t));
  }

  /** The returned unlock, from its first statement to its last. */
  lemma Returns(ks: seq<L.Label>, m: L.State, t: Tid, name: string)
    returns (next: seq<L.Label>, n: L.State, th: L.Thread)
    requires Leads(ks, m) && L.Inv(m) && m.table == None
    requires t in m.procs && m.procs[t].pc.Idle? && name in m.procs[t].held
    ensures Leads(next, n) && L.Inv(n) && Quiescent(m, n, t, th)
    ensures th.pc == L.Idle && th.held.Keys == m.procs[t].held.Keys - {name}
  {
    hide Leads;
    var rm, rest := m.procs[t].held[name], m.procs[t].held - {name};
    hide LockSteps.Inv;
    var ks1, m1 := Frees(ks, m, t, name);
    th := L.Thread(rest, L.Idle);
    next, n := Closes(ks1, m1, t, name, rm);
    assert m.procs[t := L.Thread(rest, L.Drop(name, rm))][t := th] == m.procs[t := th];
  }

  lemma Frees(ks: seq<L.Label>, m: L.State, t: Tid, name: string) returns (next: seq<L.Label>, n: L.State)
    requires Leads(ks, m) && L.Inv(m) && m.table == None
    requires t in m.procs && m.procs[t].pc.Idle? && name in m.procs[t].held
    ensures Leads(next, n) && L.Inv(n)
    ensures n.procs == m.procs[t := L.Thread(m.procs[t].held - {name}, L.Drop(name, m.procs[t].held[name]))]
  {
    hide Leads;
    HeldIsThere(m, t, name);
    hide LockSteps.Inv;
    var rm, rest := m.procs[t].held[name], m.procs[t].held - {name};
    var ks1, m1 := Extends(ks, m, L.Unlock(t, name));
    assert m1.procs == m.procs[t := L.Thread(rest, L.Exit(name, rm))];
    next, n := Extends(ks1, m1, L.Step(t));
  }

  lemma Closes(ks: seq<L.Label>, m: L.State, t: Tid, name: string, rm: L.Eid) returns (next: seq<L.Label>, n: L.State)
    requires Leads(ks, m) && L.Inv(m) && t in m.procs && m.procs[t].pc == L.Drop(name, rm)
    ensures Leads(next, n) && L.Inv(n) && Quiescent(m, n, t, L.Thread(m.procs[t].held, L.Idle))
  {
    hide Leads;
    hide LockSteps.Inv;
    var rest := m.procs[t].held;
    EntryIsThere(m, t);
    var ks3, m3 := Extends(ks, m, L.Step(t));
    assert m3.procs == m.procs[t := L.Thread(rest, L.Test(name, rm))];
    EntryIsThere(m3, t);
    var ks4, m4 := Extends(ks3, m3, L.Step(t));
    assert m4.procs == m.procs[t := L.Thread(rest, L.Close(name))];
    next, n := Extends(ks4, m4, L.Step(t));
  }

  lemma HeldIsThere(m: L.State, t: Tid, name: string)
    requires L.Inv(m) && t in m.procs && name in m.procs[t].held
    ensures m.procs[t].held[name] in m.entries
  {
    assert L.ThreadOk(m.locks, m.procs[t]);
  }

  /** Lock(name) is called, and has not done anything yet. */
  lemma Calls(ks: seq<L.Label>, m: L.State, t: Tid, name: string) returns (next: seq<L.Label>, n: L.State)
    requires Leads(ks, m) && L.Inv(m) && m.table == None && t in m.procs && m.procs[t].pc.Idle?
    requires MayCall(m.procs[t], name)
    ensures Leads(next, n) && L.Inv(n) && Quiescent(m, n, t, L.Thread(m.procs[t].held, L.Enter(name)))
  {
    hide Leads;
    hide LockSteps.Inv;
    next, n := Extends(ks, m, L.Call(t, name));
  }

  // ---- Requests as threads ----

  function KeyName(k: ObjKey): string {
    LockKey(k.bucket, k.key)
  }

  function GroupName(g: Group): string {
    GroupLockKey(g.ns, g.btype, g.id)
  }

  /** Names without separators of their own. */
  predicate Plain(e: Env, k: ObjKey) {
    var g := e.groupOf(k);
    NulFree(k.bucket) && NulFree(k.key) && NulFree(g.ns) && NulFree(g.btype) && NulFree(g.id)
  }

  /** The names of the locks that a request holds, and of the one it waits for. */
  function Names(e: Env, pc: Pc): set<string> {
    (if KeyHeld(pc).Some? then {KeyName(KeyHeld(pc).value)} else {})
    + (if GroupHeld(e, pc).Some? then {GroupName(GroupHeld(e, pc).value)} else {})
  }

  function Wanted(e: Env, pc: Pc): Option<string> {
    match pc
    case Wait(k, _) => Some(KeyName(k))
    case WaitGroup(j, _) => Some(GroupName(e.groupOf(j.key)))
    case _ => None
  }

  /** A request's thread holds its locks, and has called Lock for the one it waits for. */
  ghost predicate ThreadFor(e: Env, pc: Pc, th: L.Thread) {
    && th.held.Keys == Names(e, pc)
    && th.pc == if Wanted(e, pc).Some? then L.Enter(Wanted(e, pc).value) else L.Idle
  }

  /** Every request that is running has its thread; a thread without locks may outlive its request. */
  ghost predicate Matches(e: Env, s: State, m: L.State) {
    && m.table == None && m.procs.Keys <= s.procs.Keys
    && (forall t :: t in s.procs && !Over(s.procs[t]) ==> t in m.procs)
    && (forall t :: t in m.procs ==> ThreadFor(e, s.procs[t], m.procs[t]))
  }

  // ---- The names ----

  lemma GroupNameInjective(g: Group, h: Group)
    requires NulFree(g.ns) && NulFree(g.btype) && NulFree(h.ns) && NulFree(h.btype)
    ensures GroupName(g) == GroupName(h) ==> g == h
  {
    if GroupName(g) == GroupName(h) {
      var a, b := g.ns + [NUL] + (g.btype + [NUL] + g.id), h.ns + [NUL] + (h.btype + [NUL] + h.id);
      assert GroupName(g) == Pair("group", a) && GroupName(h) == Pair("group", b);
      PairInjective("group", a, "group", b);
      PairInjective(g.ns, g.btype + [NUL] + g.id, h.ns, h.btype + [NUL] + h.id);
      PairInjective(g.btype, g.id, h.btype, h.id);
    }
  }

  /** Different locks have different names. */
  lemma NamesDiffer(e: Env, k: ObjKey, l: ObjKey)
    requires Plain(e, k) && Plain(e, l)
    ensures KeyName(k) == KeyName(l) ==> k == l
    ensures GroupName(e.groupOf(k)) == GroupName(e.groupOf(l)) ==> e.groupOf(k) == e.groupOf(l)
    ensures KeyName(k) != GroupName(e.groupOf(l)) && !IsGroup(KeyName(k)) && IsGroup(GroupName(e.groupOf(k)))
  {
    if KeyName(k) == KeyName(l) { LockKeyInjective(k.bucket, k.key, l.bucket, l.key); }
    GroupNameInjective(e.groupOf(k), e.groupOf(l));
    var g, h := e.groupOf(k), e.groupOf(l);
    NamesAreDisjoint(k.bucket, k.key, h.ns, h.btype, h.id);
    NamesAreDisjoint(k.bucket, k.key, g.ns, g.btype, g.id);
  }

  /** A request locks its own key and that key's group only. */
  lemma LocksOwn(e: Env, r: Request, pc: Pc)
    requires Serves(r, pc)
    ensures KeyHeld(pc).Some? ==> KeyHeld(pc).value == r.key
    ensures GroupHeld(e, pc).Some? ==> GroupHeld(e, pc).value == e.groupOf(r.key)
    ensures Wanted(e, pc).Some? ==>
      Wanted(e, pc).value == KeyName(r.key) || Wanted(e, pc).value == GroupName(e.groupOf(r.key))
  {
  }

  ghost predicate AllPlain(e: Env, reqs: map<Tid, Request>) {
    forall t :: t in reqs ==> Plain(e, reqs[t].key)
  }

  /** The thread of a request holds a name only if the request holds that lock. */
  lemma HoldsOwn(e: Env, r: Request, pc: Pc, th: L.Thread, k: ObjKey)
    requires Serves(r, pc) && ThreadFor(e, pc, th) && Plain(e, r.key) && Plain(e, k)
    ensures KeyName(k) in th.held ==> KeyHeld(pc) == Some(k)
    ensures GroupName(e.groupOf(k)) in th.held ==> GroupHeld(e, pc) == Some(e.groupOf(k))
  {
    hide KeyName;
    hide GroupName;
    hide Plain;
    hide ProtocolInv.Serves;
    LocksOwn(e, r, pc);
    NamesDiffer(e, k, r.key);
    NamesDiffer(e, r.key, k);
  }

  /** A lock that is free in the protocol is held by no thread. */
  lemma FreeName(e: Env, s: State, m: L.State, k: ObjKey)
    requires ServesAll(s.procs, s.reqs) && AllPlain(e, s.reqs) && Matches(e, s, m) && Plain(e, k)
    ensures KeyFree(s, k) ==> forall o :: o in m.procs ==> KeyName(k) !in m.procs[o].held
    ensures GroupFree(e, s, e.groupOf(k)) ==> forall o :: o in m.procs ==> GroupName(e.groupOf(k)) !in m.procs[o].held
  {
    hide KeyName;
    hide GroupName;
    hide Plain;
    hide ThreadFor;
    hide ProtocolInv.Serves;
    forall o | o in m.procs
      ensures KeyFree(s, k) ==> KeyName(k) !in m.procs[o].held
      ensures GroupFree(e, s, e.groupOf(k)) ==> GroupName(e.groupOf(k)) !in m.procs[o].held
    {
      HoldsOwn(e, s.reqs[o], s.procs[o], m.procs[o], k);
    }
  }

  // ---- What each step means for the request's locks ----

  /** A step keeps the key, and the group unless PBS.Backup has just returned; what it then waits for is in order. */
  ghost predicate LocksStep(e: Env, pc: Pc, next: Pc) {
    && !Over(pc) && Wanted(e, pc).None? && KeyHeld(next) == KeyHeld(pc)
    && (|| GroupHeld(e, next) == GroupHeld(e, pc)
        || (GroupHeld(e, pc).Some? && GroupHeld(e, next).None? && Wanted(e, next).None?))
    && (next.Wait? ==> KeyHeld(pc).None?)
    && (Wanted(e, next).Some? ==> GroupHeld(e, pc).None?)
  }

  lemma StepLocks(e: Env, c: Core, t: Tid, pc: Pc, o: Outcome)
    requires Local(e, c, t, pc, o).Some?
    ensures LocksStep(e, pc, Local(e, c, t, pc, o).value.pc)
  {
    hide LocksStep;
    if CommitStep(e, c, t, pc, o).Some? { CommitLocks(e, c, t, pc, o); }
    else if DeleteStep(c, t, pc, o).Some? { DeleteLocks(e, c, t, pc, o); }
    else if UploadStep(e, c, pc, o).Some? { UploadLocks(e, c, pc, o); }
    else if CompleteStep(c, pc, o).Some? { CompleteLocks(e, c, pc, o); }
    else { GetLocks(e, c, pc, o); }
  }

  lemma CommitLocks(e: Env, c: Core, t: Tid, pc: Pc, o: Outcome)
    requires CommitStep(e, c, t, pc, o).Some?
    ensures LocksStep(e, pc, CommitStep(e, c, t, pc, o).value.pc)
  {
    hide ProtocolSteps.RemoveDir;
    hide ProtocolSteps.MaybeDeleteUpload;
    hide ProtocolSteps.Forget;
    hide ProtocolSteps.Backup;
    hide KeyName;
    hide GroupName;
  }

  lemma DeleteLocks(e: Env, c: Core, t: Tid, pc: Pc, o: Outcome)
    requires DeleteStep(c, t, pc, o).Some?
    ensures LocksStep(e, pc, DeleteStep(c, t, pc, o).value.pc)
  {
    hide ProtocolSteps.RemoveDir;
    hide ProtocolSteps.MaybeDeleteUpload;
    hide ProtocolSteps.Doom;
    hide KeyName;
    hide GroupName;
  }

  lemma UploadLocks(e: Env, c: Core, pc: Pc, o: Outcome)
    requires UploadStep(e, c, pc, o).Some?
    ensures LocksStep(e, pc, UploadStep(e, c, pc, o).value.pc)
  {
    hide ProtocolSteps.RemoveDir;
    hide ProtocolSteps.MaybeDeleteUpload;
    hide KeyName;
    hide GroupName;
  }

  lemma GetLocks(e: Env, c: Core, pc: Pc, o: Outcome)
    requires GetStep(c, pc, o).Some?
    ensures LocksStep(e, pc, GetStep(c, pc, o).value.pc)
  {
  }

  lemma CompleteLocks(e: Env, c: Core, pc: Pc, o: Outcome)
    requires CompleteStep(c, pc, o).Some?
    ensures LocksStep(e, pc, CompleteStep(c, pc, o).value.pc)
  {
    hide ProtocolSteps.ValidList;
    hide KeyName;
    hide GroupName;
  }

  // ---- The two machines together ----

  /** One request and its thread move. */
  lemma BothMove(e: Env, s: State, n: State, m: L.State, m2: L.State, t: Tid, th: L.Thread)
    requires Matches(e, s, m) && t in n.procs && n.procs == s.procs[t := n.procs[t]]
    requires Quiescent(m, m2, t, th) && ThreadFor(e, n.procs[t], th)
    ensures Matches(e, n, m2)
  {
    hide ThreadFor;
  }

  /** One request moves, and nothing changes for its thread. */
  lemma OneMoves(e: Env, s: State, n: State, m: L.State, t: Tid)
    requires Matches(e, s, m) && t in m.procs && t in n.procs && n.procs == s.procs[t := n.procs[t]]
    requires Names(e, n.procs[t]) == Names(e, s.procs[t]) && Wanted(e, n.procs[t]) == Wanted(e, s.procs[t])
    ensures Matches(e, n, m)
  {
    hide Names;
    hide Wanted;
  }

  lemma SamePcs(e: Env, s: State, n: State, m: L.State)
    requires Matches(e, s, m) && n.procs == s.procs
    ensures Matches(e, n, m)
  {
  }

  /** The thread of a request that runs, and what it may ask for. */
  lemma OwnThread(e: Env, s: State, m: L.State, t: Tid)
    requires ServesAll(s.procs, s.reqs) && AllPlain(e, s.reqs) && Matches(e, s, m) && t in s.procs && !Over(s.procs[t])
    ensures t in m.procs && ThreadFor(e, s.procs[t], m.procs[t]) && t in s.reqs && Plain(e, s.reqs[t].key)
    ensures Serves(s.reqs[t], s.procs[t])
  {
  }

  lemma MayWait(e: Env, k: ObjKey, th: L.Thread, name: string)
    requires Plain(e, k)
    requires || (name == KeyName(k) && th.held.Keys == {})
             || (name == GroupName(e.groupOf(k)) && th.held.Keys <= {KeyName(k)})
    ensures MayCall(th, name)
  {
    NamesDiffer(e, k, k);
    if name == KeyName(k) { assert th.held == map[]; }
  }

  lemma StartSim(e: Env, s: State, t: Tid, r: Request, ks: seq<L.Label>, m: L.State)
    returns (next: seq<L.Label>, n: L.State)
    requires Apply(e, s, Start(t, r)).Some? && Plain(e, r.key) && Leads(ks, m) && L.Inv(m) && Matches(e, s, m)
    requires s.procs.Keys == s.reqs.Keys
    ensures Leads(next, n) && L.Inv(n) && Matches(e, Apply(e, s, Start(t, r)).value, n)
  {
    hide KeyName;
    hide GroupName;
    hide Leads;
    hide LockSteps.Inv;
    hide Plain;
    var pc := Entry(r, s.core);
    assert t !in m.procs;
    var th0 := L.Thread(map[], L.Idle);
    var ks1, m1 := Extends(ks, m, L.Spawn(t));
    assert Quiescent(m, m1, t, th0);
    var after := Apply(e, s, Start(t, r)).value;
    if Wanted(e, pc).Some? {
      MayWait(e, r.key, th0, KeyName(r.key));
      next, n := Calls(ks1, m1, t, KeyName(r.key));
      assert n.procs == m.procs[t := L.Thread(map[], L.Enter(KeyName(r.key)))];
      BothMove(e, s, after, m, n, t, L.Thread(map[], L.Enter(KeyName(r.key))));
    } else {
      next, n := ks1, m1;
      BothMove(e, s, after, m, n, t, th0);
    }
  }

  /** The thread follows a step of its request. */
  lemma StepThread(e: Env, r: Request, pc: Pc, after: Pc, ks: seq<L.Label>, m: L.State, t: Tid)
    returns (next: seq<L.Label>, n: L.State, th: L.Thread)
    requires Leads(ks, m) && L.Inv(m) && m.table == None && t in m.procs && ThreadFor(e, pc, m.procs[t])
    requires LocksStep(e, pc, after) && Serves(r, pc) && Serves(r, after) && Plain(e, r.key)
    ensures Leads(next, n) && L.Inv(n) && Quiescent(m, n, t, th) && ThreadFor(e, after, th)
  {
    hide Leads;
    hide LockSteps.Inv;
    hide Plain;
    hide KeyName;
    hide GroupName;
    LocksOwn(e, r, pc);
    LocksOwn(e, r, after);
    NamesDiffer(e, r.key, r.key);
    if GroupHeld(e, after) != GroupHeld(e, pc) {
      next, n, th := Returns(ks, m, t, GroupName(e.groupOf(r.key)));
    } else if Wanted(e, after).Some? {
      MayWait(e, r.key, m.procs[t], Wanted(e, after).value);
      next, n := Calls(ks, m, t, Wanted(e, after).value);
      th := L.Thread(m.procs[t].held, L.Enter(Wanted(e, after).value));
    } else {
      next, n, th := ks, m, m.procs[t];
    }
  }

  lemma StepSim(e: Env, s: State, t: Tid, o: Outcome, ks: seq<L.Label>, m: L.State)
    returns (next: seq<L.Label>, n: L.State)
    requires Apply(e, s, Step(t, o)).Some? && Leads(ks, m) && L.Inv(m) && Matches(e, s, m)
    requires ServesAll(s.procs, s.reqs) && AllPlain(e, s.reqs)
    ensures Leads(next, n) && L.Inv(n) && Matches(e, Apply(e, s, Step(t, o)).value, n)
  {
    hide Leads;
    hide LockSteps.Inv;
    hide Plain;
    hide ProtocolInv.Serves;
    hide ProtocolSteps.Local;
    hide ThreadFor;
    hide Quiescent;
    var pc := s.procs[t];
    var after := Apply(e, s, Step(t, o)).value;
    StepLocks(e, s.core, t, pc, o);
    LocalServes(s.reqs[t], e, s.core, t, pc, o);
    OwnThread(e, s, m, t);
    var th;
    next, n, th := StepThread(e, s.reqs[t], pc, after.procs[t], ks, m, t);
    BothMove(e, s, after, m, n, t, th);
  }

  /** A lock is taken on top of what the request holds. */
  ghost predicate TakesLock(e: Env, pc: Pc, next: Pc) {
    && Wanted(e, pc).Some? && Wanted(e, next).None? && !Over(pc)
    && Names(e, next) == Names(e, pc) + {Wanted(e, pc).value}
  }

  lemma LockTakes(e: Env, s: State, t: Tid)
    requires t in s.procs && LockStep(e, s, t).Some? && DeskPc(e, s.core.d, t, s.procs[t])
    ensures var n := LockStep(e, s, t).value;
      && t in n.procs && n == Move(s, t, n.procs[t]) && TakesLock(e, s.procs[t], n.procs[t])
    ensures s.procs[t].Wait? ==> KeyFree(s, s.procs[t].key)
    ensures s.procs[t].WaitGroup? ==> GroupFree(e, s, e.groupOf(s.procs[t].job.key))
  {
    hide KeyName;
    hide GroupName;
  }

  lemma FreeWanted(e: Env, s: State, m: L.State, t: Tid)
    requires Inv(e, s) && t in s.procs && LockStep(e, s, t).Some? && AllPlain(e, s.reqs) && Matches(e, s, m)
    ensures Wanted(e, s.procs[t]).Some? && forall o :: o in m.procs ==> Wanted(e, s.procs[t]).value !in m.procs[o].held
    ensures !Over(s.procs[t])
  {
    hide ProtocolInv.VaultOk;
    hide ProtocolInv.DeskOk;
    hide ProtocolRuns.AllPcOk;
    hide ProtocolRuns.Exclusive;
    hide ProtocolRuns.LogOk;
    hide KeyName;
    hide GroupName;
    hide Plain;
    hide Matches;
    assert Serves(s.reqs[t], s.procs[t]);
    if s.procs[t].Wait? {
      FreeName(e, s, m, s.procs[t].key);
    } else {
      FreeName(e, s, m, s.procs[t].job.key);
    }
  }

  lemma LockSim(e: Env, s: State, t: Tid, ks: seq<L.Label>, m: L.State) returns (next: seq<L.Label>, n: L.State)
    requires Inv(e, s) && Apply(e, s, Lock(t)).Some? && Leads(ks, m) && L.Inv(m) && Matches(e, s, m)
    requires AllPlain(e, s.reqs)
    ensures Leads(next, n) && L.Inv(n) && Matches(e, Apply(e, s, Lock(t)).value, n)
  {
    FreeWanted(e, s, m, t);
    OwnDeskPc(e, s, t);
    hide ProtocolRuns.Inv;
    hide Leads;
    hide LockSteps.Inv;
    LockTakes(e, s, t);
    var after := Apply(e, s, Lock(t)).value;
    var th;
    next, n, th := Acquire(ks, m, t, Wanted(e, s.procs[t]).value);
    hide Names;
    hide Wanted;
    BothMove(e, s, after, m, n, t, th);
  }

  lemma OwnDeskPc(e: Env, s: State, t: Tid)
    requires Inv(e, s) && t in s.procs
    ensures DeskPc(e, s.core.d, t, s.procs[t])
  {
    assert DeskPcOk(e, s.core.d, t, s.procs[t]);
  }

  lemma ReleaseSim(e: Env, s: State, t: Tid, ks: seq<L.Label>, m: L.State) returns (next: seq<L.Label>, n: L.State)
    requires Apply(e, s, Release(t)).Some? && Leads(ks, m) && L.Inv(m) && Matches(e, s, m)
    ensures Leads(next, n) && L.Inv(n) && Matches(e, Apply(e, s, Release(t)).value, n)
  {
    hide Leads;
    hide LockSteps.Inv;
    hide KeyName;
    var after := Apply(e, s, Release(t)).value;
    var th;
    next, n, th := Returns(ks, m, t, KeyName(s.procs[t].key));
    BothMove(e, s, after, m, n, t, th);
  }

  lemma NoneRunning(e: Env, s: State)
    ensures Leads([], L.INIT) && L.Inv(L.INIT) && Matches(e, Apply(e, s, Crash).value, L.INIT) && Matches(e, INIT, L.INIT)
  {
    L.InitOk();
  }

  /** Whatever the protocol does next, the lock table can follow. */
  lemma Follows(e: Env, s: State, l: Label, ks: seq<L.Label>, m: L.State) returns (next: seq<L.Label>, n: L.State)
    requires Inv(e, s) && Apply(e, s, l).Some? && Leads(ks, m) && L.Inv(m) && Matches(e, s, m)
    requires AllPlain(e, Apply(e, s, l).value.reqs)
    ensures Leads(next, n) && L.Inv(n) && Matches(e, Apply(e, s, l).value, n)
  {
    hide Leads;
    hide LockSteps.Inv;
    hide Matches;
    hide Plain;
    hide ProtocolInv.VaultOk;
    hide ProtocolInv.DeskOk;
    hide ProtocolRuns.AllPcOk;
    hide ProtocolRuns.Exclusive;
    hide ProtocolRuns.LogOk;
    hide ProtocolRuns.GcOk;
    EarlierPlain(e, s, l);
    match l
    case Start(t, r) => next, n := StartSim(e, s, t, r, ks, m);
    case Step(t, o) => next, n := StepSim(e, s, t, o, ks, m);
    case Lock(t) => next, n := LockSim(e, s, t, ks, m);
    case Release(t) => next, n := ReleaseSim(e, s, t, ks, m);
    case Crash => NoneRunning(e, s); next, n := [], L.INIT;
    case _ => SamePcs(e, s, Apply(e, s, l).value, m); next, n := ks, m;
  }

  lemma EarlierPlain(e: Env, s: State, l: Label)
    requires Apply(e, s, l).Some? && AllPlain(e, Apply(e, s, l).value.reqs)
    requires l.Start? ==> l.t !in s.reqs
    ensures AllPlain(e, s.reqs) && (l.Start? ==> Plain(e, l.r.key))
  {
    hide Plain;
    if l.Start? { assert Apply(e, s, l).value.reqs[l.t] == l.r; }
    forall t | t in s.reqs ensures Plain(e, s.reqs[t].key) {
      assert t in Apply(e, s, l).value.reqs && Apply(e, s, l).value.reqs[t] == s.reqs[t];
    }
  }

  /**
   Every reachable state of the protocol, with plain names, has a state of the lock table that
   a run in the lock order reaches, in which every running request's thread holds exactly the
   locks that the request holds and has called Lock for the one it waits for.
   */
  lemma {:induction false} LocksInOrder(e: Env, ls: seq<Label>, s: State) returns (ks: seq<L.Label>, m: L.State)
    requires Reaches(e, ls, s) && AllPlain(e, s.reqs)
    ensures DisciplinedRun(L.INIT, ks) && L.Reaches(ks, m) && Matches(e, s, m)
    ensures L.Inv(m)
    decreases |ls|
  {
    hide Matches;
    hide ProtocolRuns.Inv;
    hide LockSteps.Inv;
    if ls == [] {
      NoneRunning(e, INIT);
      ks, m := [], L.INIT;
    } else {
      var front, l := ls[..|ls| - 1], ls[|ls| - 1];
      assert ls == front + [l];
      RunConcat(e, INIT, front, [l]);
      var before := Run(e, INIT, front).value;
      RunSnoc(e, INIT, front, before, l);
      ReachableInv(e, front, before);
      StartsNew(e, before, l);
      EarlierPlain(e, before, l);
      var ks1, m1 := LocksInOrder(e, front, before);
      ks, m := Follows(e, before, l, ks1, m1);
    }
  }

  lemma StartsNew(e: Env, s: State, l: Label)
    requires Apply(e, s, l).Some?
    ensures l.Start? ==> l.t !in s.reqs
  {
  }

  /** As long as a request holds or waits for a lock, some thread of the lock table can take a step. */
  lemma NoLockDeadlock(e: Env, ls: seq<Label>, s: State, t: Tid) returns (ks: seq<L.Label>, m: L.State)
    requires Reaches(e, ls, s) && AllPlain(e, s.reqs)
    requires t in s.procs && !Over(s.procs[t]) && (Names(e, s.procs[t]) != {} || Wanted(e, s.procs[t]).Some?)
    ensures DisciplinedRun(L.INIT, ks) && L.Reaches(ks, m) && Matches(e, s, m) && SomeoneMoves(m)
  {
    ks, m := LocksInOrder(e, ls, s);
    hide ProtocolRuns.Reaches;
    hide LockSteps.Inv;
    hide SomeoneMoves;
    assert ThreadFor(e, s.procs[t], m.procs[t]);
    assert !L.Finished(m.procs[t]);
    DeadlockFree(ks, m, t);
  }
}
