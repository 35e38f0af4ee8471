/**
 The operations of internal/backend/backend.go as they are written: methods with loops over a
 store, a PBS datastore and a scratch disk that may fail at every call. The history fields
 `s` and `trail` tie each method to the protocol: a call, run with no other in between, is
 a run of the protocol's steps, so everything proved of runs holds of it.
 */
module Bridge {
  import opened Wrappers
  import opened Pbs
  import opened ProtocolState
  import opened ProtocolSteps
  import opened ProtocolInv
  import opened ProtocolProof
  import opened ProtocolRuns
  import opened ProtocolSolo
  import opened BridgeFrames
  import T = ProtocolTheorems

  class Backend {
    const env: Env
    const faults: nat -> Fault
    const clock: nat -> int
    var calls: nat
    var core: Core
    ghost var s: State
    ghost var trail: seq<Label>

    constructor (env: Env, faults: nat -> Fault, clock: nat -> int)
      ensures Reaches(this.env, trail, s) && s == INIT && core == s.core
    {
      this.env, this.faults, this.clock := env, faults, clock;
      calls, core := 0, INIT.core;
      s, trail := INIT, [];
    }

    /** Request t is at this point of its method, and no other request is running. */
    ghost predicate At(t: Tid, pc: Pc)
      reads this
    {
      && Reaches(env, trail, s) && s.core == core
      && t in s.procs && s.procs[t] == pc && Alone(s, t)
    }

    /** What a call to PBS does not change. */
    ghost function Kept(): (Desk, map<ObjKey, Mapping>, seq<Effect>, map<Tid, Request>)
      reads this
    {
      (core.d, core.v.objects, core.v.log, s.reqs)
    }

    /** What a call that is about uploads only does not change. */
    ghost function OffDesk(): (Vault, map<Tid, Request>)
      reads this
    {
      (core.v, s.reqs)
    }

    /** What has just been done is a step of the protocol. */
    ghost method Go(t: Tid, o: Outcome, next: Pc)
      requires Reaches(env, trail, s) && t in s.procs && Alone(s, t)
      requires Local(env, s.core, t, s.procs[t], o) == Some(Next(core, next))
      modifies this`s, this`trail
      ensures At(t, next) && s.reqs == old(s.reqs)
    {
      var n := Move(s.(core := core), t, next);
      assert Apply(env, s, Step(t, o)) == Some(n);
      RunSnoc(env, INIT, trail, s, Step(t, o));
      trail, s := trail + [Step(t, o)], n;
    }

    ghost method GoCommit(t: Tid, o: Outcome, next: Pc)
      requires Reaches(env, trail, s) && t in s.procs && Alone(s, t)
      requires CommitStep(env, s.core, t, s.procs[t], o) == Some(Next(core, next))
      modifies this`s, this`trail
      ensures At(t, next) && s.reqs == old(s.reqs)
    {
      Go(t, o, next);
    }

    ghost method GoDelete(t: Tid, o: Outcome, next: Pc)
      requires Reaches(env, trail, s) && t in s.procs && Alone(s, t)
      requires DeleteStep(s.core, t, s.procs[t], o) == Some(Next(core, next))
      modifies this`s, this`trail
      ensures At(t, next) && s.reqs == old(s.reqs)
    {
      DeleteIsLocal(env, s.core, t, s.procs[t], o);
      Go(t, o, next);
    }

    ghost method GoUpload(t: Tid, o: Outcome, next: Pc)
      requires Reaches(env, trail, s) && t in s.procs && Alone(s, t)
      requires UploadStep(env, s.core, s.procs[t], o) == Some(Next(core, next))
      modifies this`s, this`trail
      ensures At(t, next) && s.reqs == old(s.reqs)
    {
      UploadIsLocal(env, s.core, t, s.procs[t], o);
      Go(t, o, next);
    }

    ghost method GoComplete(t: Tid, o: Outcome, next: Pc)
      requires Reaches(env, trail, s) && t in s.procs && Alone(s, t)
      requires CompleteStep(s.core, s.procs[t], o) == Some(Next(core, next))
      modifies this`s, this`trail
      ensures At(t, next) && s.reqs == old(s.reqs)
    {
      CompleteIsLocal(env, s.core, t, s.procs[t], o);
      Go(t, o, next);
    }

    ghost method GoGet(t: Tid, o: Outcome, next: Pc)
      requires Reaches(env, trail, s) && t in s.procs && Alone(s, t)
      requires GetStep(s.core, s.procs[t], o) == Some(Next(core, next))
      modifies this`s, this`trail
      ensures At(t, next) && s.reqs == old(s.reqs)
    {
      GetIsLocal(env, s.core, t, s.procs[t], o);
      Go(t, o, next);
    }

    /** None of these calls goes wrong. */
    ghost predicate Fair(first: nat, next: nat) {
      forall i :: first <= i < next ==> faults(i).Fine?
    }

    /** None of these calls goes wrong, and the clock is within five seconds of the group's latest backup. */
    ghost predicate Favourable(first: nat, next: nat, v: Vault, k: ObjKey) {
      forall i :: first <= i < next ==> faults(i).Fine? && InReach(v.high, env.groupOf(k), clock(i))
    }

    /** A favourable stretch of calls has favourable parts. */
    lemma FairParts(first: nat, mid: nat, next: nat, v: Vault, k: ObjKey)
      requires first <= mid <= next
      ensures Favourable(first, next, v, k) ==> Fair(first, mid) && Favourable(mid, next, v, k)
    {
    }

    method Call() returns (f: Fault)
      modifies this`calls
      ensures f == faults(old(calls)) && calls == old(calls) + 1
    {
      f := faults(calls);
      calls := calls + 1;
    }

    // ---- PBS ----

    /** A call that fails here fails transiently and without effect. */
    ghost predicate Harmless(first: nat, next: nat) {
      forall i :: first <= i < next && faults(i).Bad? ==> faults(i).kind.Transient? && !faults(i).after
    }

    ghost predicate FailsTransiently(n: nat) {
      faults(n).Bad? && faults(n).kind.Transient?
    }

    /** What one `backup` invocation at x comes to when its fault is f. */
    ghost predicate Invoked(f: Fault, was: Vault, now: Vault, x: Coord, body: Bytes, err: Option<ErrClass>) {
      && now.objects == was.objects && OthersLive(was, now, None)
      && (err.None? ==> BackedUp(was, now, x, body) && now.live.Keys == was.live.Keys + {x})
      && (f.Fine? ==> err == if Accepts(was.high, x) then None else Some(Collision))
      && (f.Bad? ==> err == Some(f.kind))
      && (err.Some? && !(f.Bad? && f.after) ==> now == was)
    }

    /** One `backup` invocation. */
    method InvokeBackup(t: Tid, j: Job, time: int, ghost bumps: nat, ghost tries: nat) returns (err: Option<ErrClass>)
      requires At(t, Backing(j, time, bumps, tries))
      modifies this
      ensures At(t, AfterBackup(j, time, bumps, tries, if err.None? then Ok else Fail(err.value, false)))
      ensures Kept() == old(Kept()) && calls == old(calls) + 1
      ensures Invoked(faults(old(calls)), old(core.v), core.v, Coord(env.groupOf(j.key), time), j.body, err)
    {
      hide ProtocolRuns.Reaches;
      SourceIsThere(env, trail, s, t);
      var f := Call();
      var x := Coord(env.groupOf(j.key), time);
      var possible := Accepts(core.v.high, x);
      if possible { AcceptedIsNew(env, trail, s, x); }
      if possible && (f.Fine? || f.after) {
        core := core.(v := Accept(core.v, x, core.d.files[j.file], j.key));
      }
      err := if f.Bad? then Some(f.kind) else if possible then None else Some(Collision);
      GoInvoked(t, j, time, bumps, tries, old(core), f, err);
    }

    /** The invocation's step of the protocol. */
    ghost method GoInvoked(t: Tid, j: Job, time: int, bumps: nat, tries: nat, was: Core, f: Fault, err: Option<ErrClass>)
      requires Reaches(env, trail, s) && s.core == was && Alone(s, t)
      requires t in s.procs && s.procs[t] == Backing(j, time, bumps, tries) && j.file in was.d.files
      requires var x := Coord(env.groupOf(j.key), time);
        && core == (if Accepts(was.v.high, x) && (f.Fine? || f.after)
                    then was.(v := Accept(was.v, x, was.d.files[j.file], j.key)) else was)
        && err == if f.Bad? then Some(f.kind) else if Accepts(was.v.high, x) then None else Some(Collision)
      modifies this`s, this`trail
      ensures At(t, AfterBackup(j, time, bumps, tries, if err.None? then Ok else Fail(err.value, false)))
      ensures s.reqs == old(s.reqs)
    {
      hide ProtocolRuns.Reaches;
      hide BridgeFrames.Alone;
      hide ProtocolSteps.Accept;
      var took := f.Bad? && f.after && Accepts(was.v.high, Coord(env.groupOf(j.key), time));
      var o := if err.None? then Ok else Fail(err.value, took);
      GoCommit(t, o, AfterBackup(j, time, bumps, tries, if err.None? then Ok else Fail(err.value, false)));
    }

    /** What runWithRetry around it comes to: every invocation but the last failed transiently. */
    ghost predicate Retried(first: nat, next: nat, was: Vault, now: Vault, x: Coord, body: Bytes, err: Option<ErrClass>) {
      && first < next <= first + MAX_TRANSIENT_RETRIES
      && (forall n :: first <= n < next - 1 ==> FailsTransiently(n))
      && (err == Some(Transient) <==> next == first + MAX_TRANSIENT_RETRIES && FailsTransiently(next - 1))
      && (faults(next - 1).Bad? ==> err == Some(faults(next - 1).kind))
      && now.objects == was.objects && OthersLive(was, now, None) && (err.None? ==> BackedUp(was, now, x, body))
      && (Fair(first, next) && err.None? ==> now.live.Keys == was.live.Keys + {x})
      && (Harmless(first, next) && err.Some? ==> now == was)
      && (faults(next - 1).Fine? && Harmless(first, next) ==>
            err == if Accepts(was.high, x) then None else Some(Collision))
    }

    ghost function AfterTries(j: Job, time: int, bumps: nat, err: Option<ErrClass>): Pc {
      if err.None? then Ungroup(j, Some(time))
      else if err.value.Collision? && bumps < MAX_COLLISION_RETRIES then Backing(j, time + 1, bumps + 1, 1)
      else Ungroup(j, None)
    }

    lemma AfterAllTries(j: Job, time: int, bumps: nat, err: Option<ErrClass>)
      ensures err.None? ==> AfterTries(j, time, bumps, err) == Ungroup(j, Some(time))
      ensures err == Some(Collision) && bumps < MAX_COLLISION_RETRIES ==>
        AfterTries(j, time, bumps, err) == Backing(j, time + 1, bumps + 1, 1)
      ensures err.Some? && (err != Some(Collision) || bumps == MAX_COLLISION_RETRIES) ==>
        AfterTries(j, time, bumps, err) == Ungroup(j, None)
    {
    }

    lemma AfterOneTry(j: Job, time: int, bumps: nat, tries: nat, err: Option<ErrClass>)
      ensures AfterBackup(j, time, bumps, tries, if err.None? then Ok else Fail(err.value, false))
           == if err == Some(Transient) && tries < MAX_TRANSIENT_RETRIES then Backing(j, time, bumps, tries + 1)
              else AfterTries(j, time, bumps, err)
    {
    }

    /** runWithRetry around it: at most three invocations while they fail transiently. */
    method BackupWithRetry(t: Tid, j: Job, time: int, ghost bumps: nat) returns (err: Option<ErrClass>)
      requires At(t, Backing(j, time, bumps, 1))
      modifies this
      ensures At(t, AfterTries(j, time, bumps, err))
      ensures Kept() == old(Kept())
      ensures Retried(old(calls), calls, old(core.v), core.v, Coord(env.groupOf(j.key), time), j.body, err)
    {
      hide At;
      hide Kept;
      hide Invoked;
      hide Retried;
      hide Retrying;
      hide AfterTries;
      hide ProtocolSteps.AfterBackup;
      var attempt := 1;
      ghost var x := Coord(env.groupOf(j.key), time);
      NoTryYet(calls, core.v);
      while true
        invariant 1 <= attempt <= MAX_TRANSIENT_RETRIES && At(t, Backing(j, time, bumps, attempt))
        invariant Kept() == old(Kept()) && calls == old(calls) + attempt - 1
        invariant Retrying(old(calls), calls, old(core.v), core.v)
        decreases MAX_TRANSIENT_RETRIES - attempt
      {
        ghost var before := core.v;
        err := InvokeBackup(t, j, time, bumps, attempt);
        AfterOneTry(j, time, bumps, attempt, err);
        if err != Some(Transient) || attempt >= MAX_TRANSIENT_RETRIES {
          LastTry(old(calls), calls, old(core.v), before, core.v, x, j.body, err);
          return;
        }
        OneMoreTry(old(calls), calls, old(core.v), before, core.v, x, j.body);
        attempt := attempt + 1;
      }
    }

    /** All invocations so far have failed transiently. */
    ghost predicate Retrying(first: nat, next: nat, was: Vault, now: Vault) {
      && first <= next && (forall n :: first <= n < next ==> FailsTransiently(n))
      && now.objects == was.objects && OthersLive(was, now, None) && (Harmless(first, next) ==> now == was)
    }

    lemma NoTryYet(first: nat, v: Vault)
      ensures Retrying(first, first, v, v)
    {
    }

    lemma OneMoreTry(first: nat, next: nat, a: Vault, b: Vault, c: Vault, x: Coord, body: Bytes)
      requires first < next && Retrying(first, next - 1, a, b)
      requires Invoked(faults(next - 1), b, c, x, body, Some(Transient))
      ensures Retrying(first, next, a, c)
    {
      StillLive(a, b, c, None);
    }

    lemma LastTry(first: nat, next: nat, a: Vault, b: Vault, c: Vault, x: Coord, body: Bytes, err: Option<ErrClass>)
      requires first < next <= first + MAX_TRANSIENT_RETRIES && Retrying(first, next - 1, a, b)
      requires Invoked(faults(next - 1), b, c, x, body, err)
      requires err == Some(Transient) ==> next == first + MAX_TRANSIENT_RETRIES
      ensures Retried(first, next, a, c, x, body, err)
    {
      StillLive(a, b, c, None);
      assert next - 1 > first ==> FailsTransiently(first);
    }

    /** The time at which a backup succeeds when no call fails: the first free one of the six from now on. */
    ghost function FirstFree(high: map<Group, int>, g: Group, now: int): Option<int> {
      if !InReach(high, g, now) then None
      else if g in high && now <= high[g] then Some(high[g] + 1)
      else Some(now)
    }

    /**
     What a backup comes to. Where failing calls have no effect and fail transiently, only three
     failures in a row keep it from the first free time.
     */
    ghost predicate Allocated(first: nat, next: nat, was: Vault, now: Vault, g: Group, clock: int, body: Bytes,
        used: Option<int>)
    {
      && first < next && OthersLive(was, now, None)
      && (used.Some? ==> BackedUp(was, now, Coord(g, used.value), body) && clock <= used.value)
      && (Fair(first, next) ==> used == FirstFree(was.high, g, clock))
      && (Fair(first, next) && used.Some? ==> now.live.Keys == was.live.Keys + {Coord(g, used.value)})
      && (Harmless(first, next) && used != FirstFree(was.high, g, clock) ==>
            next >= first + 3 && forall n :: next - 3 <= n < next ==> FailsTransiently(n))
    }

    /** The collision loop: one second later after each collision, at most six times. */
    method Backup(t: Tid, j: Job, now: int) returns (used: Option<int>)
      requires At(t, Backing(j, now, 0, 1))
      modifies this
      ensures At(t, Ungroup(j, used))
      ensures Kept() == old(Kept())
      ensures Allocated(old(calls), calls, old(core.v), core.v, env.groupOf(j.key), now, j.body, used)
    {
      hide At;
      hide Kept;
      hide AfterTries;
      hide Retried;
      hide Allocated;
      hide Colliding;
      var time, attempt := now, 0;
      ghost var g := env.groupOf(j.key);
      NoCollisionYet(calls, core.v, g, now);
      while true
        invariant 0 <= attempt <= MAX_COLLISION_RETRIES && At(t, Backing(j, time, attempt, 1)) && time == now + attempt
        invariant Kept() == old(Kept())
        invariant Colliding(old(calls), calls, old(core.v), core.v, g, now, attempt)
        decreases MAX_COLLISION_RETRIES - attempt
      {
        ghost var c0, before := calls, core.v;
        var err := BackupWithRetry(t, j, time, attempt);
        AfterAllTries(j, time, attempt, err);
        if err.None? || err.value != Collision || attempt == MAX_COLLISION_RETRIES {
          used := if err.None? then Some(time) else None;
          LastTime(old(calls), c0, calls, old(core.v), before, core.v, g, now, attempt, j.body, err);
          return;
        }
        OneMoreCollision(old(calls), c0, calls, old(core.v), before, core.v, g, now, attempt, j.body);
        time, attempt := time + 1, attempt + 1;
      }
    }

    /** The first `attempt` times have collided. */
    ghost predicate Colliding(first: nat, next: nat, was: Vault, now: Vault, g: Group, clock: int, attempt: nat) {
      && first <= next && now.objects == was.objects && OthersLive(was, now, None)
      && (Harmless(first, next) ==> now == was && (attempt > 0 ==> g in was.high && clock + attempt - 1 <= was.high[g]))
    }

    lemma NoCollisionYet(first: nat, v: Vault, g: Group, clock: int)
      ensures Colliding(first, first, v, v, g, clock, 0)
    {
    }

    lemma OneMoreCollision(first: nat, mid: nat, next: nat, a: Vault, b: Vault, c: Vault, g: Group, clock: int,
        attempt: nat, body: Bytes)
      requires Colliding(first, mid, a, b, g, clock, attempt)
      requires Retried(mid, next, b, c, Coord(g, clock + attempt), body, Some(Collision))
      ensures Colliding(first, next, a, c, g, clock, attempt + 1)
    {
      StillLive(a, b, c, None);
      if Harmless(first, next) {
        assert Harmless(first, mid) && Harmless(mid, next);
        assert faults(next - 1).Fine?;
      }
    }

    lemma LastTime(first: nat, mid: nat, next: nat, a: Vault, b: Vault, c: Vault, g: Group, clock: int,
        attempt: nat, body: Bytes, err: Option<ErrClass>)
      requires Colliding(first, mid, a, b, g, clock, attempt) && attempt <= MAX_COLLISION_RETRIES
      requires Retried(mid, next, b, c, Coord(g, clock + attempt), body, err)
      requires err == Some(Collision) ==> attempt == MAX_COLLISION_RETRIES
      ensures Allocated(first, next, a, c, g, clock, body, if err.None? then Some(clock + attempt) else None)
    {
      StillLive(a, b, c, None);
      if Harmless(first, next) {
        assert Harmless(first, mid) && Harmless(mid, next);
        if faults(next - 1).Bad? { assert FailsTransiently(next - 1); }
      }
      if Fair(first, next) { assert Harmless(first, next) && Fair(mid, next) && faults(next - 1).Fine?; }
    }

    /** One `forget` invocation: the outcome, and the datastore after it. */
    method InvokeForget(x: Coord) returns (o: Outcome)
      modifies this`calls, this`core
      ensures (o.Ok? || o.Fail?) && Forget(old(core.v), x, o) == Some(core.v) && core.d == old(core.d)
      ensures core.v == old(core.v).(live := core.v.live) && Tried(faults(old(calls)), old(core.v), core.v, x, o)
      ensures calls == old(calls) + 1 && (faults(old(calls)).Fine? ==> Forgotten(o))
    {
      var f := Call();
      if f.Bad? && f.kind != Missing {
        o := Fail(f.kind, f.after);
      } else if x in core.v.live {
        o := Ok;
      } else {
        o := Fail(Missing, false);
      }
      if o.Ok? || o.after {
        core := core.(v := core.v.(live := core.v.live - {x}));
      }
    }

    /** What one `forget` invocation comes to when its fault is f. */
    ghost predicate Tried(f: Fault, was: Vault, now: Vault, x: Coord, o: Outcome) {
      && now.live in {was.live, was.live - {x}} && now.objects == was.objects
      && (x in now.live ==> f.Bad? && !f.after && !f.kind.Missing?)
      && (Forgotten(o) ==> x !in now.live) && (!Forgotten(o) ==> f.Bad?)
      && (o.Fail? && o.kind.Transient? <==> f.Bad? && f.kind.Transient?)
    }

    /** What runWithRetry around it comes to; the snapshot stays only if the last invocation failed, without effect. */
    ghost predicate Forgot(first: nat, next: nat, was: Vault, now: Vault, m: Mapping) {
      && first < next <= first + MAX_TRANSIENT_RETRIES && (forall n :: first <= n < next - 1 ==> FailsTransiently(n))
      && OthersLive(was, now, Some(m)) && now.live.Keys <= was.live.Keys && now.objects == was.objects
      && (m.at in now.live ==>
            var f := faults(next - 1);
            f.Bad? && !f.after && !f.kind.Missing? && (f.kind.Transient? ==> next == first + MAX_TRANSIENT_RETRIES))
    }

    /** All invocations so far have failed transiently. */
    ghost predicate Forgetting(first: nat, next: nat, was: Vault, now: Vault, m: Mapping) {
      && first <= next && (forall n :: first <= n < next ==> FailsTransiently(n))
      && OthersLive(was, now, Some(m)) && now.live.Keys <= was.live.Keys && now.objects == was.objects
    }

    lemma NotForgottenYet(first: nat, v: Vault, m: Mapping)
      ensures Forgetting(first, first, v, v, m)
    {
    }

    lemma OneMoreForget(first: nat, next: nat, a: Vault, b: Vault, c: Vault, m: Mapping, o: Outcome)
      requires first < next <= first + MAX_TRANSIENT_RETRIES && Forgetting(first, next - 1, a, b, m)
      requires Tried(faults(next - 1), b, c, m.at, o)
      ensures Retries(o, next - first) ==> Forgetting(first, next, a, c, m)
      ensures !Retries(o, next - first) ==> Forgot(first, next, a, c, m)
      ensures Forgotten(o) ==> m.at !in c.live
      ensures !Forgotten(o) ==> !Fair(first, next)
    {
      assert !Forgotten(o) ==> faults(next - 1).Bad?;
    }

    /** The commit's forget of the superseded snapshot; whether it works makes no difference to the answer. */
    method ForgetSuperseded(t: Tid, j: Job, prev: Mapping)
      requires At(t, ForgetOld(j, prev, 1))
      modifies this
      ensures At(t, Finish(j)) && Kept() == old(Kept())
      ensures Forgot(old(calls), calls, old(core.v), core.v, prev)
    {
      hide At;
      hide Kept;
      hide Tried;
      hide Forgot;
      hide Forgetting;
      hide ProtocolSteps.Retries;
      hide ProtocolSteps.Finish;
      var attempt := 1;
      NotForgottenYet(calls, core.v, prev);
      while true
        invariant 1 <= attempt <= MAX_TRANSIENT_RETRIES && At(t, ForgetOld(j, prev, attempt))
        invariant Kept() == old(Kept()) && calls == old(calls) + attempt - 1
        invariant Forgetting(old(calls), calls, old(core.v), core.v, prev)
        decreases MAX_TRANSIENT_RETRIES - attempt
      {
        ghost var before := core.v;
        var o := TryForgetOld(t, j, prev, attempt);
        OneMoreForget(old(calls), calls, old(core.v), before, core.v, prev, o);
        NoRetryAfterLast(o, attempt);
        if !Retries(o, attempt) {
          return;
        }
        attempt := attempt + 1;
      }
    }

    lemma NoRetryAfterLast(o: Outcome, tries: nat)
      ensures Retries(o, tries) ==> tries < MAX_TRANSIENT_RETRIES
    {
    }

    method TryForgetOld(t: Tid, j: Job, prev: Mapping, tries: nat) returns (o: Outcome)
      requires At(t, ForgetOld(j, prev, tries))
      modifies this
      ensures At(t, if Retries(o, tries) then ForgetOld(j, prev, tries + 1) else Finish(j))
      ensures Kept() == old(Kept()) && calls == old(calls) + 1
      ensures Tried(faults(old(calls)), old(core.v), core.v, prev.at, o)
    {
      hide ProtocolRuns.Reaches;
      hide BridgeFrames.Alone;
      hide Tried;
      hide ProtocolSteps.Forget;
      hide ProtocolSteps.Finish;
      o := InvokeForget(prev.at);
      GoCommit(t, o, if Retries(o, tries) then ForgetOld(j, prev, tries + 1) else Finish(j));
    }

    // ---- Commit ----

    /** What a commit comes to: the key's snapshot is replaced, or nothing is lost. */
    ghost predicate CommitDone(first: nat, next: nat, was: Core, now: Core, j: Job, ok: bool) {
      && first < next
      && (if ok then StoredAs(was.v, now.v, j.key, j.body) else NothingLost(was.v, now.v))
      && now.d in {was.d, RemoveFile(was.d, j.file)}
      && (Favourable(first, next, was.v, j.key) ==>
            ok && Replaced(was.v, now.v, j.key) && now.d == RemoveFile(was.d, j.file))
    }

    /** commitObjectLocked: the caller holds the key's lock. */
    method CommitObjectLocked(t: Tid, j: Job) returns (ok: bool)
      requires At(t, Clock(j))
      modifies this
      ensures At(t, if ok then Finish(j) else Unlock(j.key, Failed)) && s.reqs == old(s.reqs)
      ensures core.v.log == if ok then old(core.v.log) + [Put(t, j.key, j.body)] else old(core.v.log)
      ensures CommitDone(old(calls), calls, old(core), core, j, ok)
    {
      hide At;
      hide CommitDone;
      hide Mapped;
      hide GroupBackedUp;
      ghost var c0, was := calls, core;
      var used := BackUpInGroup(t, j);
      ghost var c1, made := calls, core;
      if used.None? {
        NotBackedUp(c0, c1, was, made, j);
        return false;
      }
      RemoveSource(t, j, used.value);
      ghost var c2, removed := calls, core;
      ReadNotes(t, j, used.value);
      ok := WriteMapping(t, j, used.value);
      CommitComposes(c0, c1, c2, calls, was, made, removed, core, j, used.value, ok);
    }

    ghost predicate GroupBackedUp(first: nat, next: nat, was: Core, now: Core, j: Job, used: Option<int>) {
      && first < next && now.d == was.d
      && (match used
          case Some(time) => BackedUp(was.v, now.v, Coord(env.groupOf(j.key), time), j.body)
          case None => NothingLost(was.v, now.v))
      && (Favourable(first, next, was.v, j.key) ==>
            used.Some? && now.v.live.Keys == was.v.live.Keys + {Coord(env.groupOf(j.key), used.value)})
    }

    lemma NotBackedUp(first: nat, next: nat, was: Core, now: Core, j: Job)
      requires GroupBackedUp(first, next, was, now, j, None)
      ensures CommitDone(first, next, was, now, j, false)
    {
    }

    lemma CommitComposes(c0: nat, c1: nat, c2: nat, c3: nat, was: Core, made: Core, removed: Core, now: Core, j: Job,
        time: int, ok: bool)
      requires GroupBackedUp(c0, c1, was, made, j, Some(time)) && c2 == c1 + 1
      requires removed == if faults(c1).Fine? then made.(d := RemoveFile(made.d, j.file)) else made
      requires Mapped(c2, c3, removed.v, now.v, j, time, ok) && now.d == removed.d
      ensures CommitDone(c0, c3, was, now, j, ok)
    {
      hide Mapped;
      hide GroupBackedUp;
      hide Favourable;
      hide Fair;
      VaultComposes(c0, c1, c2, c3, was.v, made.v, now.v, j, time, ok, was.d, made.d);
      FairParts(c0, c1, c3, was.v, j.key);
      FavourableHead(c0, c1, c3, was.v, j.key);
    }

    lemma FavourableHead(first: nat, mid: nat, next: nat, v: Vault, k: ObjKey)
      requires first <= mid < next
      ensures Favourable(first, next, v, k) ==> faults(mid).Fine? && Favourable(first, mid, v, k)
    {
    }

    lemma VaultComposes(c0: nat, c1: nat, c2: nat, c3: nat, was: Vault, made: Vault, now: Vault, j: Job,
        time: int, ok: bool, d: Desk, f: Desk)
      requires GroupBackedUp(c0, c1, Core(was, d), Core(made, f), j, Some(time)) && c1 <= c2
      requires Mapped(c2, c3, made, now, j, time, ok)
      ensures if ok then StoredAs(was, now, j.key, j.body) else NothingLost(was, now)
      ensures Favourable(c0, c3, was, j.key) ==> ok && Replaced(was, now, j.key)
      ensures c0 < c1 && c2 < c3 && f == d
    {
      if ok { BackedUpThenMapped(was, made, now, j.key, Coord(env.groupOf(j.key), time), j.body); }
      if Favourable(c0, c3, was, j.key) { assert Favourable(c0, c1, was, j.key) && Fair(c2, c3); }
    }

    /** Reads the clock, then backs the file up under the group's lock. */
    method BackUpInGroup(t: Tid, j: Job) returns (used: Option<int>)
      requires At(t, Clock(j))
      modifies this
      ensures At(t, if used.Some? then RemoveSrc(j, used.value) else Unlock(j.key, Failed))
      ensures s.reqs == old(s.reqs) && core.v.log == old(core.v.log)
      ensures GroupBackedUp(old(calls), calls, old(core), core, j, used)
    {
      hide ProtocolRuns.Reaches;
      hide BridgeFrames.Alone;
      hide Allocated;
      hide GroupBackedUp;
      var now := clock(calls);
      GoCommit(t, Time(now), WaitGroup(j, now));
      LockGroup(t, j, now);
      used := Backup(t, j, now);
      BackedUpInGroup(old(calls), calls, old(core), core, j, now, used);
      GoCommit(t, Ok, if used.Some? then RemoveSrc(j, used.value) else Unlock(j.key, Failed));
    }

    lemma BackedUpInGroup(first: nat, next: nat, was: Core, now: Core, j: Job, time: int, used: Option<int>)
      requires Allocated(first, next, was.v, now.v, env.groupOf(j.key), time, j.body, used)
      requires time == clock(first) && now.d == was.d && now.v.objects == was.v.objects
      ensures GroupBackedUp(first, next, was, now, j, used)
    {
      if Favourable(first, next, was.v, j.key) { assert Fair(first, next) && InReach(was.v.high, env.groupOf(j.key), time); }
    }

    /** The group lock is free: nobody else is running. */
    ghost method LockGroup(t: Tid, j: Job, now: int)
      requires At(t, WaitGroup(j, now))
      modifies this`s, this`trail
      ensures At(t, Backing(j, now, 0, 1)) && s.reqs == old(s.reqs)
    {
      var n := Move(s, t, Backing(j, now, 0, 1));
      assert Apply(env, s, Lock(t)) == Some(n);
      RunSnoc(env, INIT, trail, s, Lock(t));
      trail, s := trail + [Lock(t)], n;
    }

    /** The backed-up file is removed, if that works. */
    method RemoveSource(t: Tid, j: Job, time: int)
      requires At(t, RemoveSrc(j, time))
      modifies this
      ensures At(t, Notes(j, time)) && s.reqs == old(s.reqs) && calls == old(calls) + 1
      ensures core == if faults(old(calls)).Fine? then old(core).(d := RemoveFile(old(core.d), j.file)) else old(core)
    {
      var f := Call();
      if f.Fine? {
        core := core.(d := RemoveFile(core.d, j.file));
        GoCommit(t, Ok, Notes(j, time));
      } else {
        GoCommit(t, Fail(Other, false), Notes(j, time));
      }
    }

    /** The notes of the snapshot are not modelled. */
    ghost method ReadNotes(t: Tid, j: Job, time: int)
      requires At(t, Notes(j, time))
      modifies this`s, this`trail
      ensures At(t, ReadOld(j, time)) && s.reqs == old(s.reqs)
    {
      GoCommit(t, Ok, ReadOld(j, time));
    }

    /** What the writing of the mapping comes to. */
    ghost predicate Mapped(first: nat, next: nat, was: Vault, now: Vault, j: Job, time: int, ok: bool) {
      && first < next
      && (if ok then MappedTo(was, now, j.key, Coord(env.groupOf(j.key), time)) else now == was)
      && (Fair(first, next) ==> ok && now.live.Keys == was.live.Keys - AtOf(Lookup(was.objects, j.key)))
    }

    /** Reads the old mapping, writes the new one, and only then forgets the old snapshot. */
    method WriteMapping(t: Tid, j: Job, time: int) returns (ok: bool)
      requires At(t, ReadOld(j, time))
      modifies this
      ensures At(t, if ok then Finish(j) else Unlock(j.key, Failed)) && core.d == old(core.d) && s.reqs == old(s.reqs)
      ensures core.v.log == if ok then old(core.v.log) + [Put(t, j.key, j.body)] else old(core.v.log)
      ensures Mapped(old(calls), calls, old(core.v), core.v, j, time, ok)
    {
      hide At;
      hide Mapped;
      hide Forgot;
      hide Fair;
      hide ProtocolSteps.PutMapping;
      hide ProtocolSteps.Finish;
      ghost var c0, was := calls, core.v;
      NewIsNotOld(t, j, time);
      var prev, read := ReadPrevious(t, j, time);
      if !read {
        MappingNotWritten(c0, calls, was, j, time);
        return false;
      }
      ok := PutNewMapping(t, j, time, prev);
      ghost var c1, written := calls, core.v;
      if !ok {
        MappingNotWritten(c0, calls, was, j, time);
        return;
      }
      if prev.Some? {
        ForgetSuperseded(t, j, prev.value);
      }
      MappingWritten(c0, c1, calls, was, written, core.v, t, j, time, prev);
    }

    /** The new snapshot is not the one the key points to so far. */
    lemma NewIsNotOld(t: Tid, j: Job, time: int)
      requires At(t, ReadOld(j, time))
      ensures Coord(env.groupOf(j.key), time) !in AtOf(Lookup(core.v.objects, j.key))
    {
      ReachableInv(env, trail, s);
      hide ProtocolRuns.Reaches;
      assert NewSnapOk(env, core.v, j, time);
    }

    lemma MappingNotWritten(first: nat, next: nat, v: Vault, j: Job, time: int)
      requires first < next && faults(next - 1).Bad?
      ensures Mapped(first, next, v, v, j, time, false)
    {
    }

    lemma MappingWritten(first: nat, mid: nat, next: nat, a: Vault, b: Vault, c: Vault, t: Tid, j: Job, time: int,
        prev: Option<Mapping>)
      requires first < mid && b == PutMapping(env, a, t, j, time) && prev == Lookup(a.objects, j.key)
      requires Coord(env.groupOf(j.key), time) !in AtOf(prev)
      requires if prev.Some? then Forgot(mid, next, b, c, prev.value) else next == mid && c == b
      ensures Mapped(first, next, a, c, j, time, true)
    {
      if Fair(first, next) && prev.Some? { assert faults(next - 1).Fine?; }
    }

    method ReadPrevious(t: Tid, j: Job, time: int) returns (prev: Option<Mapping>, ok: bool)
      requires At(t, ReadOld(j, time))
      modifies this
      ensures At(t, if ok then WriteMap(j, time, prev) else Unlock(j.key, Failed)) && core == old(core)
      ensures s.reqs == old(s.reqs) && calls == old(calls) + 1 && (ok <==> faults(old(calls)).Fine?)
      ensures prev == Lookup(core.v.objects, j.key)
    {
      var f := Call();
      ok := f.Fine?;
      prev := Lookup(core.v.objects, j.key);
      if ok {
        GoCommit(t, Ok, WriteMap(j, time, prev));
      } else {
        GoCommit(t, Fail(Other, false), Unlock(j.key, Failed));
      }
    }

    method PutNewMapping(t: Tid, j: Job, time: int, prev: Option<Mapping>) returns (ok: bool)
      requires At(t, WriteMap(j, time, prev))
      modifies this
      ensures At(t, if !ok then Unlock(j.key, Failed) else if prev.Some? then ForgetOld(j, prev.value, 1) else Finish(j))
      ensures core.d == old(core.d) && s.reqs == old(s.reqs) && calls == old(calls) + 1
      ensures core.v == if ok then PutMapping(env, old(core.v), t, j, time) else old(core.v)
      ensures core.v.log == if ok then old(core.v.log) + [Put(t, j.key, j.body)] else old(core.v.log)
      ensures ok <==> faults(old(calls)).Fine?
    {
      var f := Call();
      ok := f.Fine?;
      if ok {
        core := core.(v := PutMapping(env, core.v, t, j, time));
        GoCommit(t, Ok, if prev.Some? then ForgetOld(j, prev.value, 1) else Finish(j));
      } else {
        GoCommit(t, Fail(Other, false), Unlock(j.key, Failed));
      }
    }

    // ---- Requests and locks ----

    /** No request is running. */
    ghost predicate Idle()
      reads this
    {
      Reaches(env, trail, s) && s.core == core && forall u :: u in s.procs ==> Over(s.procs[u])
    }

    /** The request has been answered, and none is running. */
    ghost predicate Answered(t: Tid, r: Request, resp: Resp)
      reads this
    {
      Idle() && t in s.procs && s.procs[t] == Done(resp) && t in s.reqs && s.reqs[t] == r
    }

    ghost method Begin(t: Tid, r: Request)
      requires Idle() && t !in s.procs
      modifies this`s, this`trail
      ensures At(t, Entry(r, core)) && t in s.reqs && s.reqs[t] == r
    {
      T.NewTid(env, trail, s, t);
      var n := Move(s.(reqs := s.reqs[t := r]), t, Entry(r, core));
      assert Apply(env, s, Start(t, r)) == Some(n);
      RunSnoc(env, INIT, trail, s, Start(t, r));
      trail, s := trail + [Start(t, r)], n;
    }

    /** The key's lock is free: nobody else is running. */
    ghost method LockKey(t: Tid, k: ObjKey, next: Pc)
      requires At(t, Wait(k, next))
      modifies this`s, this`trail
      ensures At(t, next) && s.reqs == old(s.reqs)
    {
      var n := Move(s, t, next);
      assert Apply(env, s, Lock(t)) == Some(n);
      RunSnoc(env, INIT, trail, s, Lock(t));
      trail, s := trail + [Lock(t)], n;
    }

    ghost method Answer(t: Tid, k: ObjKey, resp: Resp)
      requires At(t, Unlock(k, resp))
      modifies this`s, this`trail
      ensures Idle() && t in s.procs && s.procs[t] == Done(resp) && s.reqs == old(s.reqs)
    {
      var n := Move(s, t, Done(resp));
      assert Apply(env, s, Release(t)) == Some(n);
      RunSnoc(env, INIT, trail, s, Release(t));
      trail, s := trail + [Release(t)], n;
    }

    /** The objects as a client sees them. */
    ghost function Objects(): Objects
      reads this
    {
      Abstract(core.v)
    }

    // ---- PutObject ----

    /** What a put comes to: besides its own temporary file, no upload and no other file is touched. */
    ghost predicate PutDone(first: nat, next: nat, was: Core, now: Core, j: Job, ok: bool) {
      && (if ok then StoredAs(was.v, now.v, j.key, j.body) else NothingLost(was.v, now.v))
      && RemoveFile(now.d, j.file) == RemoveFile(was.d, j.file)
      && (Favourable(first, next, was.v, j.key) ==>
            ok && Replaced(was.v, now.v, j.key) && now.d == RemoveFile(was.d, j.file))
    }

    /**
     Stages the body, then commits it under the key's lock. The snapshot of the object there
     was is forgotten, and nothing else is lost.
     */
    method PutObject(t: Tid, key: ObjKey, body: Bytes) returns (resp: Resp)
      requires Idle() && t !in s.procs
      modifies this
      ensures Answered(t, ProtocolState.PutObject(key, body), resp) && resp in {Stored, Failed}
      ensures Objects() == if resp.Stored? then old(Objects())[key := body] else old(Objects())
      ensures PutDone(old(calls), calls, old(core), core, Job(key, Tmp(t), body, None), resp.Stored?)
    {
      hide ProtocolRuns.Reaches;
      hide PutDone;
      ghost var before, at := trail, s;
      Begin(t, ProtocolState.PutObject(key, body));
      resp := StageAndCommit(t, Job(key, Tmp(t), body, None));
      ObjectsFollowLog(env, before, at, trail, s, Put(t, key, body));
    }

    method StageAndCommit(t: Tid, j: Job) returns (resp: Resp)
      requires At(t, Staging(j.key, j.body)) && j.file == Tmp(t) && j.via.None?
      modifies this
      ensures Idle() && t in s.procs && s.procs[t] == Done(resp) && s.reqs == old(s.reqs)
      ensures core.v.log == if resp.Stored? then old(core.v.log) + [Put(t, j.key, j.body)] else old(core.v.log)
      ensures resp in {Stored, Failed} && PutDone(old(calls), calls, old(core), core, j, resp.Stored?)
    {
      hide CommitDone;
      hide PutDone;
      hide ProtocolRuns.Reaches;
      ghost var c0, was := calls, core;
      var ok := StageBody(t, j);
      ghost var c1, staged := calls, core;
      if !ok {
        NotStaged(c0, c1, was, j);
        return Failed;
      }
      LockKey(t, j.key, Clock(j));
      ok := CommitObjectLocked(t, j);
      PutComposes(c0, c1, calls, was, staged, core, j, ok);
      resp := if ok then Stored else Failed;
      Answer(t, j.key, resp);
    }

    lemma NotStaged(first: nat, next: nat, was: Core, j: Job)
      requires first < next && faults(first).Bad?
      ensures PutDone(first, next, was, was, j, false)
    {
    }

    lemma PutComposes(c0: nat, c1: nat, c2: nat, was: Core, staged: Core, now: Core, j: Job, ok: bool)
      requires c0 < c1 && staged == was.(d := WriteFile(was.d, j.file, j.body))
      requires CommitDone(c1, c2, staged, now, j, ok)
      ensures PutDone(c0, c2, was, now, j, ok)
    {
      FairParts(c0, c1, c2, was.v, j.key);
      assert RemoveFile(staged.d, j.file) == RemoveFile(was.d, j.file);
      assert RemoveFile(RemoveFile(staged.d, j.file), j.file) == RemoveFile(staged.d, j.file);
    }

    method StageBody(t: Tid, j: Job) returns (ok: bool)
      requires At(t, Staging(j.key, j.body)) && j.file == Tmp(t) && j.via.None?
      modifies this
      ensures At(t, if ok then Wait(j.key, Clock(j)) else Done(Failed)) && s.reqs == old(s.reqs)
      ensures core == if ok then old(core).(d := WriteFile(old(core.d), j.file, j.body)) else old(core)
      ensures calls == old(calls) + 1 && (ok <==> faults(old(calls)).Fine?)
    {
      var f := Call();
      ok := f.Fine?;
      if ok {
        core := core.(d := WriteFile(core.d, Tmp(t), j.body));
        GoCommit(t, Ok, Wait(j.key, Clock(j)));
      } else {
        GoCommit(t, Fail(Other, false), Done(Failed));
      }
    }

    // ---- DeleteObject ----

    /** One `forget` invocation of a delete: from the moment the snapshot is gone the key is doomed. */
    method InvokeDoom(k: ObjKey, x: Coord) returns (o: Outcome)
      modifies this`calls, this`core
      ensures (o.Ok? || o.Fail?) && Doom(old(core.v), k, x, o) == Some(core.v) && core.d == old(core.d)
      ensures core.v == old(core.v).(live := core.v.live, doomed := core.v.doomed)
      ensures Tried(faults(old(calls)), old(core.v), core.v, x, o) && calls == old(calls) + 1
    {
      o := InvokeForget(x);
      if x !in core.v.live {
        core := core.(v := core.v.(doomed := core.v.doomed + {k}));
      }
    }

    /** Forgets the snapshot of the object to be deleted. */
    method ForgetObject(t: Tid, k: ObjKey, m: Mapping) returns (ok: bool)
      requires At(t, DelForget(k, m, 1))
      modifies this
      ensures At(t, if ok then DelUnmap(k) else Unlock(k, Failed)) && Kept() == old(Kept())
      ensures Forgot(old(calls), calls, old(core.v), core.v, m) && (ok ==> m.at !in core.v.live)
      ensures Fair(old(calls), calls) ==> ok
    {
      hide At;
      hide Kept;
      hide Tried;
      hide Fair;
      hide Forgot;
      hide Forgetting;
      hide AfterForget;
      hide ProtocolSteps.Forgotten;
      hide ProtocolSteps.Retries;
      var attempt := 1;
      NotForgottenYet(calls, core.v, m);
      while true
        invariant 1 <= attempt <= MAX_TRANSIENT_RETRIES && At(t, DelForget(k, m, attempt)) && Kept() == old(Kept())
        invariant calls == old(calls) + attempt - 1 && Forgetting(old(calls), calls, old(core.v), core.v, m)
        decreases MAX_TRANSIENT_RETRIES - attempt
      {
        ghost var before := core.v;
        var o := TryForget(t, k, m, attempt);
        OneMoreForget(old(calls), calls, old(core.v), before, core.v, m, o);
        WhereNext(k, m, o, attempt);
        if Forgotten(o) { return true; }
        if !Retries(o, attempt) { return false; }
        attempt := attempt + 1;
      }
    }

    ghost function AfterForget(k: ObjKey, m: Mapping, o: Outcome, tries: nat): Pc {
      if Forgotten(o) then DelUnmap(k)
      else if Retries(o, tries) then DelForget(k, m, tries + 1)
      else Unlock(k, Failed)
    }

    lemma WhereNext(k: ObjKey, m: Mapping, o: Outcome, tries: nat)
      ensures Forgotten(o) ==> AfterForget(k, m, o, tries) == DelUnmap(k) && !Retries(o, tries)
      ensures Retries(o, tries) ==> AfterForget(k, m, o, tries) == DelForget(k, m, tries + 1) && tries < MAX_TRANSIENT_RETRIES
      ensures !Forgotten(o) && !Retries(o, tries) ==> AfterForget(k, m, o, tries) == Unlock(k, Failed)
    {
    }

    method TryForget(t: Tid, k: ObjKey, m: Mapping, ghost tries: nat) returns (o: Outcome)
      requires At(t, DelForget(k, m, tries))
      modifies this
      ensures Kept() == old(Kept())
      ensures At(t, AfterForget(k, m, o, tries))
      ensures calls == old(calls) + 1 && Tried(faults(old(calls)), old(core.v), core.v, m.at, o)
    {
      hide Tried;
      o := InvokeDoom(k, m.at);
      GoDelete(t, o, AfterForget(k, m, o, tries));
    }

    /** The uploads for the object, each once. */
    method FindUploadsByBucketKey(k: ObjKey) returns (us: seq<UploadId>)
      ensures Matching(core.d, k, us)
    {
      us := [];
      var rest := core.d.uploads.Keys;
      while rest != {}
        invariant rest <= core.d.uploads.Keys && Distinct(us)
        invariant forall u :: u in us <==> u in core.d.uploads && u !in rest && core.d.uploads[u] == k
        decreases rest
      {
        var u :| u in rest;
        rest := rest - {u};
        if core.d.uploads[u] == k {
          us := us + [u];
        }
      }
    }

    method RemoveUploadDir(u: UploadId) returns (o: Outcome)
      modifies this`calls, this`core
      ensures RemoveDir(old(core.d), u, o) == Some(core.d) && core.v == old(core.v)
      ensures (o.Ok? || o.Partly?) && calls == old(calls) + 1 && (faults(old(calls)).Fine? ==> o.Ok?)
    {
      var f := Call();
      o := if f.Fine? then Ok else Partly(f.kept);
      core := core.(d := RemoveDir(core.d, u, o).value);
    }

    method DeleteUploadRecord(u: UploadId) returns (o: Outcome)
      modifies this`calls, this`core
      ensures MaybeDeleteUpload(old(core.d), u, o) == Some(core.d) && core.v == old(core.v)
      ensures (o == Ok || o == Fail(Other, false)) && calls == old(calls) + 1 && (faults(old(calls)).Fine? ==> o.Ok?)
    {
      var f := Call();
      o := if f.Fine? then Ok else Fail(Other, false);
      core := core.(d := MaybeDeleteUpload(core.d, u, o).value);
    }

    /** Removes what uploads there are for an object that does not exist. */
    method AbortMatchingUploads(t: Tid, k: ObjKey) returns (resp: Resp)
      requires At(t, DelFind(k))
      modifies this
      ensures At(t, Unlock(k, resp)) && resp in {NotFound, Failed} && OffDesk() == old(OffDesk())
      ensures calls > old(calls) && OthersKept(old(core.d), core.d, k)
      ensures Fair(old(calls), calls) ==> resp.NotFound? && AllGone(old(core.d), core.d, k)
    {
      hide ProtocolRuns.Reaches;
      hide BridgeFrames.OthersKept;
      hide BridgeFrames.AllGone;
      hide ProtocolSteps.Matching;
      NoneCleanedYet(core.d, k, []);
      var uploads := ListMatching(t, k);
      if uploads.None? { return Failed; }
      CleanUploads(t, k, uploads.value);
      GoDelete(t, Ok, Unlock(k, NotFound));
      return NotFound;
    }

    method ListMatching(t: Tid, k: ObjKey) returns (us: Option<seq<UploadId>>)
      requires At(t, DelFind(k))
      modifies this
      ensures At(t, if us.Some? then DelDirs(k, us.value) else Unlock(k, Failed))
      ensures core == old(core) && s.reqs == old(s.reqs) && (us.Some? ==> Matching(core.d, k, us.value))
      ensures calls == old(calls) + 1 && (us.Some? <==> faults(old(calls)).Fine?)
    {
      var f := Call();
      if f.Bad? {
        GoDelete(t, Fail(Other, false), Unlock(k, Failed));
        return None;
      }
      var found := FindUploadsByBucketKey(k);
      GoDelete(t, Found(found), DelDirs(k, found));
      return Some(found);
    }

    method CleanUploads(t: Tid, k: ObjKey, found: seq<UploadId>)
      requires At(t, DelDirs(k, found)) && Matching(core.d, k, found)
      modifies this
      ensures At(t, DelDirs(k, [])) && OffDesk() == old(OffDesk())
      ensures calls >= old(calls) && OthersKept(old(core.d), core.d, k)
      ensures Fair(old(calls), calls) ==> AllGone(old(core.d), core.d, k)
    {
      hide At;
      hide BridgeFrames.OthersKept;
      hide BridgeFrames.AllGone;
      hide BridgeFrames.Cleaning;
      hide BridgeFrames.CleanedUp;
      hide BridgeFrames.NothingOf;
      hide ProtocolSteps.Matching;
      hide ProtocolRuns.Reaches;
      var uploads, i := found, 0;
      NoneCleanedYet(core.d, k, found);
      while uploads != []
        invariant At(t, DelDirs(k, uploads)) && OffDesk() == old(OffDesk())
        invariant 0 <= i <= |found| && uploads == found[i..] && calls >= old(calls)
        invariant Cleaning(old(core.d), core.d, k, found, i, Fair(old(calls), calls))
        decreases |uploads|
      {
        ghost var before, fair := core.d, Fair(old(calls), calls);
        CleanUpload(t, k, uploads);
        OneMoreCleaned(old(core.d), before, core.d, k, found, i, fair, Fair(old(calls), calls));
        uploads, i := uploads[1..], i + 1;
      }
      AllCleaned(old(core.d), core.d, k, found, Fair(old(calls), calls));
    }

    /** The record of an upload goes even if its directory cannot be removed. */
    method CleanUpload(t: Tid, k: ObjKey, uploads: seq<UploadId>)
      requires uploads != [] && At(t, DelDirs(k, uploads))
      modifies this
      ensures At(t, DelDirs(k, uploads[1..])) && OffDesk() == old(OffDesk())
      ensures calls == old(calls) + 2 && CleanedUp(old(core.d), core.d, uploads[0])
      ensures Fair(old(calls), calls) ==> NothingOf(core.d, uploads[0])
    {
      hide BridgeFrames.CleanedUp;
      hide BridgeFrames.NothingOf;
      hide ProtocolRuns.Reaches;
      var dir := CleanDirectory(t, k, uploads);
      ghost var mid := core.d;
      var rec := DeleteUploadRecord(uploads[0]);
      GoDelete(t, rec, DelDirs(k, uploads[1..]));
      UploadCleaned(old(core.d), mid, core.d, uploads[0], dir, rec);
    }

    method CleanDirectory(t: Tid, k: ObjKey, uploads: seq<UploadId>) returns (o: Outcome)
      requires uploads != [] && At(t, DelDirs(k, uploads))
      modifies this
      ensures At(t, DelRecs(k, uploads)) && OffDesk() == old(OffDesk())
      ensures calls == old(calls) + 1
      ensures RemoveDir(old(core.d), uploads[0], o) == Some(core.d) && (faults(old(calls)).Fine? ==> o.Ok?)
    {
      o := RemoveUploadDir(uploads[0]);
      GoDelete(t, o, DelRecs(k, uploads));
    }

    /** What a delete takes away: the mapping if it succeeds, and no snapshot but this key's. */
    ghost predicate Deleted(was: Vault, now: Vault, k: ObjKey, removed: bool) {
      && now.objects == (if removed then was.objects - {k} else was.objects)
      && OthersLive(was, now, Lookup(was.objects, k)) && now.live.Keys <= was.live.Keys
      && (removed ==> k in was.objects && was.objects[k].at !in now.live)
    }

    /** Deletes the object, or cleans up its uploads when there is none. */
    method DeleteObject(t: Tid, k: ObjKey) returns (resp: Resp)
      requires Idle() && t !in s.procs
      modifies this
      ensures Answered(t, ProtocolState.DeleteObject(k), resp)
      ensures Objects() == if resp.Removed? then old(Objects()) - {k} else old(Objects())
      ensures (resp.Removed? ==> k in old(Objects())) && (resp.NotFound? ==> k !in old(Objects()))
      ensures Fair(old(calls), calls) ==> resp == if k in old(Objects()) then Removed else NotFound
      ensures Deleted(old(core.v), core.v, k, resp.Removed?) && (k in old(Objects()) ==> core.d == old(core.d))
      ensures k !in old(Objects()) ==> core.v == old(core.v) && OthersKept(old(core.d), core.d, k)
      ensures k !in old(Objects()) && Fair(old(calls), calls) ==> AllGone(old(core.d), core.d, k)
    {
      hide ProtocolRuns.Reaches;
      hide BridgeFrames.OthersKept;
      hide BridgeFrames.AllGone;
      hide Deleted;
      ghost var before, at := trail, s;
      Begin(t, ProtocolState.DeleteObject(k));
      LockKey(t, k, DelRead(k));
      resp := DeleteLocked(t, k);
      Answer(t, k, resp);
      ObjectsFollowLog(env, before, at, trail, s, Del(t, k));
    }

    method DeleteLocked(t: Tid, k: ObjKey) returns (resp: Resp)
      requires At(t, DelRead(k))
      modifies this
      ensures At(t, Unlock(k, resp)) && resp in {NotFound, Failed, Removed} && s.reqs == old(s.reqs)
      ensures core.v.log == if resp.Removed? then old(core.v.log) + [Del(t, k)] else old(core.v.log)
      ensures resp.Removed? ==> k in old(core.v.objects)
      ensures resp.NotFound? ==> k !in old(core.v.objects)
      ensures calls > old(calls)
      ensures Fair(old(calls), calls) ==> resp == if k in old(core.v.objects) then Removed else NotFound
      ensures Deleted(old(core.v), core.v, k, resp.Removed?) && (k in old(core.v.objects) ==> core.d == old(core.d))
      ensures k !in old(core.v.objects) ==> core.v == old(core.v) && OthersKept(old(core.d), core.d, k)
      ensures k !in old(core.v.objects) && Fair(old(calls), calls) ==> AllGone(old(core.d), core.d, k)
    {
      hide BridgeFrames.OthersKept;
      hide BridgeFrames.AllGone;
      hide Deleted;
      hide Forgot;
      hide ProtocolRuns.Reaches;
      hide BridgeFrames.Alone;
      NoneCleanedYet(core.d, k, []);
      NothingDeleted(core.v, k);
      var f := Call();
      if f.Bad? {
        GoDelete(t, Fail(Other, false), Unlock(k, Failed));
        return Failed;
      }
      if k !in core.v.objects {
        GoDelete(t, Ok, DelFind(k));
        resp := AbortMatchingUploads(t, k);
        return;
      }
      GoDelete(t, Ok, DelForget(k, core.v.objects[k], 1));
      resp := DeleteFound(t, k, core.v.objects[k]);
    }

    /** Forgets the object's snapshot, and only when that works removes its mapping. */
    method DeleteFound(t: Tid, k: ObjKey, m: Mapping) returns (resp: Resp)
      requires At(t, DelForget(k, m, 1)) && Lookup(core.v.objects, k) == Some(m)
      modifies this
      ensures At(t, Unlock(k, resp)) && resp in {Failed, Removed} && s.reqs == old(s.reqs) && core.d == old(core.d)
      ensures core.v.log == if resp.Removed? then old(core.v.log) + [Del(t, k)] else old(core.v.log)
      ensures calls > old(calls) && (Fair(old(calls), calls) ==> resp.Removed?)
      ensures Deleted(old(core.v), core.v, k, resp.Removed?)
    {
      hide At;
      hide Deleted;
      hide Forgot;
      ghost var c0, was := calls, core.v;
      var ok := ForgetObject(t, k, m);
      ghost var forgot, c1 := core.v, calls;
      DeleteComposes(c0, c1, was, forgot, forgot, t, k, m, false);
      if !ok { return Failed; }
      resp := DeleteMappingOf(t, k);
      DeleteComposes(c0, c1, was, forgot, core.v, t, k, m, resp.Removed?);
    }

    lemma NothingDeleted(v: Vault, k: ObjKey)
      ensures Deleted(v, v, k, false)
    {
    }

    lemma DeleteComposes(first: nat, next: nat, was: Vault, mid: Vault, now: Vault, t: Tid, k: ObjKey, m: Mapping,
        removed: bool)
      requires Forgot(first, next, was, mid, m) && Lookup(was.objects, k) == Some(m)
      requires now == if removed then DeleteMapping(mid, t, k) else mid
      requires removed ==> m.at !in mid.live
      ensures Deleted(was, now, k, removed) && first < next
    {
    }

    method DeleteMappingOf(t: Tid, k: ObjKey) returns (resp: Resp)
      requires At(t, DelUnmap(k)) && k in core.v.objects
      modifies this
      ensures At(t, Unlock(k, resp)) && resp in {Failed, Removed} && s.reqs == old(s.reqs)
      ensures calls == old(calls) + 1 && (faults(old(calls)).Fine? ==> resp.Removed?) && core.d == old(core.d)
      ensures core.v == if resp.Removed? then DeleteMapping(old(core.v), t, k) else old(core.v)
      ensures core.v.log == if resp.Removed? then old(core.v.log) + [Del(t, k)] else old(core.v.log)
    {
      var f := Call();
      if f.Bad? {
        GoDelete(t, Fail(Other, false), Unlock(k, Failed));
        return Failed;
      }
      core := core.(v := DeleteMapping(core.v, t, k));
      GoDelete(t, Ok, Unlock(k, Removed));
      return Removed;
    }

    // ---- GetObject ----

    /** Restores the object's snapshot: all of its bytes, or an error. */
    method GetObject(t: Tid, k: ObjKey) returns (resp: Resp)
      requires Idle() && t !in s.procs
      modifies this
      ensures Answered(t, ProtocolState.GetObject(k), resp) && core == old(core)
      ensures match resp
        case Body(_, _, _, bytes) => Lookup(Objects(), k) == Some(bytes)
        case NotFound => k !in Objects()
        case _ => resp.Failed?
      ensures Fair(old(calls), calls) ==>
        (k !in Objects() ==> resp.NotFound?) && (k in Objects() && k !in core.v.doomed ==> resp.Body?)
    {
      hide ProtocolSteps.GetStep;
      hide ProtocolRuns.Reaches;
      Begin(t, ProtocolState.GetObject(k));
      resp := GetBody(t, k);
    }

    method GetBody(t: Tid, k: ObjKey) returns (resp: Resp)
      requires At(t, Reading(k, |core.v.log|))
      modifies this
      ensures At(t, Done(resp)) && core == old(core) && s.reqs == old(s.reqs)
      ensures match resp
        case Body(_, _, _, bytes) => Lookup(Objects(), k) == Some(bytes)
        case NotFound => k !in Objects()
        case _ => resp.Failed?
      ensures Fair(old(calls), calls) ==>
        (k !in Objects() ==> resp.NotFound?) && (k in Objects() && k !in core.v.doomed ==> resp.Body?)
    {
      hide ProtocolRuns.Reaches;
      hide BridgeFrames.Alone;
      var m, failed := ReadMapping(t, k);
      if failed { return Failed; }
      if m.None? {
        assert k !in Objects();
        return NotFound;
      }
      UndoomedIsLive(env, trail, s, k);
      resp := Restore(t, k, m.value);
    }

    method ReadMapping(t: Tid, k: ObjKey) returns (m: Option<Mapping>, failed: bool)
      requires At(t, Reading(k, |core.v.log|))
      modifies this
      ensures core == old(core) && s.reqs == old(s.reqs)
      ensures calls == old(calls) + 1 && (failed <==> faults(old(calls)).Bad?)
      ensures failed ==> At(t, Done(Failed))
      ensures m == Lookup(core.v.objects, k)
      ensures !failed ==> At(t, if m.None? then Done(NotFound) else Restoring(k, |core.v.log|, |core.v.log|, m.value))
    {
      var f := Call();
      failed := f.Bad?;
      m := Lookup(core.v.objects, k);
      if failed {
        GoGet(t, Fail(Other, false), Done(Failed));
      } else {
        GoGet(t, Ok, if m.None? then Done(NotFound) else Restoring(k, |core.v.log|, |core.v.log|, m.value));
      }
    }

    method Restore(t: Tid, k: ObjKey, m: Mapping) returns (resp: Resp)
      requires At(t, Restoring(k, |core.v.log|, |core.v.log|, m))
      modifies this
      ensures At(t, Done(resp)) && core == old(core) && s.reqs == old(s.reqs)
      ensures resp.Failed? || (resp.Body? && Lookup(Objects(), k) == Some(resp.bytes))
      ensures calls == old(calls) + 1 && (faults(old(calls)).Fine? && m.at in core.v.live ==> resp.Body?)
    {
      var f := Call();
      var since := |core.v.log|;
      if f.Bad? || m.at !in core.v.live {
        GoGet(t, Fail(Other, false), Done(Failed));
        return Failed;
      }
      resp := Body(k, since, since, core.v.live[m.at]);
      GoGet(t, Ok, Done(resp));
      T.GetSeesOneVersion(env, trail, s, t);
      T.StoreIsReplay(env, trail, s);
      assert core.v.log[..since] == core.v.log;
    }

    // ---- Multipart uploads ----

    /** Creates an upload record under a fresh id. */
    method CreateMultipartUpload(t: Tid, k: ObjKey, id: UploadId) returns (resp: Resp)
      requires Idle() && t !in s.procs && id !in core.d.ever
      modifies this
      ensures Answered(t, ProtocolState.CreateMultipartUpload(k), resp) && core.v == old(core.v)
      ensures match resp
        case Created(u) => u == id && core.d == NewUpload(old(core.d), id, k)
        case _ => resp.Failed? && core.d == old(core.d)
      ensures Fair(old(calls), calls) ==> resp.Created?
    {
      hide ProtocolRuns.Reaches;
      Begin(t, ProtocolState.CreateMultipartUpload(k));
      LockKey(t, k, MkRec(k));
      resp := MakeRecord(t, k, id);
      Answer(t, k, resp);
    }

    method MakeRecord(t: Tid, k: ObjKey, id: UploadId) returns (resp: Resp)
      requires At(t, MkRec(k)) && id !in core.d.ever
      modifies this
      ensures At(t, Unlock(k, resp)) && OffDesk() == old(OffDesk()) && resp in {Created(id), Failed}
      ensures core.d == if resp.Created? then NewUpload(old(core.d), id, k) else old(core.d)
      ensures calls == old(calls) + 1 && (resp.Created? <==> faults(old(calls)).Fine?)
    {
      var f := Call();
      if f.Bad? {
        resp := Failed;
        GoUpload(t, Fail(Other, false), Unlock(k, resp));
      } else {
        resp := Created(id);
        core := core.(d := NewUpload(core.d, id, k));
        GoUpload(t, Id(id), Unlock(k, resp));
      }
    }

    /** GetUpload, for a request that names the upload's own bucket and key. */
    method GetUpload(t: Tid, k: ObjKey, u: UploadId, here: Pc, next: Pc) returns (resp: Option<Resp>)
      requires At(t, here)
      requires Local(env, core, t, here, Fail(Other, false)) == Some(Next(core, Unlock(k, Failed)))
      requires Local(env, core, t, here, Ok)
        == Some(Next(core, if u in core.d.uploads then next else Unlock(k, NotFound)))
      modifies this
      ensures core == old(core) && s.reqs == old(s.reqs)
      ensures At(t, if resp.None? then next else Unlock(k, resp.value))
      ensures resp.None? ==> u in core.d.uploads
      ensures resp.Some? ==> resp.value == Failed || (resp.value == NotFound && u !in core.d.uploads)
      ensures calls == old(calls) + 1
      ensures faults(old(calls)).Fine? ==> resp == if u in core.d.uploads then None else Some(NotFound)
    {
      var f := Call();
      if f.Bad? {
        Go(t, Fail(Other, false), Unlock(k, Failed));
        return Some(Failed);
      }
      if u !in core.d.uploads {
        Go(t, Ok, Unlock(k, NotFound));
        return Some(NotFound);
      }
      Go(t, Ok, next);
      return None;
    }

    /**
     What an upload of a part comes to. Stored, the part has the body and its digest; otherwise
     the recorded parts are as they were, and a half-written file is gone if it could be removed.
     */
    ghost predicate PartDone(first: nat, next: nat, was: Desk, now: Desk, p: PartId, body: Bytes, resp: Resp) {
      && first < next && resp in {PartStored, Failed} && OnlyPartOrRecord(was, now, p) && PartLeft(was, now, p, body)
      && (if resp.PartStored? then
            && Lookup(now.parts, p) == Some(env.md5(body)) && Lookup(now.files, PartFile(p)) == Some(body)
            && p !in now.dirty
          else
            now.parts == was.parts && (faults(next - 1).Fine? ==> PartFile(p) !in now.files))
      && (Fair(first, next) ==> resp.PartStored?)
    }

    /** Stages one part and records it. */
    method UploadPart(t: Tid, k: ObjKey, p: PartId, body: Bytes) returns (resp: Resp)
      requires Idle() && t !in s.procs && (p.upload in core.d.uploads ==> core.d.uploads[p.upload] == k)
      modifies this
      ensures Answered(t, ProtocolState.UploadPart(k, p, body), resp) && core.v == old(core.v)
      ensures if resp.NotFound? then core.d == old(core.d) && p.upload !in core.d.uploads
              else PartDone(old(calls), calls, old(core.d), core.d, p, body, resp)
      ensures Fair(old(calls), calls) ==> resp == if p.upload in old(core.d.uploads) then PartStored else NotFound
    {
      hide ProtocolRuns.Reaches;
      hide At;
      hide BridgeFrames.Alone;
      hide PartDone;
      hide ProtocolSteps.Local;
      Begin(t, ProtocolState.UploadPart(k, p, body));
      NoPartYet(calls, core.d, p, body);
      LockKey(t, k, UpGet(k, p, body));
      UpGetIsLocal(env, core, t, k, p, body);
      var got := GetUpload(t, k, p.upload, UpGet(k, p, body), UpDir(k, p, body));
      if got.Some? {
        resp := got.value;
      } else {
        resp := UploadLocked(t, k, p, body);
        DoneSinceEarlier(old(calls), old(calls) + 1, calls, old(core.d), core.d, p, body, resp);
      }
      Answer(t, k, resp);
    }

    lemma NoPartYet(first: nat, d: Desk, p: PartId, body: Bytes)
      ensures faults(first).Bad? ==> PartDone(first, first + 1, d, d, p, body, Failed)
    {
    }

    lemma DoneSinceEarlier(first: nat, mid: nat, next: nat, was: Desk, now: Desk, p: PartId, body: Bytes, resp: Resp)
      requires first <= mid && PartDone(mid, next, was, now, p, body, resp)
      ensures PartDone(first, next, was, now, p, body, resp) && (Fair(first, next) ==> resp.PartStored?)
    {
    }

    method UploadLocked(t: Tid, k: ObjKey, p: PartId, body: Bytes) returns (resp: Resp)
      requires At(t, UpDir(k, p, body))
      modifies this
      ensures At(t, Unlock(k, resp)) && OffDesk() == old(OffDesk())
      ensures PartDone(old(calls), calls, old(core.d), core.d, p, body, resp)
    {
      hide At;
      hide BridgeFrames.PartLeft;
      hide BridgeFrames.OnlyPart;
      hide BridgeFrames.OnlyPartOrRecord;
      hide ProtocolSteps.PutPart;
      var ok := WritePart(t, k, p, body);
      PartRecorded(old(core.d), core.d, p, env.md5(body));
      PartParts(old(core.d), core.d, p);
      PartKept(old(core.d), core.d, p, env.md5(body), body);
      if !ok { return Failed; }
      resp := RecordPart(t, k, p, body);
    }

    lemma PartKept(was: Desk, now: Desk, p: PartId, etag: string, body: Bytes)
      ensures var d := PutPart(now, p, etag);
        && Lookup(d.parts, p) == Some(etag) && p !in d.dirty && d.files == now.files
      ensures Lookup(now.files, PartFile(p)) == Some(body) ==>
        PartLeft(was, now, p, body) && PartLeft(was, PutPart(now, p, etag), p, body)
    {
    }

    /** Writes the part's file. */
    method WritePart(t: Tid, k: ObjKey, p: PartId, body: Bytes) returns (ok: bool)
      requires At(t, UpDir(k, p, body))
      modifies this
      ensures At(t, if ok then UpRec(k, p, body) else Unlock(k, Failed)) && OffDesk() == old(OffDesk())
      ensures OnlyPart(old(core.d), core.d, p) && (ok ==> Lookup(core.d.files, PartFile(p)) == Some(body))
      ensures !ok ==> PartLeft(old(core.d), core.d, p, body)
      ensures calls > old(calls) && (Fair(old(calls), calls) ==> ok)
      ensures !ok && faults(calls - 1).Fine? ==> PartFile(p) !in core.d.files
    {
      hide BridgeFrames.OnlyPart;
      hide BridgeFrames.PartLeft;
      hide BridgeFrames.GivenUp;
      hide At;
      PartSteps(core.d, p, body);
      ok := MakePartDir(t, k, p, body);
      if !ok { return; }
      ok := CreatePartFile(t, k, p, body);
      if !ok { return; }
      ok := CopyBody(t, k, p, body);
      if !ok { PartGivenUp(old(core.d), p, body, core.d); }
    }

    method MakePartDir(t: Tid, k: ObjKey, p: PartId, body: Bytes) returns (ok: bool)
      requires At(t, UpDir(k, p, body))
      modifies this
      ensures At(t, if ok then UpOpen(k, p, body) else Unlock(k, Failed)) && OffDesk() == old(OffDesk())
      ensures core.d == if ok then MkDir(old(core.d), p.upload) else old(core.d)
      ensures calls == old(calls) + 1 && (ok <==> faults(old(calls)).Fine?)
    {
      var f := Call();
      ok := f.Fine?;
      if ok {
        core := core.(d := MkDir(core.d, p.upload));
        GoUpload(t, Ok, UpOpen(k, p, body));
      } else {
        GoUpload(t, Fail(Other, false), Unlock(k, Failed));
      }
    }

    method CreatePartFile(t: Tid, k: ObjKey, p: PartId, body: Bytes) returns (ok: bool)
      requires At(t, UpOpen(k, p, body))
      modifies this
      ensures At(t, if ok then UpWrite(k, p, body) else Unlock(k, Failed)) && OffDesk() == old(OffDesk())
      ensures core.d == if ok then OpenPart(old(core.d), p) else old(core.d)
      ensures calls == old(calls) + 1 && (ok <==> faults(old(calls)).Fine?)
    {
      var f := Call();
      ok := f.Fine?;
      if ok {
        core := core.(d := OpenPart(core.d, p));
        GoUpload(t, Ok, UpWrite(k, p, body));
      } else {
        GoUpload(t, Fail(Other, false), Unlock(k, Failed));
      }
    }

    method CopyBody(t: Tid, k: ObjKey, p: PartId, body: Bytes) returns (ok: bool)
      requires At(t, UpWrite(k, p, body))
      modifies this
      ensures At(t, if ok then UpRec(k, p, body) else Unlock(k, Failed)) && OffDesk() == old(OffDesk())
      ensures ok ==> core.d == WriteFile(old(core.d), PartFile(p), body)
      ensures !ok ==> GivenUp(old(core.d), core.d, p, body)
      ensures calls > old(calls) && (ok <==> faults(old(calls)).Fine?)
      ensures !ok && faults(calls - 1).Fine? ==> PartFile(p) !in core.d.files
    {
      var f := Call();
      ok := f.Fine?;
      if ok {
        core := core.(d := WriteFile(core.d, PartFile(p), body));
        GoUpload(t, Ok, UpRec(k, p, body));
      } else {
        GiveUpPart(t, k, p, body, f.written);
      }
    }

    /** Removes a half-written part, if that works. */
    method GiveUpPart(t: Tid, k: ObjKey, p: PartId, body: Bytes, written: nat)
      requires At(t, UpWrite(k, p, body))
      modifies this
      ensures At(t, Unlock(k, Failed)) && OffDesk() == old(OffDesk())
      ensures GivenUp(old(core.d), core.d, p, body) && calls == old(calls) + 1
      ensures faults(calls - 1).Fine? ==> PartFile(p) !in core.d.files
    {
      var f := Call();
      if f.Fine? {
        core := core.(d := RemoveFile(core.d, PartFile(p)));
        GoUpload(t, Fail(Other, false), Unlock(k, Failed));
      } else {
        LeavePart(t, k, p, body, if written <= |body| then written else |body|);
      }
    }

    method LeavePart(t: Tid, k: ObjKey, p: PartId, body: Bytes, n: nat)
      requires At(t, UpWrite(k, p, body)) && n <= |body|
      modifies this`core, this`s, this`trail
      ensures At(t, Unlock(k, Failed)) && OffDesk() == old(OffDesk())
      ensures core.d == WriteFile(old(core.d), PartFile(p), body[..n])
    {
      core := core.(d := WriteFile(core.d, PartFile(p), body[..n]));
      GoUpload(t, Cut(n), Unlock(k, Failed));
    }

    method RecordPart(t: Tid, k: ObjKey, p: PartId, body: Bytes) returns (resp: Resp)
      requires At(t, UpRec(k, p, body))
      modifies this
      ensures At(t, Unlock(k, resp)) && OffDesk() == old(OffDesk())
      ensures resp in {PartStored, Failed}
      ensures core.d == if resp.PartStored? then PutPart(old(core.d), p, env.md5(body)) else old(core.d)
      ensures calls == old(calls) + 1 && (resp.PartStored? <==> faults(old(calls)).Fine?)
    {
      var ok := PutPartRecord(t, k, p, body);
      if !ok { return Failed; }
      GoUpload(t, Ok, Unlock(k, PartStored));
      return PartStored;
    }

    method PutPartRecord(t: Tid, k: ObjKey, p: PartId, body: Bytes) returns (ok: bool)
      requires At(t, UpRec(k, p, body))
      modifies this
      ensures At(t, if ok then UpTouch(k, p) else Unlock(k, Failed)) && OffDesk() == old(OffDesk())
      ensures core.d == if ok then PutPart(old(core.d), p, env.md5(body)) else old(core.d)
      ensures calls == old(calls) + 1 && (ok <==> faults(old(calls)).Fine?)
    {
      var f := Call();
      ok := f.Fine?;
      if ok {
        core := core.(d := PutPart(core.d, p, env.md5(body)));
        GoUpload(t, Ok, UpTouch(k, p));
      } else {
        GoUpload(t, Fail(Other, false), Unlock(k, Failed));
      }
    }

    /** Removes the upload's scratch, and only when that works its record. */
    method AbortMultipartUpload(t: Tid, k: ObjKey, u: UploadId) returns (resp: Resp)
      requires Idle() && t !in s.procs && (u in core.d.uploads ==> core.d.uploads[u] == k)
      modifies this
      ensures Answered(t, ProtocolState.AbortMultipartUpload(k, u), resp) && core.v == old(core.v)
      ensures CleanedUp(old(core.d), core.d, u) && (resp.Aborted? ==> NothingOf(core.d, u))
      ensures resp.NotFound? ==> core.d == old(core.d) && u !in core.d.uploads
      ensures !resp.Aborted? ==> core.d.uploads == old(core.d.uploads) && core.d.parts == old(core.d.parts)
      ensures Fair(old(calls), calls) ==> resp == if u in old(core.d.uploads) then Aborted else NotFound
    {
      hide ProtocolRuns.Reaches;
      hide BridgeFrames.CleanedUp;
      hide BridgeFrames.NothingOf;
      NothingCleaned(core.d, u);
      Begin(t, ProtocolState.AbortMultipartUpload(k, u));
      LockKey(t, k, AbGet(k, u));
      AbGetIsLocal(env, core, t, k, u);
      hide ProtocolSteps.Local;
      var got := GetUpload(t, k, u, AbGet(k, u), AbDir(k, u));
      if got.Some? {
        resp := got.value;
      } else {
        resp := AbortLocked(t, k, u);
      }
      Answer(t, k, resp);
    }

    method AbortLocked(t: Tid, k: ObjKey, u: UploadId) returns (resp: Resp)
      requires At(t, AbDir(k, u))
      modifies this
      ensures At(t, Unlock(k, resp)) && OffDesk() == old(OffDesk()) && resp in {Aborted, Failed}
      ensures CleanedUp(old(core.d), core.d, u) && (resp.Aborted? ==> NothingOf(core.d, u))
      ensures !resp.Aborted? ==> core.d.uploads == old(core.d.uploads) && core.d.parts == old(core.d.parts)
      ensures calls > old(calls) && (Fair(old(calls), calls) ==> resp.Aborted?)
    {
      hide At;
      hide BridgeFrames.CleanedUp;
      hide BridgeFrames.NothingOf;
      hide ProtocolSteps.RemoveDir;
      var o := AbortDirectory(t, k, u);
      ghost var mid := core.d;
      UploadCleaned(old(core.d), mid, mid, u, o, Fail(Other, false));
      if !o.Ok? { return Failed; }
      resp := AbortRecord(t, k, u);
      UploadCleaned(old(core.d), mid, core.d, u, o, if resp.Aborted? then Ok else Fail(Other, false));
    }

    method AbortRecord(t: Tid, k: ObjKey, u: UploadId) returns (resp: Resp)
      requires At(t, AbRec(k, u))
      modifies this
      ensures At(t, Unlock(k, resp)) && OffDesk() == old(OffDesk()) && resp in {Aborted, Failed}
      ensures core.d == if resp.Aborted? then DeleteUpload(old(core.d), u) else old(core.d)
      ensures calls == old(calls) + 1 && (faults(old(calls)).Fine? ==> resp.Aborted?)
    {
      var o := DeleteUploadRecord(u);
      resp := if o.Ok? then Aborted else Failed;
      GoUpload(t, o, Unlock(k, resp));
    }

    method AbortDirectory(t: Tid, k: ObjKey, u: UploadId) returns (o: Outcome)
      requires At(t, AbDir(k, u))
      modifies this
      ensures At(t, if o.Ok? then AbRec(k, u) else Unlock(k, Failed)) && OffDesk() == old(OffDesk())
      ensures core.d.uploads == old(core.d.uploads) && core.d.parts == old(core.d.parts)
      ensures RemoveDir(old(core.d), u, o) == Some(core.d)
      ensures calls == old(calls) + 1 && (faults(old(calls)).Fine? ==> o.Ok?)
    {
      o := RemoveUploadDir(u);
      GoUpload(t, o, if o.Ok? then AbRec(k, u) else Unlock(k, Failed));
    }

    // ---- CompleteMultipartUpload ----

    /** The upload's scratch directory and record go, as far as that works. */
    method CleanupUpload(t: Tid, k: ObjKey, u: UploadId, resp: Resp)
      requires At(t, RmDir(k, u, resp))
      modifies this
      ensures At(t, Unlock(k, resp)) && OffDesk() == old(OffDesk()) && calls == old(calls) + 2
      ensures CleanedUp(old(core.d), core.d, u) && (Fair(old(calls), calls) ==> NothingOf(core.d, u))
    {
      hide ProtocolRuns.Reaches;
      hide BridgeFrames.Alone;
      hide BridgeFrames.CleanedUp;
      hide BridgeFrames.NothingOf;
      hide ProtocolSteps.RemoveDir;
      hide ProtocolSteps.MaybeDeleteUpload;
      var o := RemoveUploadDir(u);
      ghost var mid := core.d;
      GoCommit(t, o, RmRec(k, u, resp));
      var q := DeleteUploadRecord(u);
      UploadCleaned(old(core.d), mid, core.d, u, o, q);
      GoCommit(t, q, Unlock(k, resp));
    }

    /**
     What a completion comes to. Refused, it changes nothing. Otherwise the upload is cleaned
     up: when the object is stored, and when the parts could not be put together. When only
     the commit failed, the records stay for the next attempt, and no other bytes stand in final.img.
     */
    ghost predicate CompleteDone(first: nat, next: nat, was: Core, now: Core, k: ObjKey, u: UploadId, list: seq<PartRef>,
        stage: Stage, resp: Resp)
    {
      && first < next && (stage != Refused ==> u in was.d.uploads && ValidList(was.d.parts, u, list))
      && (match stage
          case Refused => now == was && (resp == Failed || (resp == NotFound && u !in was.d.uploads))
          case Unjoined => resp == Failed && now.v == was.v && Swept(first, next, was.d, now.d, u)
          case Joined(body) =>
            && Whole(was.d, u, list, body)
            && if resp == Stored then StoredAs(was.v, now.v, k, body) && Swept(first, next, was.d, now.d, u)
               else resp == Failed && NothingLost(was.v, now.v) && LeftForRetry(was.d, now.d, u, body))
      && (Fair(first, next) ==> stage == StageOf(was.d, u, list, stage) && (resp == NotFound <==> u !in was.d.uploads))
      && (Favourable(first, next, was.v, k) && stage.Joined? ==> resp == Stored && Replaced(was.v, now.v, k))
    }

    /** How far a call gets when no call it makes fails. */
    ghost function StageOf(d: Desk, u: UploadId, list: seq<PartRef>, some: Stage): Stage {
      if u !in d.uploads || !ValidList(d.parts, u, list) then Refused
      else if !Ready(d, u, list) then Unjoined
      else if some.Joined? then some else Joined([])
    }

    /** Nothing is left of the upload if the last two calls worked, and every other upload is as it was. */
    ghost predicate Swept(first: nat, next: nat, was: Desk, now: Desk, u: UploadId) {
      && OnlyThisUpload(was, now, u) && first + 2 <= next && (Fair(next - 2, next) ==> NothingOf(now, u))
    }

    /** The records of the upload are as they were, and final.img is gone or whole. */
    ghost predicate LeftForRetry(was: Desk, now: Desk, u: UploadId, body: Bytes) {
      OnlyScratchOf(was, now, u) && (Final(u) in now.files ==> now.files[Final(u)] == body)
    }

    /**
     Completes an upload: the object becomes an existing final.img or the listed parts in
     order. `stage` is how far the call got.
     */
    method CompleteMultipartUpload(t: Tid, k: ObjKey, u: UploadId, list: seq<PartRef>)
      returns (resp: Resp, ghost stage: Stage)
      requires Idle() && t !in s.procs && (u in core.d.uploads ==> core.d.uploads[u] == k)
      modifies this
      ensures Answered(t, ProtocolState.CompleteMultipartUpload(k, u, list), resp)
      ensures resp == Stored ==> stage.Joined?
      ensures Objects() == if resp == Stored then old(Objects())[k := stage.body] else old(Objects())
      ensures CompleteDone(old(calls), calls, old(core), core, k, u, list, stage, resp)
    {
      hide ProtocolRuns.Reaches;
      hide ProtocolSteps.Local;
      hide ProtocolSteps.ValidList;
      hide CompleteDone;
      hide LockedDone;
      hide At;
      hide BridgeFrames.Alone;
      ghost var before, at := trail, s;
      Begin(t, ProtocolState.CompleteMultipartUpload(k, u, list));
      LockKey(t, k, CoGet(k, u, list));
      ghost var c0, was := calls, core;
      CoGetIsLocal(env, core, t, k, u, list);
      var got := GetUpload(t, k, u, CoGet(k, u, list), CoList(k, u, list));
      if got.Some? {
        resp, stage := got.value, Refused;
        RefusedAtOnce(c0, was, k, u, list, resp);
      } else {
        resp, stage := CompleteLocked(t, k, u, list);
        LockedIsDone(c0, calls, was, core, k, u, list, stage, resp);
      }
      Answer(t, k, resp);
      ObjectsFollowLog(env, before, at, trail, s, Put(t, k, if stage.Joined? then stage.body else []));
    }

    lemma RefusedAtOnce(first: nat, c: Core, k: ObjKey, u: UploadId, list: seq<PartRef>, resp: Resp)
      requires resp == Failed || (resp == NotFound && u !in c.d.uploads)
      requires faults(first).Fine? ==> u !in c.d.uploads && resp == NotFound
      ensures CompleteDone(first, first + 1, c, c, k, u, list, Refused, resp)
    {
    }

    lemma LockedIsDone(first: nat, next: nat, was: Core, now: Core, k: ObjKey, u: UploadId, list: seq<PartRef>,
        stage: Stage, resp: Resp)
      requires u in was.d.uploads && LockedDone(first + 1, next, was, now, k, u, list, stage, resp)
      ensures CompleteDone(first, next, was, now, k, u, list, stage, resp)
    {
      hide BridgeFrames.Whole;
      hide BridgeFrames.StoredAs;
      hide BridgeFrames.NothingLost;
      hide LeftForRetry;
      hide BridgeFrames.Replaced;
      hide ProtocolSteps.ValidList;
      hide BridgeFrames.Ready;
      hide BridgeFrames.OnlyThisUpload;
      hide BridgeFrames.NothingOf;
      FairParts(first, first + 1, next, was.v, k);
      if stage.Joined? { WholeIsReady(was.d, u, list, stage.body); }
    }

    /** The same of the part that starts with the client's list. */
    ghost predicate LockedDone(first: nat, next: nat, was: Core, now: Core, k: ObjKey, u: UploadId, list: seq<PartRef>,
        stage: Stage, resp: Resp)
    {
      && first < next && (stage != Refused ==> ValidList(was.d.parts, u, list))
      && (match stage
          case Refused => now == was && resp == Failed
          case Unjoined => resp == Failed && now.v == was.v && Swept(first, next, was.d, now.d, u)
          case Joined(body) =>
            && Whole(was.d, u, list, body)
            && if resp == Stored then StoredAs(was.v, now.v, k, body) && Swept(first, next, was.d, now.d, u)
               else resp == Failed && NothingLost(was.v, now.v) && LeftForRetry(was.d, now.d, u, body))
      && (Fair(first, next) && ValidList(was.d.parts, u, list) ==>
            stage != Refused && (Ready(was.d, u, list) ==> stage.Joined?))
      && (Favourable(first, next, was.v, k) && stage.Joined? ==> resp == Stored && Replaced(was.v, now.v, k))
    }

    method CompleteLocked(t: Tid, k: ObjKey, u: UploadId, list: seq<PartRef>) returns (resp: Resp, ghost stage: Stage)
      requires At(t, CoList(k, u, list))
      modifies this
      ensures At(t, Unlock(k, resp)) && s.reqs == old(s.reqs) && (resp == Stored ==> stage.Joined?)
      ensures core.v.log == if resp == Stored then old(core.v.log) + [Put(t, k, stage.body)] else old(core.v.log)
      ensures LockedDone(old(calls), calls, old(core), core, k, u, list, stage, resp)
    {
      hide At;
      hide LockedDone;
      hide Concatenated;
      hide CommitDone;
      hide ProtocolSteps.ValidList;
      hide BridgeFrames.CleanedUp;
      hide Fair;
      ghost var c0, was := calls, core;
      var ok := CheckList(t, k, u, list);
      ghost var c1 := calls;
      if !ok {
        stage := Refused;
        ListRefused(c0, was, k, u, list);
        return Failed, stage;
      }
      var j := ConcatParts(t, k, u, list);
      ghost var c2, put := calls, core;
      JobOfConcat(c1, c2, was, put, k, u, list, j);
      if j.None? {
        stage := Unjoined;
        CleanupUpload(t, k, u, Failed);
        NotJoined(c0, c1, c2, calls, was, put, core, k, u, list);
        return Failed, stage;
      }
      stage := Joined(j.value.body);
      ok := CommitObjectLocked(t, j.value);
      ghost var c3, committed := calls, core;
      if !ok {
        NotCommitted(c0, c1, c2, c3, was, put, committed, k, u, list, j.value);
        return Failed, stage;
      }
      CleanupUpload(t, k, u, Stored);
      CompleteComposes(c0, c1, c2, c3, calls, was, put, committed, core, k, u, list, j.value);
      return Stored, stage;
    }

    lemma JobOfConcat(first: nat, next: nat, was: Core, now: Core, k: ObjKey, u: UploadId, list: seq<PartRef>,
        j: Option<Job>)
      requires Concatenated(first, next, was, now, k, u, list, j)
      ensures now.v == was.v && first < next && (j.Some? ==> j.value.key == k && Finish(j.value) == RmDir(k, u, Stored))
    {
    }

    lemma ListRefused(first: nat, c: Core, k: ObjKey, u: UploadId, list: seq<PartRef>)
      requires faults(first).Bad? || !ValidList(c.d.parts, u, list)
      ensures LockedDone(first, first + 1, c, c, k, u, list, Refused, Failed)
    {
    }

    lemma NotJoined(c0: nat, c1: nat, c2: nat, c3: nat, was: Core, put: Core, now: Core, k: ObjKey, u: UploadId,
        list: seq<PartRef>)
      requires c1 == c0 + 1 && c3 == c2 + 2 && ValidList(was.d.parts, u, list)
      requires Concatenated(c1, c2, was, put, k, u, list, None) && now.v == put.v
      requires CleanedUp(put.d, now.d, u) && (Fair(c2, c3) ==> NothingOf(now.d, u))
      ensures LockedDone(c0, c3, was, now, k, u, list, Unjoined, Failed)
    {
      hide BridgeFrames.CleanedUp;
      hide BridgeFrames.NothingOf;
      hide BridgeFrames.Ready;
      hide ProtocolSteps.ValidList;
      hide BridgeFrames.OnlyThisUpload;
      hide BridgeFrames.OnlyScratchOf;
      ScratchThenCleaned(was.d, put.d, now.d, u);
      FairParts(c0, c1, c3, was.v, k);
      assert Fair(c0, c3) ==> Fair(c1, c2);
    }

    lemma NotCommitted(c0: nat, c1: nat, c2: nat, c3: nat, was: Core, put: Core, now: Core, k: ObjKey, u: UploadId,
        list: seq<PartRef>, j: Job)
      requires c1 == c0 + 1 && ValidList(was.d.parts, u, list)
      requires Concatenated(c1, c2, was, put, k, u, list, Some(j))
      requires CommitDone(c2, c3, put, now, j, false)
      ensures LockedDone(c0, c3, was, now, k, u, list, Joined(j.body), Failed)
    {
      hide BridgeFrames.Ready;
      hide BridgeFrames.Whole;
      hide ProtocolSteps.ValidList;
      hide BridgeFrames.OnlyThisUpload;
      hide BridgeFrames.OnlyScratchOf;
      hide BridgeFrames.NothingLost;
      hide BridgeFrames.Replaced;
      FairParts(c0, c2, c3, was.v, k);
      ScratchSteps(put.d, u, [], PartRef(0, ""), []);
      ScratchTwice(was.d, put.d, now.d, u);
    }

    lemma CompleteComposes(c0: nat, c1: nat, c2: nat, c3: nat, c4: nat, was: Core, put: Core, made: Core, now: Core,
        k: ObjKey, u: UploadId, list: seq<PartRef>, j: Job)
      requires c1 == c0 + 1 && c4 == c3 + 2 && ValidList(was.d.parts, u, list)
      requires Concatenated(c1, c2, was, put, k, u, list, Some(j))
      requires CommitDone(c2, c3, put, made, j, true)
      requires now.v == made.v && CleanedUp(made.d, now.d, u) && (Fair(c3, c4) ==> NothingOf(now.d, u))
      ensures LockedDone(c0, c4, was, now, k, u, list, Joined(j.body), Stored)
    {
      hide BridgeFrames.Ready;
      hide BridgeFrames.Whole;
      hide ProtocolSteps.ValidList;
      hide BridgeFrames.OnlyThisUpload;
      hide BridgeFrames.OnlyScratchOf;
      hide BridgeFrames.StoredAs;
      hide BridgeFrames.Replaced;
      hide BridgeFrames.NothingOf;
      hide BridgeFrames.CleanedUp;
      ScratchSteps(put.d, u, [], PartRef(0, ""), []);
      ScratchTwice(was.d, put.d, made.d, u);
      ScratchThenCleaned(was.d, made.d, now.d, u);
      if Favourable(c0, c4, was.v, k) { assert Favourable(c2, c3, was.v, k); }
    }

    /** Checks the client's list against the recorded parts. */
    method CheckList(t: Tid, k: ObjKey, u: UploadId, list: seq<PartRef>) returns (ok: bool)
      requires At(t, CoList(k, u, list))
      modifies this
      ensures core == old(core) && s.reqs == old(s.reqs)
      ensures At(t, if ok then CoDir(k, u, list) else Unlock(k, Failed)) && (ok ==> ValidList(core.d.parts, u, list))
      ensures calls == old(calls) + 1 && (faults(old(calls)).Fine? && ValidList(core.d.parts, u, list) ==> ok)
    {
      var f := Call();
      ok := f.Fine? && ValidList(core.d.parts, u, list);
      if f.Bad? {
        GoComplete(t, Fail(Other, false), Unlock(k, Failed));
      } else {
        GoComplete(t, Ok, if ok then CoDir(k, u, list) else Unlock(k, Failed));
      }
    }

    /** What the concatenation comes to: the job of committing it, or None. */
    ghost predicate Concatenated(first: nat, next: nat, was: Core, now: Core, k: ObjKey, u: UploadId, list: seq<PartRef>,
        j: Option<Job>)
    {
      && first < next && now.v == was.v && OnlyScratchOf(was.d, now.d, u)
      && (j.Some? ==>
            && j.value == Job(k, Final(u), j.value.body, Some(u)) && Whole(was.d, u, list, j.value.body)
            && Lookup(now.d.files, Final(u)) == Some(j.value.body))
      && (Fair(first, next) && Ready(was.d, u, list) ==> j.Some?)
    }

    /** The concatenation; when it fails, the upload is to be cleaned up. */
    method ConcatParts(t: Tid, k: ObjKey, u: UploadId, list: seq<PartRef>) returns (j: Option<Job>)
      requires At(t, CoDir(k, u, list))
      modifies this
      ensures At(t, if j.Some? then Clock(j.value) else RmDir(k, u, Failed)) && s.reqs == old(s.reqs)
      ensures Concatenated(old(calls), calls, old(core), core, k, u, list, j)
    {
      hide At;
      hide BridgeFrames.OnlyScratchOf;
      ghost var was := core.d;
      ScratchSteps(core.d, u, [], PartRef(0, ""), []);
      var ok := MakeUploadDir(t, k, u, list);
      if !ok { return None; }
      ok := StatFinal(t, k, u, list);
      if ok {
        j := HashExisting(t, k, u, list);
        return;
      }
      ScratchSteps(core.d, u, [], PartRef(0, ""), []);
      ghost var made := core.d;
      ok := CreatePartial(t, k, u, list);
      ScratchTwice(was, made, core.d, u);
      if !ok { return None; }
      ghost var opened' := core.d;
      var copied := CopyParts(t, k, u, list, Plan(was, u, list), was);
      ScratchTwice(was, opened', core.d, u);
      if copied.None? { return None; }
      ghost var full := core.d;
      j := RenameFinal(t, k, u, list, Plan(was, u, list), copied.value);
      ScratchSteps(full, u, [], PartRef(0, ""), copied.value);
      ScratchTwice(was, full, core.d, u);
    }

    method MakeUploadDir(t: Tid, k: ObjKey, u: UploadId, list: seq<PartRef>) returns (ok: bool)
      requires At(t, CoDir(k, u, list))
      modifies this
      ensures OffDesk() == old(OffDesk()) && core.d == if ok then MkDir(old(core.d), u) else old(core.d)
      ensures At(t, if ok then CoStat(k, u, list) else RmDir(k, u, Failed))
      ensures calls == old(calls) + 1 && (ok <==> faults(old(calls)).Fine?)
    {
      var f := Call();
      ok := f.Fine?;
      if ok {
        core := core.(d := MkDir(core.d, u));
        GoComplete(t, Ok, CoStat(k, u, list));
      } else {
        GoComplete(t, Fail(Other, false), RmDir(k, u, Failed));
      }
    }

    /** Whether final.img is there; a failing stat counts as no. */
    method StatFinal(t: Tid, k: ObjKey, u: UploadId, list: seq<PartRef>) returns (found: bool)
      requires At(t, CoStat(k, u, list))
      modifies this
      ensures core == old(core) && s.reqs == old(s.reqs) && (found ==> Final(u) in core.d.files)
      ensures At(t, if found then CoHash(k, u) else CoOpen(k, u, list))
      ensures calls == old(calls) + 1 && (faults(old(calls)).Fine? && Final(u) in core.d.files ==> found)
    {
      var f := Call();
      found := f.Fine? && Final(u) in core.d.files;
      if f.Fine? {
        GoComplete(t, Ok, if found then CoHash(k, u) else CoOpen(k, u, list));
      } else {
        GoComplete(t, Fail(Other, false), CoOpen(k, u, list));
      }
    }

    method HashExisting(t: Tid, k: ObjKey, u: UploadId, ghost list: seq<PartRef>) returns (j: Option<Job>)
      requires At(t, CoHash(k, u)) && Final(u) in core.d.files
      modifies this
      ensures core == old(core) && s.reqs == old(s.reqs)
      ensures At(t, if j.Some? then Clock(j.value) else RmDir(k, u, Failed))
      ensures j.Some? ==> j.value == Job(k, Final(u), core.d.files[Final(u)], Some(u))
      ensures calls == old(calls) + 1 && (j.Some? <==> faults(old(calls)).Fine?)
    {
      var f := Call();
      if f.Bad? {
        GoComplete(t, Fail(Other, false), RmDir(k, u, Failed));
        return None;
      }
      j := Some(Job(k, Final(u), core.d.files[Final(u)], Some(u)));
      GoComplete(t, Ok, Clock(j.value));
    }

    method CreatePartial(t: Tid, k: ObjKey, u: UploadId, list: seq<PartRef>) returns (ok: bool)
      requires At(t, CoOpen(k, u, list))
      modifies this
      ensures OffDesk() == old(OffDesk())
      ensures core.d == if ok then WriteFile(old(core.d), Partial(u), []) else old(core.d)
      ensures At(t, if ok then CoCopy(k, u, list, Plan(old(core.d), u, list), []) else RmDir(k, u, Failed))
      ensures calls == old(calls) + 1 && (ok <==> faults(old(calls)).Fine?)
    {
      var f := Call();
      ok := f.Fine?;
      if ok {
        ghost var plan := Plan(core.d, u, list);
        core := core.(d := WriteFile(core.d, Partial(u), []));
        GoComplete(t, Ok, CoCopy(k, u, list, plan, []));
      } else {
        GoComplete(t, Fail(Other, false), RmDir(k, u, Failed));
      }
    }

    /** The copying loop: each part is appended to the partial file and then removed. */
    method CopyParts(t: Tid, k: ObjKey, u: UploadId, list: seq<PartRef>, ghost plan: seq<Option<Bytes>>,
        ghost was: Desk)
      returns (copied: Option<seq<Piece>>)
      requires At(t, CoCopy(k, u, list, plan, [])) && OnlyGone(was.files, core.d.files, u)
      modifies this
      ensures OffDesk() == old(OffDesk()) && OnlyScratchOf(old(core.d), core.d, u)
      ensures copied.None? ==> At(t, RmDir(k, u, Failed))
      ensures copied.Some? ==>
        At(t, CoCopy(k, u, list, plan, copied.value)) && CopiedFrom(was.files, u, list, copied.value, |list|)
      ensures calls >= old(calls) && (Fair(old(calls), calls) && AllThere(plan) ==> copied.Some?)
    {
      hide At;
      hide BridgeFrames.OnlyScratchOf;
      hide BridgeFrames.OnlyGone;
      hide BridgeFrames.CopiedFrom;
      var pieces: seq<Piece> := [];
      ScratchSteps(core.d, u, [], PartRef(0, ""), []);
      NoneCopied(was.files, u, list);
      while |pieces| < |list|
        invariant At(t, CoCopy(k, u, list, plan, pieces)) && CopiedFrom(was.files, u, list, pieces, |pieces|)
        invariant |pieces| <= |list|
        invariant OnlyGone(was.files, core.d.files, u)
        invariant OffDesk() == old(OffDesk()) && calls >= old(calls) && OnlyScratchOf(old(core.d), core.d, u)
        decreases |list| - |pieces|
      {
        ghost var before := core.d;
        var piece := CopyPart(t, k, u, list, plan, pieces);
        ScratchTwice(old(core.d), before, core.d, u);
        if piece.None? { return None; }
        StillOnlyGone(was.files, before, u, Cat(pieces + [piece.value]), list[|pieces|]);
        CopiedSnoc(was.files, u, list, pieces, piece.value);
        pieces := pieces + [piece.value];
        ghost var added := core.d;
        ScratchSteps(core.d, u, [], pieces[|pieces| - 1].ref, []);
        ConsumePart(t, k, u, list, plan, pieces);
        ScratchTwice(old(core.d), added, core.d, u);
      }
      return Some(pieces);
    }

    method CopyPart(t: Tid, k: ObjKey, u: UploadId, list: seq<PartRef>,
        ghost plan: seq<Option<Bytes>>, copied: seq<Piece>)
      returns (piece: Option<Piece>)
      requires |copied| < |list| && At(t, CoCopy(k, u, list, plan, copied))
      modifies this
      ensures OffDesk() == old(OffDesk()) && OnlyScratchOf(old(core.d), core.d, u)
      ensures piece.None? ==> At(t, RmDir(k, u, Failed))
      ensures piece.Some? ==>
        && At(t, CoConsume(k, u, list, plan, copied + [piece.value]))
        && core.d == WriteFile(old(core.d), Partial(u), Cat(copied + [piece.value]))
        && piece.value.ref == list[|copied|]
        && Lookup(old(core.d.files), Source(u, list[|copied|])) == Some(piece.value.bytes)
      ensures calls > old(calls) && (faults(old(calls)).Fine? && AllThere(plan) ==> piece.Some?)
    {
      hide ProtocolRuns.Reaches;
      hide BridgeFrames.Alone;
      hide BridgeFrames.OnlyScratchOf;
      PlannedIsThere(env, trail, s, t);
      var f := Call();
      if f.Bad? || Source(u, list[|copied|]) !in core.d.files {
        GiveUpCopy(t, k, u, list, plan, copied, if f.Bad? then f.written else 0);
        return None;
      }
      var p := AppendPart(t, k, u, list, plan, copied);
      ScratchSteps(old(core.d), u, Cat(copied + [p]), PartRef(0, ""), []);
      return Some(p);
    }

    method AppendPart(t: Tid, k: ObjKey, u: UploadId, list: seq<PartRef>,
        ghost plan: seq<Option<Bytes>>, copied: seq<Piece>)
      returns (p: Piece)
      requires |copied| < |list| && At(t, CoCopy(k, u, list, plan, copied)) && Source(u, list[|copied|]) in core.d.files
      modifies this
      ensures OffDesk() == old(OffDesk())
      ensures core.d == WriteFile(old(core.d), Partial(u), Cat(copied + [p]))
      ensures p.ref == list[|copied|] && p.bytes == old(core.d.files[Source(u, list[|copied|])])
      ensures At(t, CoConsume(k, u, list, plan, copied + [p])) && calls == old(calls)
    {
      hide ProtocolRuns.Reaches;
      var r := list[|copied|];
      p := Piece(r, core.d.files[Source(u, r)], PartId(u, r.number) !in core.d.dirty);
      core := core.(d := WriteFile(core.d, Partial(u), Cat(copied + [p])));
      GoComplete(t, Ok, CoConsume(k, u, list, plan, copied + [p]));
    }

    /** Removes the partial file, if that works; otherwise the first bytes of the next part may be in it. */
    method GiveUpCopy(t: Tid, k: ObjKey, u: UploadId, list: seq<PartRef>,
        ghost plan: seq<Option<Bytes>>, copied: seq<Piece>, written: nat)
      requires |copied| < |list| && At(t, CoCopy(k, u, list, plan, copied))
      modifies this
      ensures At(t, RmDir(k, u, Failed)) && OffDesk() == old(OffDesk()) && calls == old(calls) + 1
      ensures OnlyScratchOf(old(core.d), core.d, u)
    {
      hide ProtocolRuns.Reaches;
      hide BridgeFrames.Alone;
      hide BridgeFrames.OnlyScratchOf;
      ghost var was := core.d;
      var f := Call();
      if f.Fine? {
        RemovePartial(t, k, u, list, plan, copied);
        ScratchSteps(was, u, [], PartRef(0, ""), []);
      } else {
        var bytes := Cat(copied) + Head(Lookup(core.d.files, Source(u, list[|copied|])), written);
        LeavePartial(t, k, u, list, plan, copied, written, bytes);
        ScratchSteps(was, u, bytes, PartRef(0, ""), []);
      }
    }

    method RemovePartial(t: Tid, k: ObjKey, u: UploadId, list: seq<PartRef>,
        ghost plan: seq<Option<Bytes>>, copied: seq<Piece>)
      requires |copied| < |list| && At(t, CoCopy(k, u, list, plan, copied))
      modifies this`core, this`s, this`trail
      ensures At(t, RmDir(k, u, Failed)) && OffDesk() == old(OffDesk())
      ensures core.d == RemoveFile(old(core.d), Partial(u))
    {
      hide ProtocolRuns.Reaches;
      hide BridgeFrames.Alone;
      core := core.(d := RemoveFile(core.d, Partial(u)));
      GoComplete(t, Fail(Other, false), RmDir(k, u, Failed));
    }

    method LeavePartial(t: Tid, k: ObjKey, u: UploadId, list: seq<PartRef>,
        ghost plan: seq<Option<Bytes>>, copied: seq<Piece>, written: nat, bytes: Bytes)
      requires |copied| < |list| && At(t, CoCopy(k, u, list, plan, copied))
      requires bytes == Cat(copied) + Head(Lookup(core.d.files, Source(u, list[|copied|])), written)
      modifies this`core, this`s, this`trail
      ensures At(t, RmDir(k, u, Failed)) && OffDesk() == old(OffDesk())
      ensures core.d == WriteFile(old(core.d), Partial(u), bytes)
    {
      hide ProtocolRuns.Reaches;
      hide BridgeFrames.Alone;
      core := core.(d := WriteFile(core.d, Partial(u), bytes));
      GoComplete(t, Cut(written), RmDir(k, u, Failed));
    }

    /** The copied part goes, if that works. */
    method ConsumePart(t: Tid, k: ObjKey, u: UploadId, list: seq<PartRef>,
        ghost plan: seq<Option<Bytes>>, copied: seq<Piece>)
      requires copied != [] && At(t, CoConsume(k, u, list, plan, copied))
      modifies this
      ensures OffDesk() == old(OffDesk()) && At(t, CoCopy(k, u, list, plan, copied))
      ensures core.d in {old(core.d), RemoveFile(old(core.d), Source(u, copied[|copied| - 1].ref))}
      ensures calls == old(calls) + 1
    {
      hide ProtocolRuns.Reaches;
      hide BridgeFrames.Alone;
      hide ProtocolSteps.RemoveFile;
      var f := Call();
      if f.Fine? {
        core := core.(d := RemoveFile(core.d, Source(u, copied[|copied| - 1].ref)));
        GoComplete(t, Ok, CoCopy(k, u, list, plan, copied));
      } else {
        GoComplete(t, Fail(Other, false), CoCopy(k, u, list, plan, copied));
      }
    }

    method RenameFinal(t: Tid, k: ObjKey, u: UploadId, list: seq<PartRef>,
        ghost plan: seq<Option<Bytes>>, copied: seq<Piece>)
      returns (j: Option<Job>)
      requires |copied| == |list| && At(t, CoCopy(k, u, list, plan, copied))
      modifies this
      ensures OffDesk() == old(OffDesk())
      ensures At(t, if j.Some? then Clock(j.value) else RmDir(k, u, Failed))
      ensures j.Some? ==>
        j.value == Job(k, Final(u), Cat(copied), Some(u)) && Lookup(core.d.files, Final(u)) == Some(Cat(copied))
      ensures core.d == if j.Some? then Rename(old(core.d), u, copied) else old(core.d)
      ensures calls == old(calls) + 1 && (j.Some? <==> faults(old(calls)).Fine?)
    {
      var f := Call();
      if f.Bad? {
        GoComplete(t, Fail(Other, false), RmDir(k, u, Failed));
        return None;
      }
      core := core.(d := Rename(core.d, u, copied));
      j := Some(Job(k, Final(u), Cat(copied), Some(u)));
      GoComplete(t, Ok, Clock(j.value));
    }
  }
}
