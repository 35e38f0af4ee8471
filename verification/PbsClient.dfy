/**
 The PBS client of internal/pbs/client.go: the transient-retry loop, the backup-time
 collision loop around it, and Forget, against a server that may fail any call before or
 after taking effect.
 */
module PbsClient {
  import opened Wrappers
  import opened Pbs

  const BASE_DELAY := 250  // milliseconds
  const MAX_DELAY := 750

  datatype Command = BackupCmd(at: Coord, bytes: Bytes) | ForgetCmd(at: Coord) | NotesCmd(at: Coord)

  /** What goes wrong with one invocation; `after`: it still takes effect. */
  datatype Fault = Fine | Lost(transient: bool, after: bool)

  datatype Datastore = Datastore(live: map<Coord, Bytes>, high: map<Group, int>)

  /** The server's verdict on a command when nothing goes wrong: None is success. */
  function Verdict(d: Datastore, c: Command): Option<ErrClass> {
    match c
    case BackupCmd(x, _) => if Accepts(d.high, x) then None else Some(Collision)
    case ForgetCmd(x) => if x in d.live then None else Some(Missing)
    case NotesCmd(x) => if x in d.live then None else Some(Missing)
  }

  function Obey(d: Datastore, c: Command): Datastore {
    if Verdict(d, c).Some? then d
    else
      match c
      case BackupCmd(x, bytes) => Datastore(d.live[x := bytes], d.high[x.group := x.time])
      case ForgetCmd(x) => d.(live := d.live - {x})
      case NotesCmd(_) => d
  }

  /** No snapshot is later than its group's high-water time. */
  ghost predicate Ordered(d: Datastore) {
    forall x :: x in d.live ==> x.group in d.high && x.time <= d.high[x.group]
  }

  class Server {
    var data: Datastore
    var calls: nat
    const faults: nat -> Fault

    constructor (faults: nat -> Fault)
      ensures Ordered(data) && data == Datastore(map[], map[]) && calls == 0 && this.faults == faults
    {
      this.data := Datastore(map[], map[]);
      this.calls := 0;
      this.faults := faults;
    }

    /** One invocation of the command-line client. */
    method Invoke(c: Command) returns (err: Option<ErrClass>)
      modifies this
      ensures calls == old(calls) + 1
      ensures data == match faults(old(calls))
                      case Fine => Obey(old(data), c)
                      case Lost(_, after) => if after then Obey(old(data), c) else old(data)
      ensures err == match faults(old(calls))
                     case Fine => Verdict(old(data), c)
                     case Lost(transient, _) => Some(if transient then Transient else Other)
    {
      var f := faults(calls);
      calls := calls + 1;
      err := Verdict(data, c);
      if f.Fine? || f.after {
        data := Obey(data, c);
      }
      if f.Lost? {
        err := Some(if f.transient then Transient else Other);
      }
    }
  }

  /** The n-th call fails transiently, and the context outlasts the wait after it. */
  ghost predicate Retried(faults: nat -> Fault, cancelled: nat -> bool, n: nat) {
    faults(n).Lost? && faults(n).transient && !cancelled(n + 1)
  }

  /** One of these calls took effect. */
  ghost predicate Reached(faults: nat -> Fault, first: nat, next: nat) {
    exists n :: first <= n < next && (faults(n).Fine? || faults(n).after)
  }

  lemma ReachedOrNot(faults: nat -> Fault, first: nat, next: nat)
    requires first <= next
    ensures Reached(faults, first, next + 1) <==> Reached(faults, first, next) || faults(next).Fine? || faults(next).after
  {
    if Reached(faults, first, next) {
      var n :| first <= n < next && (faults(n).Fine? || faults(n).after);
      assert first <= n < next + 1;
    }
  }

  /**
   Among these calls, those that fail do so transiently and without effect, never three of
   them in a row, and the context outlasts the waits between them.
   */
  ghost predicate Bearable(faults: nat -> Fault, cancelled: nat -> bool, first: nat, next: nat) {
    && (forall n :: first <= n < next && faults(n).Lost? ==> Retried(faults, cancelled, n) && !faults(n).after)
    && (forall n :: first <= n < next - 2 ==> !ThreeLost(faults, n))
  }

  ghost predicate ThreeLost(faults: nat -> Fault, n: nat) {
    faults(n).Lost? && faults(n + 1).Lost? && faults(n + 2).Lost?
  }

  /** Every call but the last that fails does so transiently, and within the context. */
  ghost predicate StopsInTime(faults: nat -> Fault, cancelled: nat -> bool, first: nat, next: nat) {
    forall n :: first <= n < next - 1 ==> faults(n).Fine? || Retried(faults, cancelled, n)
  }

  /** Once obeyed, a backup or forget that is repeated changes nothing more. */
  lemma ObeyIdempotent(d: Datastore, c: Command)
    ensures Obey(Obey(d, c), c) == Obey(d, c)
  {
  }

  /**
   No snapshot is lost or changed, the group only gains snapshots with these bytes, at times
   in this range, and no other group's high-water time moves.
   */
  ghost predicate OnlyGains(was: Datastore, now: Datastore, group: Group, bytes: Bytes, from: int, to: int) {
    && (forall x :: x in was.live ==> Lookup(now.live, x) == Some(was.live[x]))
    && (forall x :: x in now.live && x !in was.live ==> x.group == group && from <= x.time < to && now.live[x] == bytes)
    && (forall g :: g != group ==> Lookup(now.high, g) == Lookup(was.high, g))
    && (group in was.high ==> group in now.high && was.high[group] <= now.high[group])
  }

  lemma NoGainYet(d: Datastore, group: Group, bytes: Bytes, from: int)
    ensures OnlyGains(d, d, group, bytes, from, from)
  {
  }

  lemma GainsUpTo(was: Datastore, now: Datastore, group: Group, bytes: Bytes, from: int, to: int, end: int)
    requires OnlyGains(was, now, group, bytes, from, to) && to <= end
    ensures OnlyGains(was, now, group, bytes, from, end)
    ensures forall t :: Accepts(now.high, Coord(group, t)) ==> Accepts(was.high, Coord(group, t))
  {
  }

  lemma GainsOne(was: Datastore, mid: Datastore, now: Datastore, group: Group, bytes: Bytes, from: int, t: int)
    requires OnlyGains(was, mid, group, bytes, from, t) && Ordered(mid) && from <= t
    requires now == mid || now == Obey(mid, BackupCmd(Coord(group, t), bytes))
    ensures OnlyGains(was, now, group, bytes, from, t + 1) && Ordered(now)
  {
  }

  // ---- Backup-time allocation ----

  /** The time a backup gets when no call fails, from the group's high-water time and the clock. */
  function Allocate(high: Option<int>, now: int): Option<int> {
    var t := if high.Some? && now <= high.value then high.value + 1 else now;
    if t <= now + MAX_COLLISION_RETRIES then Some(t) else None
  }

  /** The times that serialized backups of one group get for these clock reads. */
  function Serialize(high: Option<int>, clocks: seq<int>): seq<Option<int>>
    decreases |clocks|
  {
    if clocks == [] then []
    else
      var t := Allocate(high, clocks[0]);
      [t] + Serialize(if t.Some? then t else high, clocks[1..])
  }

  function Successes(ts: seq<Option<int>>): seq<int> {
    if ts == [] then []
    else (if ts[0].Some? then [ts[0].value] else []) + Successes(ts[1..])
  }

  /** Allocation succeeds exactly when the next free second is at most five ahead of the clock. */
  lemma AllocateIff(high: int, now: int)
    ensures Allocate(Some(high), now).Some? <==> high + 1 <= now + 5
    ensures Allocate(Some(high), now).Some? ==>
      Allocate(Some(high), now).value == if now > high then now else high + 1
  {
  }

  /** Strictly increasing, and all above `low`. */
  ghost predicate Increasing(low: Option<int>, ts: seq<int>) {
    && (low.Some? ==> forall i :: 0 <= i < |ts| ==> low.value < ts[i])
    && (forall i, j :: 0 <= i < j < |ts| ==> ts[i] < ts[j])
  }

  /** Whatever the clock does, serialized backups of a group get strictly increasing times. */
  lemma {:induction false} SerialTimesIncrease(high: Option<int>, clocks: seq<int>)
    ensures Increasing(high, Successes(Serialize(high, clocks)))
    decreases |clocks|
  {
    if clocks != [] {
      var t := Allocate(high, clocks[0]);
      var h := if t.Some? then t else high;
      SerialTimesIncrease(h, clocks[1..]);
      var rest := Serialize(h, clocks[1..]);
      assert Serialize(high, clocks) == [t] + rest && ([t] + rest)[1..] == rest;
      var later := Successes(rest);
      assert Increasing(h, later);
      if t.Some? {
        assert Successes([t] + rest) == [t.value] + later;
        assert Increasing(high, [t.value] + later);
      } else {
        assert Successes([t] + rest) == later;
      }
    }
  }

  function Repeat(now: int, n: nat): seq<int> {
    if n == 0 then [] else [now] + Repeat(now, n - 1)
  }

  /** With one clock read for all of them, the seconds up to five ahead are used up one by one. */
  lemma {:induction false} SameClock(high: Option<int>, now: int, n: nat)
    requires high.Some? ==> now <= high.value <= now + 5
    ensures var free := if high.Some? then now + 5 - high.value else 6;
      |Successes(Serialize(high, Repeat(now, n)))| == if n < free then n else free
    decreases n
  {
    if n > 0 {
      var t := Allocate(high, now);
      var h := if t.Some? then t else high;
      assert Repeat(now, n)[1..] == Repeat(now, n - 1);
      SameClock(h, now, n - 1);
      var rest := Serialize(h, Repeat(now, n - 1));
      assert Serialize(high, Repeat(now, n)) == [t] + rest && ([t] + rest)[1..] == rest;
    }
  }

  /** At most six backups of a fresh group succeed within one second of the bridge's clock. */
  lemma AtMostSixPerSecond(now: int, n: nat)
    ensures |Successes(Serialize(None, Repeat(now, n)))| == if n < 6 then n else 6
  {
    SameClock(None, now, n);
  }

  // ---- The client ----

  class Client {
    const server: Server
    const cancelled: nat -> bool  // whether the context has ended in the wait after the nth invocation

    constructor (server: Server, cancelled: nat -> bool)
      ensures this.server == server && this.cancelled == cancelled
    {
      this.server, this.cancelled := server, cancelled;
    }

    /**
     Repeats an invocation while it fails transiently, at most three times in all and until
     the context ends; the error is the last invocation's own.
     */
    method RunWithRetry(c: Command) returns (err: Option<ErrClass>, waited: nat)
      modifies server
      ensures old(server.calls) < server.calls <= old(server.calls) + MAX_TRANSIENT_RETRIES
      ensures server.data ==
        if Reached(server.faults, old(server.calls), server.calls) then Obey(old(server.data), c) else old(server.data)
      ensures forall n :: old(server.calls) <= n < server.calls - 1 ==> Retried(server.faults, cancelled, n)
      ensures var last := server.calls - 1;
        err == match server.faults(last)
               case Fine =>
                 var before := Reached(server.faults, old(server.calls), last);
                 Verdict(if before then Obey(old(server.data), c) else old(server.data), c)
               case Lost(transient, _) => Some(if transient then Transient else Other)
      ensures err == Some(Transient) ==>
        server.calls == old(server.calls) + MAX_TRANSIENT_RETRIES || cancelled(server.calls)
      ensures waited == match server.calls - old(server.calls) case 1 => 0 case 2 => 250 case _ => 1000
    {
      var delay := BASE_DELAY;
      var attempt := 1;
      waited := 0;
      ObeyIdempotent(server.data, c);
      while true
        invariant 1 <= attempt <= MAX_TRANSIENT_RETRIES && server.calls == old(server.calls) + attempt - 1
        invariant forall n :: old(server.calls) <= n < server.calls ==> Retried(server.faults, cancelled, n)
        invariant server.data ==
          if Reached(server.faults, old(server.calls), server.calls) then Obey(old(server.data), c)
          else old(server.data)
        invariant attempt == 1 ==> delay == BASE_DELAY && waited == 0
        invariant attempt == 2 ==> delay == MAX_DELAY && waited == 250
        invariant attempt == 3 ==> waited == 1000
        decreases MAX_TRANSIENT_RETRIES - attempt
      {
        ReachedOrNot(server.faults, old(server.calls), server.calls);
        err := server.Invoke(c);
        if err != Some(Transient) || attempt >= MAX_TRANSIENT_RETRIES {
          return;
        }
        if cancelled(server.calls) {
          return;
        }
        waited := waited + delay;
        delay := if delay * 3 > MAX_DELAY then MAX_DELAY else delay * 3;
        attempt := attempt + 1;
      }
    }

    /**
     Uploads a snapshot, one second later after each time collision, at most six times. On
     success the returned time's snapshot holds the bytes; whatever the outcome, no snapshot
     is lost or changed and the group only gains snapshots with these bytes, at most one for
     each second tried. Up to two transient failures before each verdict make no difference.
     */
    method Backup(bytes: Bytes, group: Group, now: int) returns (used: Option<int>)
      requires Ordered(server.data)
      modifies server
      ensures Ordered(server.data) && old(server.calls) < server.calls <= old(server.calls) + 18
      ensures used.Some? ==>
        && now <= used.value <= now + MAX_COLLISION_RETRIES
        && Accepts(old(server.data.high), Coord(group, used.value))
        && Lookup(server.data.live, Coord(group, used.value)) == Some(bytes)
        && Lookup(server.data.high, group) == Some(used.value)
      ensures OnlyGains(old(server.data), server.data, group, bytes, now,
        (if used.Some? then used.value else now + MAX_COLLISION_RETRIES) + 1)
      ensures StopsInTime(server.faults, cancelled, old(server.calls), server.calls)
      ensures Bearable(server.faults, cancelled, old(server.calls), server.calls) ==>
        && used == Allocate(Lookup(old(server.data.high), group), now)
        && server.data ==
          if used.None? then old(server.data) else Obey(old(server.data), BackupCmd(Coord(group, used.value), bytes))
    {
      hide Bearable;
      hide StopsInTime;
      hide OnlyGains;
      hide Ordered;
      hide Reached;
      var t := now;
      var attempt := 0;
      used := None;
      NoGainYet(server.data, group, bytes, now);
      NoCallYet(server.calls);
      while attempt <= MAX_COLLISION_RETRIES
        invariant 0 <= attempt <= MAX_COLLISION_RETRIES + 1 && t == now + attempt
        invariant server.calls <= old(server.calls) + 3 * attempt && old(server.calls) <= server.calls
        invariant attempt > 0 ==> old(server.calls) < server.calls && server.faults(server.calls - 1).Fine?
        invariant Ordered(server.data)
        invariant OnlyGains(old(server.data), server.data, group, bytes, now, t)
        invariant StopsInTime(server.faults, cancelled, old(server.calls), server.calls)
        invariant Bearable(server.faults, cancelled, old(server.calls), server.calls) ==>
          && server.data == old(server.data)
          && (attempt > 0 ==> group in old(server.data.high) && t - 1 <= old(server.data.high)[group])
        decreases MAX_COLLISION_RETRIES + 1 - attempt
      {
        var x := Coord(group, t);
        ghost var first, before := server.calls, server.data;
        var err, waited := RunWithRetry(BackupCmd(x, bytes));
        BearableRetry(old(server.calls), first, server.calls, err);
        StillInTime(old(server.calls), first, server.calls);
        ReachedOrNot(server.faults, first, server.calls - 1);
        GainsUpTo(old(server.data), before, group, bytes, now, t, t);
        GainsOne(old(server.data), before, server.data, group, bytes, now, t);
        GainsUpTo(old(server.data), server.data, group, bytes, now, t + 1, now + MAX_COLLISION_RETRIES + 1);
        if err.None? {
          used := Some(t);
          return;
        }
        if err == Some(Collision) {
          t := t + 1;
          attempt := attempt + 1;
        } else {
          return;
        }
      }
    }

    lemma NoCallYet(first: nat)
      ensures StopsInTime(server.faults, cancelled, first, first)
    {
    }

    lemma StillInTime(start: nat, first: nat, next: nat)
      requires start <= first < next && StopsInTime(server.faults, cancelled, start, first)
      requires first > start ==> server.faults(first - 1).Fine?
      requires forall n :: first <= n < next - 1 ==> Retried(server.faults, cancelled, n)
      ensures StopsInTime(server.faults, cancelled, start, next)
    {
    }

    /** Of bearable calls, the last of a command is Fine, and none before it took effect. */
    lemma BearableRetry(start: nat, first: nat, next: nat, err: Option<ErrClass>)
      requires start <= first < next <= first + MAX_TRANSIENT_RETRIES
      requires forall n :: first <= n < next - 1 ==> Retried(server.faults, cancelled, n)
      requires err == Some(Transient) ==> next == first + MAX_TRANSIENT_RETRIES || cancelled(next)
      requires server.faults(next - 1).Lost? ==> err == Some(if server.faults(next - 1).transient then Transient else Other)
      ensures Bearable(server.faults, cancelled, start, next) ==>
        && Bearable(server.faults, cancelled, start, first)
        && server.faults(next - 1).Fine? && !Reached(server.faults, first, next - 1)
    {
      if Bearable(server.faults, cancelled, start, next) && server.faults(next - 1).Lost? {
        assert Retried(server.faults, cancelled, next - 1);
        assert Retried(server.faults, cancelled, first) && Retried(server.faults, cancelled, next - 2);
        assert ThreeLost(server.faults, first);
      }
      forall n | Bearable(server.faults, cancelled, start, next) && first <= n < next - 1
        ensures server.faults(n).Lost? && !server.faults(n).after
      {
        assert Retried(server.faults, cancelled, n);
      }
    }

    /** Removes a snapshot; one that is already gone counts as removed. */
    method Forget(x: Coord) returns (err: Option<ErrClass>)
      modifies server
      ensures Ordered(old(server.data)) ==> Ordered(server.data)
      ensures old(server.calls) < server.calls <= old(server.calls) + MAX_TRANSIENT_RETRIES
      ensures server.data.high == old(server.data.high)
      ensures server.data.live == old(server.data.live)
        - if Reached(server.faults, old(server.calls), server.calls) then {x} else {}
      ensures err == match server.faults(server.calls - 1)
                     case Fine => None
                     case Lost(transient, _) => Some(if transient then Transient else Other)
      ensures err.None? ==> x !in server.data.live
      ensures StopsInTime(server.faults, cancelled, old(server.calls), server.calls)
      ensures Bearable(server.faults, cancelled, old(server.calls), server.calls) ==> err.None?
    {
      var waited;
      ghost var first := server.calls;
      err, waited := RunWithRetry(ForgetCmd(x));
      ReachedOrNot(server.faults, first, server.calls - 1);
      BearableRetry(first, first, server.calls, err);
      if err == Some(Missing) {
        err := None;
      }
    }
  }
}
