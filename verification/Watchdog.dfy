/** The deadlock checker, with its build option switched on: registered threads publish the tick of their
    last frame, and a periodic check crashes the process when one of them is too old. */
module Watchdog {
  import opened Wrappers
  import opened Bytes

  const MAX_CHECK_COUNT: nat := 20000

  type UInt64 = n: int | 0 <= n < UINT64_SPACE

  /** `threadUpdatedTick >= now - maxCheckCount` in unsigned 64-bit arithmetic, negated. */
  predicate Alarms(tick: UInt64, now: UInt64) {
    !(tick >= (now - MAX_CHECK_COUNT) % UINT64_SPACE)
  }

  /** Exactly when the test says what it is meant to say. In the first twenty seconds of the clock the
      subtraction wraps, and any thread with an ordinary tick is reported. */
  lemma AlarmExactness(tick: UInt64, now: UInt64)
    ensures now >= 20000 ==> (Alarms(tick, now) <==> tick + 20000 < now)
    ensures (Alarms(tick, now) <==> tick + 20000 < now)
      <==> now >= 20000 || tick >= 0x1_0000_0000_0000_0000 + now - 20000
    ensures tick <= now < 20000 ==> Alarms(tick, now)
  {
    if now < MAX_CHECK_COUNT {
      assert (now - MAX_CHECK_COUNT) % UINT64_SPACE == UINT64_SPACE + now - MAX_CHECK_COUNT;
    } else {
      assert (now - MAX_CHECK_COUNT) % UINT64_SPACE == now - MAX_CHECK_COUNT;
    }
  }

  // ---------------------------------------------------------------- the checker's methods

  /** What a worker publishes; the registered getter reads `nowTick`. */
  class TickSet {
    var nowTick: UInt64

    constructor (now: UInt64)
      ensures nowTick == now
    {
      nowTick := now;
    }

    /** A worker's frame. What it publishes is what the checker reads, for the thread that registered this. */
    method Frame(now: UInt64, ghost checker: DeadlockChecker, ghost threadId: nat)
      requires threadId in checker.checkerMap && checker.checkerMap[threadId] == this
      requires forall id | id in checker.checkerMap && id != threadId :: checker.checkerMap[id] != this
      modifies this
      ensures nowTick == now
      ensures checker.Ticks() == Apply(old(checker.Ticks()), Event.Frame(threadId, now))
    {
      nowTick := now;
    }
  }

  class DeadlockChecker {
    var checkerMap: map<nat, TickSet>

    constructor ()
      ensures checkerMap == map[]
    {
      checkerMap := map[];
    }

    /** The registered threads and their present ticks. */
    ghost function Ticks(): map<nat, UInt64>
      reads this, checkerMap.Values
    {
      map id | id in checkerMap :: checkerMap[id].nowTick
    }

    method RegisterCheckThread(threadId: nat, ticks: TickSet) returns (inserted: bool)
      modifies this
      ensures inserted == (threadId !in old(checkerMap))
      ensures checkerMap == if inserted then old(checkerMap)[threadId := ticks] else old(checkerMap)
      ensures Ticks() == Apply(old(Ticks()), Register(threadId, ticks.nowTick))
    {
      inserted := threadId !in checkerMap;
      if inserted {
        checkerMap := checkerMap[threadId := ticks];
      }
    }

    method DeregisteredCheckThread(threadId: nat)
      modifies this
      ensures checkerMap == old(checkerMap) - {threadId}
      ensures Ticks() == Apply(old(Ticks()), Deregister(threadId))
    {
      checkerMap := checkerMap - {threadId};
    }

    /** One pass of CheckDeadlockThread's endless loop, after the clock was read: it crashes at the first
        registered thread that is too old. */
    method CheckOnce(now: UInt64) returns (crash: bool)
      ensures crash == CheckAlarms(Ticks(), now)
    {
      var unchecked := checkerMap.Keys;
      while unchecked != {}
        invariant unchecked <= checkerMap.Keys
        invariant forall id | id in checkerMap && id !in unchecked :: !Alarms(checkerMap[id].nowTick, now)
        decreases |unchecked|
      {
        var id :| id in unchecked;
        if Alarms(checkerMap[id].nowTick, now) {
          assert id in Ticks() && Ticks()[id] == checkerMap[id].nowTick;
          return true;
        }
        unchecked := unchecked - {id};
      }
      return false;
    }
  }

  // ---------------------------------------------------------------- runs

  predicate CheckAlarms(ticks: map<nat, UInt64>, now: UInt64) {
    exists id :: id in ticks && Alarms(ticks[id], now)
  }

  datatype Event =
    | Register(id: nat, tick: UInt64)
    | Deregister(id: nat)
    | Frame(id: nat, tick: UInt64)
    | Check(now: UInt64)

  /** Registering a registered thread changes nothing, and a thread that is not registered publishes to
      nobody. */
  function Apply(ticks: map<nat, UInt64>, e: Event): map<nat, UInt64> {
    match e
    case Register(id, tick) => if id in ticks then ticks else ticks[id := tick]
    case Deregister(id) => ticks - {id}
    case Frame(id, tick) => if id in ticks then ticks[id := tick] else ticks
    case Check(_) => ticks
  }

  /** The clock value of the first check that crashes the process, if any does. */
  function CrashTime(ticks: map<nat, UInt64>, events: seq<Event>): Option<UInt64>
    decreases |events|
  {
    if events == [] then None
    else if events[0].Check? && CheckAlarms(ticks, events[0].now) then Some(events[0].now)
    else CrashTime(Apply(ticks, events[0]), events[1..])
  }

  /** Thread `id` neither publishes a frame nor deregisters. */
  predicate Stalled(events: seq<Event>, id: nat) {
    forall i | 0 <= i < |events| ::
      !(events[i].Frame? && events[i].id == id) && !(events[i].Deregister? && events[i].id == id)
  }

  /** Checks follow the previous one, made at `last`, and each other within `period`. */
  ghost predicate ChecksWithin(events: seq<Event>, last: nat, period: nat) {
    if events == [] then true
    else if events[0].Check? then
      && last <= events[0].now <= last + period
      && ChecksWithin(events[1..], events[0].now, period)
    else ChecksWithin(events[1..], last, period)
  }

  /** In every run, whatever the other threads do: a thread that stays registered and is stalled since
      `tick` crashes the process by `tick + 20000 + period`, provided the checks go on past
      `tick + 20000` and follow each other within `period`. */
  lemma {:induction false} DetectionLatency(
    ticks: map<nat, UInt64>, events: seq<Event>, id: nat, last: nat, period: nat)
    requires id in ticks && Stalled(events, id)
    requires last <= ticks[id] + MAX_CHECK_COUNT && ChecksWithin(events, last, period)
    requires exists i :: 0 <= i < |events| && events[i].Check? && events[i].now > ticks[id] + MAX_CHECK_COUNT
    ensures CrashTime(ticks, events).Some? && CrashTime(ticks, events).value <= ticks[id] + MAX_CHECK_COUNT + period
    decreases |events|
  {
    var i :| 0 <= i < |events| && events[i].Check? && events[i].now > ticks[id] + MAX_CHECK_COUNT;
    var e := events[0];
    if e.Check? {
      AlarmExactness(ticks[id], e.now);
    }
    if !(e.Check? && CheckAlarms(ticks, e.now)) {
      assert events[1..][i - 1] == events[i];
      DetectionLatency(Apply(ticks, e), events[1..], id, if e.Check? then e.now else last, period);
    }
  }

  /** Every registered thread is, at every check, at most 20000 ms behind. */
  ghost predicate Timely(ticks: map<nat, UInt64>, events: seq<Event>)
    decreases |events|
  {
    if events == [] then true
    else
      && (events[0].Check? ==> forall id | id in ticks :: events[0].now <= ticks[id] + MAX_CHECK_COUNT)
      && Timely(Apply(ticks, events[0]), events[1..])
  }

  /** No check in the first twenty seconds of the clock meets a registered thread whose tick has not the
      wrapped value, close to 2^64, that the test then asks for. */
  ghost predicate NoEarlyMisfire(ticks: map<nat, UInt64>, events: seq<Event>)
    decreases |events|
  {
    if events == [] then true
    else
      && (events[0].Check? && events[0].now < MAX_CHECK_COUNT ==>
        forall id | id in ticks :: UINT64_SPACE + events[0].now <= ticks[id] + MAX_CHECK_COUNT)
      && NoEarlyMisfire(Apply(ticks, events[0]), events[1..])
  }

  /** A run crashes exactly when at some check a registered thread is more than 20000 ms behind, or the clock
      is in its first twenty seconds and the wrapped test misfires. */
  lemma {:induction false} CrashIffNotTimely(ticks: map<nat, UInt64>, events: seq<Event>)
    ensures CrashTime(ticks, events).None? <==> Timely(ticks, events) && NoEarlyMisfire(ticks, events)
    ensures (forall i | 0 <= i < |events| && events[i].Check? :: MAX_CHECK_COUNT <= events[i].now) ==>
      NoEarlyMisfire(ticks, events)
    decreases |events|
  {
    if events != [] {
      if events[0].Check? {
        forall id | id in ticks
          ensures !Alarms(ticks[id], events[0].now) <==>
            && events[0].now <= ticks[id] + MAX_CHECK_COUNT
            && (events[0].now < MAX_CHECK_COUNT ==> UINT64_SPACE + events[0].now <= ticks[id] + MAX_CHECK_COUNT)
        {
          AlarmExactness(ticks[id], events[0].now);
        }
      }
      CrashIffNotTimely(Apply(ticks, events[0]), events[1..]);
    }
  }

  // ---------------------------------------------------------------- what the checks read

  function Replay(events: seq<Event>): map<nat, UInt64> {
    if events == [] then map[] else Apply(Replay(events[..|events| - 1]), events[|events| - 1])
  }

  /** Thread `id` was registered before event `i` and not deregistered since. */
  ghost predicate IsRegistered(events: seq<Event>, i: nat, id: nat)
    requires i <= |events|
  {
    exists k :: 0 <= k < i && events[k].Register? && events[k].id == id
             && forall j | k < j < i :: events[j] != Deregister(id)
  }

  /** Event `k` publishes `tick` for thread `id`: a frame of a registered thread, or a registration that
      finds it unregistered. */
  ghost predicate Publishes(events: seq<Event>, k: nat, id: nat, tick: UInt64)
    requires k < |events|
  {
    || (events[k] == Event.Frame(id, tick) && IsRegistered(events, k, id))
    || (events[k] == Register(id, tick) && !IsRegistered(events, k, id))
  }

  /** `tick` is what thread `id` published last before event `i`, with no frame and no deregistration after. */
  ghost predicate LatestTick(events: seq<Event>, i: nat, id: nat, tick: UInt64)
    requires i <= |events|
  {
    exists k :: 0 <= k < i && Publishes(events, k, id, tick)
             && forall j | k < j < i :: !(events[j].Frame? && events[j].id == id) && events[j] != Deregister(id)
  }

  lemma RegisteredNext(events: seq<Event>, i: nat, id: nat)
    requires i < |events|
    ensures IsRegistered(events, i + 1, id) <==>
      (events[i].Register? && events[i].id == id) || (IsRegistered(events, i, id) && events[i] != Deregister(id))
  {
    if events[i].Register? && events[i].id == id {
      assert IsRegistered(events, i + 1, id);
    } else if IsRegistered(events, i, id) && events[i] != Deregister(id) {
      var k :| 0 <= k < i && events[k].Register? && events[k].id == id
            && forall j | k < j < i :: events[j] != Deregister(id);
      assert events[k].Register?;
    }
  }

  lemma LatestTickNext(events: seq<Event>, i: nat, id: nat, tick: UInt64)
    requires i < |events|
    ensures LatestTick(events, i + 1, id, tick) <==>
      || Publishes(events, i, id, tick)
      || (LatestTick(events, i, id, tick) && !(events[i].Frame? && events[i].id == id) && events[i] != Deregister(id))
  {
    if Publishes(events, i, id, tick) {
      assert LatestTick(events, i + 1, id, tick);
    } else if LatestTick(events, i, id, tick) && !(events[i].Frame? && events[i].id == id)
              && events[i] != Deregister(id) {
      var k :| 0 <= k < i && Publishes(events, k, id, tick)
            && forall j | k < j < i :: !(events[j].Frame? && events[j].id == id) && events[j] != Deregister(id);
      assert Publishes(events, k, id, tick);
    }
  }

  /** What a check at event `i` reads: an entry for every registered thread, and in it the tick that thread
      published last, with its latest frame or, before its first frame, with its registration. */
  lemma {:induction false} ChecksReadLatestTicks(events: seq<Event>, i: nat, id: nat, tick: UInt64)
    requires i <= |events|
    ensures id in Replay(events[..i]) <==> IsRegistered(events, i, id)
    ensures id in Replay(events[..i]) && Replay(events[..i])[id] == tick <==> LatestTick(events, i, id, tick)
  {
    if i > 0 {
      ChecksReadLatestTicks(events, i - 1, id, tick);
      RegisteredNext(events, i - 1, id);
      LatestTickNext(events, i - 1, id, tick);
      assert events[..i][..i - 1] == events[..i - 1];
    }
  }

  /** The check at event `i` finds a thread whose latest tick alarms. */
  ghost predicate AlarmAt(events: seq<Event>, i: nat) {
    && i < |events| && events[i].Check?
    && exists id: nat, tick: UInt64 :: LatestTick(events, i, id, tick) && Alarms(tick, events[i].now)
  }

  lemma AlarmIsCheckAlarm(events: seq<Event>, i: nat)
    requires i < |events| && events[i].Check?
    ensures AlarmAt(events, i) <==> CheckAlarms(Replay(events[..i]), events[i].now)
  {
    var ticks := Replay(events[..i]);
    if CheckAlarms(ticks, events[i].now) {
      var id :| id in ticks && Alarms(ticks[id], events[i].now);
      ChecksReadLatestTicks(events, i, id, ticks[id]);
    }
    if AlarmAt(events, i) {
      var id: nat, tick: UInt64 :| LatestTick(events, i, id, tick) && Alarms(tick, events[i].now);
      ChecksReadLatestTicks(events, i, id, tick);
    }
  }

  /** A run from the start crashes at the first check that finds an alarming tick, at that check's time. */
  lemma CrashesAtTheFirstAlarm(events: seq<Event>)
    ensures CrashTime(map[], events).None? <==> forall i: nat :: !AlarmAt(events, i)
    ensures CrashTime(map[], events).Some? ==>
      exists i: nat :: AlarmAt(events, i) && CrashTime(map[], events).value == events[i].now
               && forall j: nat | j < i :: !AlarmAt(events, j)
  {
    assert events[..0] == [] && events[0..] == events;
    CrashesFrom(events, 0);
  }

  lemma {:induction false} CrashesFrom(events: seq<Event>, from: nat)
    requires from <= |events|
    ensures var crash := CrashTime(Replay(events[..from]), events[from..]);
      && (crash.None? <==> forall i | i >= from :: !AlarmAt(events, i))
      && (crash.Some? ==>
        exists i :: i >= from && AlarmAt(events, i) && crash.value == events[i].now
                 && forall j: nat | from <= j < i :: !AlarmAt(events, j))
    decreases |events| - from
  {
    if from < |events| {
      if events[from].Check? {
        AlarmIsCheckAlarm(events, from);
      }
      CrashesFrom(events, from + 1);
      assert events[from..][1..] == events[from + 1..];
      assert events[..from + 1][..from] == events[..from];
    }
  }

  /** Every thread the check at event `i` meets published its latest tick at most 20000 ms before. */
  ghost predicate MeetsFreshTicks(events: seq<Event>, i: nat)
    requires i < |events| && events[i].Check?
  {
    forall id: nat, tick: UInt64 | LatestTick(events, i, id, tick) :: events[i].now <= tick + 20000
  }

  /** In terms of what the threads published: past the clock's first 20000 ms, a run survives exactly when
      every check meets fresh ticks only. */
  lemma SurvivesIffTicksAreFresh(events: seq<Event>)
    requires forall i | 0 <= i < |events| && events[i].Check? :: events[i].now >= 20000
    ensures CrashTime(map[], events).None? <==>
      forall i | 0 <= i < |events| && events[i].Check? :: MeetsFreshTicks(events, i)
  {
    CrashesAtTheFirstAlarm(events);
    forall i | 0 <= i < |events| && events[i].Check? ensures AlarmAt(events, i) <==> !MeetsFreshTicks(events, i) {
      FreshTicksRaiseNoAlarm(events, i);
    }
  }

  lemma FreshTicksRaiseNoAlarm(events: seq<Event>, i: nat)
    requires i < |events| && events[i].Check? && events[i].now >= 20000
    ensures AlarmAt(events, i) <==> !MeetsFreshTicks(events, i)
  {
    forall tick: UInt64 ensures Alarms(tick, events[i].now) <==> tick + 20000 < events[i].now {
      AlarmExactness(tick, events[i].now);
    }
  }
}
