/** What the state of the batch protocol says in terms of the moves that led to it. */
module JobHistory {
  import opened Wrappers
  import opened Keys
  import opened JobProtocol
  import opened JobInvariants
  import opened JobTraces
  import opened JobReplies
  import opened JobTheorems
  import opened JobRounds

  // ---------------------------------------------------------------- one entry per call

  /** The moves of a schedule whose action is of one kind, in order. */
  function Picked(schedule: seq<Move>, kind: Action -> bool): (picked: seq<Move>)
    ensures |picked| <= |schedule|
  {
    if schedule == [] then []
    else
      var last := schedule[|schedule| - 1];
      Picked(schedule[..|schedule| - 1], kind) + if kind(last.action) then [last] else []
  }

  /** `batch` was made by this construction. */
  predicate MadeBy(batch: Batch, move: Move) {
    move.action.Construct? && batch.maker == move.thread && batch.session == move.action.session
  }

  predicate ReceivedBy(reply: Reply, move: Move) {
    move.action.Receive? && reply.server == move.thread && reply.key == move.action.key && reply.ok == move.action.ok
  }

  ghost predicate HistoryOk(schedule: seq<Move>, s: State) {
    && (var makes := Picked(schedule, (a: Action) => a.Construct?);
        |s.batches| == |makes| && forall b | 0 <= b < |makes| :: MadeBy(s.batches[b], makes[b]))
    && (var receives := Picked(schedule, (a: Action) => a.Receive?);
        |s.replies| == |receives| && forall r | 0 <= r < |receives| :: ReceivedBy(s.replies[r], receives[r]))
    && s.registrations == |Picked(schedule, (a: Action) => a.Insert?)|
  }

  /** In runs of any length: there is one batch per construction, with the maker and the session of that
      construction, one reply per reception, with its thread, key and outcome, both in order, and one
      registration per insertion. */
  lemma {:induction false} OneEntryPerCall(cfg: Config, n: nat, schedule: seq<Move>, s: State)
    requires Run(cfg, n, schedule) == Some(s)
    ensures HistoryOk(schedule, s)
    decreases |schedule|
  {
    if schedule != [] {
      var m := |schedule| - 1;
      var Move(t, a) := schedule[m];
      var before := Run(cfg, n, schedule[..m]).value;
      OneEntryPerCall(cfg, n, schedule[..m], before);
      BatchesGrow(cfg, before, t, a);
      RepliesGrow(cfg, before, t, a);
    }
  }

  lemma BatchesGrow(cfg: Config, s: State, t: nat, a: Action)
    requires Typed(s) && t < |s.threads| && Enabled(cfg, s, t, a)
    ensures var n := Step(cfg, s, t, a);
      && |n.batches| == |s.batches| + (if a.Construct? then 1 else 0)
      && n.registrations == s.registrations + (if a.Insert? then 1 else 0)
      && (forall b | 0 <= b < |s.batches| :: SameOrigin(s.batches[b], n.batches[b]))
      && (a.Construct? ==> MadeBy(n.batches[|s.batches|], Move(t, a)))
  {
    RegistrationsGrow(cfg, s, t, a);
    if a.Construct? {
      assert Step(cfg, s, t, a) == DoConstruct(s, t, a.session);
    } else {
      OriginsStay(cfg, s, t, a);
    }
  }

  lemma RegistrationsGrow(cfg: Config, s: State, t: nat, a: Action)
    requires Typed(s) && t < |s.threads| && Enabled(cfg, s, t, a)
    ensures Step(cfg, s, t, a).registrations == s.registrations + (if a.Insert? then 1 else 0)
  {
  }

  lemma OriginsStay(cfg: Config, s: State, t: nat, a: Action)
    requires Typed(s) && t < |s.threads| && Enabled(cfg, s, t, a) && !a.Construct?
    ensures var n := Step(cfg, s, t, a);
      |n.batches| == |s.batches| && forall b | 0 <= b < |s.batches| :: SameOrigin(s.batches[b], n.batches[b])
  {
    OnlyConstructionsMakeBatches(cfg, s, t, a);
    if !ClientAction(a) {
      OthersSendNothing(cfg, s, t, a);
    }
  }

  lemma OnlyConstructionsMakeBatches(cfg: Config, s: State, t: nat, a: Action)
    requires Typed(s) && t < |s.threads| && Enabled(cfg, s, t, a) && !a.Construct?
    ensures |Step(cfg, s, t, a).batches| == |s.batches|
  {
  }

  lemma RepliesGrow(cfg: Config, s: State, t: nat, a: Action)
    requires Typed(s) && t < |s.threads| && Enabled(cfg, s, t, a)
    ensures var n := Step(cfg, s, t, a);
      && |n.replies| == |s.replies| + (if a.Receive? then 1 else 0)
      && (forall r | 0 <= r < |s.replies| :: n.replies[r].(status := s.replies[r].status) == s.replies[r])
      && (a.Receive? ==> ReceivedBy(n.replies[|s.replies|], Move(t, a)))
  {
    if a.Receive? {
      assert Step(cfg, s, t, a) == DoReceive(s, t, a.key, a.ok);
    } else if !ReplyAction(a) {
      OthersLeaveReplies(cfg, s, t, a);
    }
  }

  lemma OthersLeaveReplies(cfg: Config, s: State, t: nat, a: Action)
    requires Typed(s) && t < |s.threads| && Enabled(cfg, s, t, a) && !ReplyAction(a)
    ensures Step(cfg, s, t, a).replies == s.replies
  {
  }

  /** So the map has one entry per insertion, within the draw bound. */
  lemma OneEntryPerInsertion(cfg: Config, n: nat, schedule: seq<Move>, s: State)
    requires Reaches(cfg, n, schedule, s)
    ensures |s.jobMap| == |Picked(schedule, (a: Action) => a.Insert?)|
  {
    OneEntryPerCall(cfg, n, schedule, s);
    OwnershipConservation(cfg, n, schedule, s);
  }

  // ---------------------------------------------------------------- which jobs a batch has

  /** The jobs the schedule's AddDBJob calls hand to batch `b`, in order. */
  ghost function Added(cfg: Config, n: nat, schedule: seq<Move>, b: nat): seq<Job> {
    if schedule == [] then []
    else
      var m := |schedule| - 1;
      Added(cfg, n, schedule[..m], b) + AddedBy(Run(cfg, n, schedule[..m]), schedule[m], b)
  }

  ghost function AddedBy(before: Option<State>, move: Move, b: nat): seq<Job> {
    if before.Some? && move.action.AddJob? && move.thread < |before.value.threads|
       && before.value.threads[move.thread] == Filling(b)
    then [move.action.job] else []
  }

  function FirstSixteen(jobs: seq<Job>): seq<Job> {
    if |jobs| <= 16 then jobs else jobs[..16]
  }

  /** In every interleaving, and in runs of any length: a batch's list is the first sixteen jobs that were
      handed to it, in call order. */
  lemma {:induction false} JobsAreTheFirstSixteen(cfg: Config, n: nat, schedule: seq<Move>, s: State, b: nat)
    requires Run(cfg, n, schedule) == Some(s)
    ensures b < |s.batches| ==> s.batches[b].jobs == FirstSixteen(Added(cfg, n, schedule, b))
    ensures b >= |s.batches| ==> Added(cfg, n, schedule, b) == []
    decreases |schedule|
  {
    if schedule != [] {
      var m := |schedule| - 1;
      var before := Run(cfg, n, schedule[..m]).value;
      JobsAreTheFirstSixteen(cfg, n, schedule[..m], before, b);
      JobsAfterStep(cfg, before, schedule[m], b);
    }
  }

  lemma JobsAfterStep(cfg: Config, s: State, move: Move, b: nat)
    requires Typed(s) && move.thread < |s.threads| && Enabled(cfg, s, move.thread, move.action)
    ensures var n := Step(cfg, s, move.thread, move.action); var more := AddedBy(Some(s), move, b);
      if b < |s.batches| then
        && b < |n.batches|
        && n.batches[b].jobs == if |s.batches[b].jobs| < 16 then s.batches[b].jobs + more else s.batches[b].jobs
      else
        more == [] && (b < |n.batches| ==> n.batches[b].jobs == [])
  {
    if move.action.AddJob? {
      assert DoAddJob(s, move.thread, move.action.job) == Step(cfg, s, move.thread, move.action);
    } else {
      OthersKeepJobs(cfg, s, move.thread, move.action);
    }
  }

  lemma OthersKeepJobs(cfg: Config, s: State, t: nat, a: Action)
    requires Typed(s) && t < |s.threads| && Enabled(cfg, s, t, a) && !a.AddJob?
    ensures var n := Step(cfg, s, t, a);
      && |s.batches| <= |n.batches|
      && (forall b | 0 <= b < |s.batches| :: n.batches[b].jobs == s.batches[b].jobs)
      && (forall b | |s.batches| <= b < |n.batches| :: n.batches[b].jobs == [])
  {
    if a.Construct? {
      assert Step(cfg, s, t, a) == DoConstruct(s, t, a.session);
    } else {
      OriginsStay(cfg, s, t, a);
      if !ClientAction(a) {
        OthersSendNothing(cfg, s, t, a);
      }
    }
  }

  // ---------------------------------------------------------------- counting is counting

  function MatchSet(replies: seq<Reply>, q: Query): set<nat> {
    set r | 0 <= r < |replies| && Matches(replies[r], q)
  }

  lemma MatchSetGrows(replies: seq<Reply>, q: Query)
    requires replies != []
    ensures var n := |replies| - 1;
      MatchSet(replies, q) == MatchSet(replies[..n], q) + if Matches(replies[n], q) then {n} else {}
  {
    var n := |replies| - 1;
    forall r: nat ensures r in MatchSet(replies, q) && r != n <==> r in MatchSet(replies[..n], q) {
      assert r < n ==> replies[..n][r] == replies[r];
    }
  }

  /** The tallies of the hook accounting are numbers of replies, and the hook count a number of hooks. */
  lemma {:induction false} TallyIsNumber(replies: seq<Reply>, q: Query)
    ensures Tally(replies, q) == |set r | 0 <= r < |replies| && Matches(replies[r], q)|
    ensures Tally(replies, q) == |MatchSet(replies, q)|
  {
    if replies != [] {
      TallyIsNumber(replies[..|replies| - 1], q);
      MatchSetGrows(replies, q);
    }
  }

  predicate IsCall(hook: Hook, b: nat, index: nat, ok: bool) {
    hook.batch == b && hook.index == index && hook.ok == ok
  }

  function CallSet(hooks: seq<Hook>, b: nat, index: nat, ok: bool): set<nat> {
    set h | 0 <= h < |hooks| && IsCall(hooks[h], b, index, ok)
  }

  lemma CallSetGrows(hooks: seq<Hook>, b: nat, index: nat, ok: bool)
    requires hooks != []
    ensures var n := |hooks| - 1;
      CallSet(hooks, b, index, ok)
      == CallSet(hooks[..n], b, index, ok) + if IsCall(hooks[n], b, index, ok) then {n} else {}
  {
    var n := |hooks| - 1;
    forall h: nat ensures h in CallSet(hooks, b, index, ok) && h != n <==> h in CallSet(hooks[..n], b, index, ok) {
      assert h < n ==> hooks[..n][h] == hooks[h];
    }
  }

  lemma {:induction false} HookCountIsNumber(hooks: seq<Hook>, b: nat, index: nat, ok: bool)
    ensures HookCount(hooks, b, index, ok) == |set h | 0 <= h < |hooks| && IsCall(hooks[h], b, index, ok)|
    ensures HookCount(hooks, b, index, ok) == |CallSet(hooks, b, index, ok)|
  {
    if hooks != [] {
      HookCountIsNumber(hooks[..|hooks| - 1], b, index, ok);
      CallSetGrows(hooks, b, index, ok);
    }
  }

  // ---------------------------------------------------------------- what can happen

  /** When the insertion throws, the batch dies at the end of the handler, unregistered; nothing else
      changes but the counter. */
  lemma ThrowingInsertKillsBatch(cfg: Config, n: nat, base: seq<Move>, s: State, t: nat, session: nat)
    returns (longer: seq<Move>, z: State)
    requires Reaches(cfg, n, base, s) && |s.draws| + DrawsPerMake(cfg.keyMode) <= KEY_SPACE
    requires t < n && s.threads[t].Idle? && s.lock.None?
    ensures AloneFrom(base, longer, t) && Reaches(cfg, n, longer, z)
    ensures z.threads == s.threads && z.lock.None? && z.jobMap == s.jobMap
    ensures z.batches == s.batches + [Batch(t, session, s.counter, [], 0, true, NotRun)]
    ensures z.trace == s.trace && z.replies == s.replies && z.hooks == s.hooks
  {
    EveryRunKeepsInv(cfg, n, base, s);
    var b, k := |s.batches|, RegisteredKey(cfg.keyMode, s.counter);
    longer, z := SoloEnter(cfg, n, base, t, base, s, session);
    longer, z := SoloPickKey(cfg, n, base, t, longer, z, b, k);
    longer, z := SoloUnwind(cfg, n, base, t, longer, z, b, k);
    SetTwice(s.threads, t, RegLocked(b), RegKeyed(b, k));
    SetTwice(s.threads, t, RegKeyed(b, k), Dropping(b));
    SetTwice(s.threads, t, Dropping(b), Idle);
    assert s.threads[t := Idle] == s.threads;
    SetLast(s.batches, Fresh(t, session, s.counter), Fresh(t, session, s.counter).(strong := 1));
    longer, z := SoloDie(cfg, n, base, t, longer, z, b);
    SetLast(s.batches, Fresh(t, session, s.counter).(strong := 1), Batch(t, session, s.counter, [], 0, true, NotRun));
  }

  /** The three steps back to the handler's caller, one after the other. */
  lemma UnwindState(cfg: Config, m: State, u: State, v: State, t: nat, b: nat, k: Key)
    requires Typed(m) && t < |m.threads| && m.threads[t] == RegKeyed(b, k) && u == Step(cfg, m, t, InsertThrows)
    requires v == Step(cfg, u, t, Unlock)
    ensures Enabled(cfg, v, t, DropParam)
    ensures var z := Step(cfg, v, t, DropParam);
      && z.threads == m.threads[t := Dropping(b)] && z.lock.None?
      && z.batches == m.batches[b := m.batches[b].(strong := m.batches[b].strong - 1)]
      && SameKeys(m, z) && SameTraffic(m, z)
  {
    SetTwice(m.threads, t, RegThrown(b), Unwind(b));
    SetTwice(m.threads, t, Unwind(b), Dropping(b));
  }

  lemma SoloUnwind(cfg: Config, n: nat, base: seq<Move>, t: nat, moves: seq<Move>, m: State, b: nat, k: Key)
    returns (longer: seq<Move>, z: State)
    requires Got(cfg, n, base, t, moves, m) && m.threads[t] == RegKeyed(b, k)
    ensures Got(cfg, n, base, t, longer, z)
    ensures z.threads == m.threads[t := Dropping(b)] && z.lock.None?
    ensures z.batches == m.batches[b := m.batches[b].(strong := m.batches[b].strong - 1)]
    ensures SameKeys(m, z) && SameTraffic(m, z)
  {
    var u, v;
    longer, u := Then(cfg, n, base, t, moves, m, InsertThrows);
    longer, v := Then(cfg, n, base, t, longer, u, Unlock);
    UnwindState(cfg, m, u, v, t, b, k);
    longer, z := Then(cfg, n, base, t, longer, v, DropParam);
  }

  lemma SoloDie(cfg: Config, n: nat, base: seq<Move>, t: nat, moves: seq<Move>, m: State, b: nat)
    returns (longer: seq<Move>, z: State)
    requires Got(cfg, n, base, t, moves, m) && m.threads[t] == Dropping(b) && m.lock.None?
    requires m.batches[b].strong == 1 && |m.draws| <= KEY_SPACE
    ensures Got(cfg, n, base, t, longer, z)
    ensures z.threads == m.threads[t := Idle] && z.lock.None?
    ensures z.batches == m.batches[b := m.batches[b].(strong := 0, destroyed := true)]
    ensures SameKeys(m, z) && SameTraffic(m, z)
  {
    longer, z := SoloDestruct(cfg, n, base, t, moves, m, b);
    EveryRunKeepsInv(cfg, n, longer, z);
    EraseFindsNothing(cfg, z, b);
    var erased;
    longer, erased := Then(cfg, n, base, t, longer, z, Erase);
    SetTwice(m.threads, t, DeregLocked(b), DeregErased(b));
    SetTwice(m.threads, t, DeregErased(b), Idle);
    longer, z := Then(cfg, n, base, t, longer, erased, Unlock);
  }

  lemma SoloDestruct(cfg: Config, n: nat, base: seq<Move>, t: nat, moves: seq<Move>, m: State, b: nat)
    returns (longer: seq<Move>, z: State)
    requires Got(cfg, n, base, t, moves, m) && m.threads[t] == Dropping(b) && m.lock.None?
    requires m.batches[b].strong == 1
    ensures Got(cfg, n, base, t, longer, z) && z.threads == m.threads[t := DeregLocked(b)]
    ensures z.batches == m.batches[b := m.batches[b].(strong := 0, destroyed := true)]
    ensures SameKeys(m, z) && SameTraffic(m, z)
  {
    longer, z := Then(cfg, n, base, t, moves, m, DropRef);
    longer, z := Then(cfg, n, base, t, longer, z, Lock);
    SetTwice(m.threads, t, Destruct(b), DeregLocked(b));
  }

  /** The last term of the hook accounting is needed: with a database that answers keys it was never sent,
      a reply can be finished before its batch has any job, and a job added later gets no hook from it. */
  lemma PrematureReply(cfg: Config, n: nat, session: nat, job: Job, ok: bool) returns (schedule: seq<Move>, s: State)
    requires n >= 2 && cfg.keyMode.OwnKey? && !cfg.honestDb && CanBeAdded(cfg, [job])
    ensures Reaches(cfg, n, schedule, s) && |s.batches| == 1 && s.batches[0].jobs == [job] && s.hooks == []
    ensures s.replies == [Reply(1, s.batches[0].key, ok, Served(0, 0))]
    ensures Tally(s.replies, Premature(0, 0, ok)) == 1 && Tally(s.replies, Completed(s.batches[0].key, ok)) == 1
  {
    var m;
    schedule, m := ServedBeforeAnyJob(cfg, n, session, ok);
    schedule, s := SoloAddJobs(cfg, n, schedule, 0, schedule, m, 0, [job]);
    assert s.replies[..0] == [];
  }

  lemma ServedBeforeAnyJob(cfg: Config, n: nat, session: nat, ok: bool) returns (schedule: seq<Move>, s: State)
    requires n >= 2 && cfg.keyMode.OwnKey? && !cfg.honestDb
    ensures Reaches(cfg, n, schedule, s) && s.threads[0] == Filling(0)
    ensures s.batches == [Fresh(0, session, FIRST_KEY)] && s.hooks == []
    ensures s.replies == [Reply(1, FIRST_KEY, ok, Served(0, 0))]
  {
    var m;
    assert Run(cfg, n, []) == Some(Init(n));
    schedule, m := SoloMake(cfg, n, [], 0, [], Init(n), session);
    schedule, s := SoloServe(cfg, n, schedule, 1, schedule, m, FIRST_KEY, ok);
  }
}
