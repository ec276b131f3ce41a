/** One thread moving alone from any reachable state: making a batch, and a whole make, execute, reply round. */
module JobRounds {
  import opened Wrappers
  import opened Keys
  import opened JobProtocol
  import opened JobInvariants
  import opened JobTraces
  import opened JobReplies
  import opened JobTheorems

  /** The longer schedule goes on from the shorter one with moves of thread `t` only. */
  ghost predicate AloneFrom(shorter: seq<Move>, longer: seq<Move>, t: nat) {
    shorter <= longer && forall i | |shorter| <= i < |longer| :: longer[i].thread == t
  }

  /** `m` is where thread `t` got alone after the schedule `base`, by running `moves` in all. */
  ghost predicate Got(cfg: Config, n: nat, base: seq<Move>, t: nat, moves: seq<Move>, m: State) {
    t < n && AloneFrom(base, moves, t) && Run(cfg, n, moves) == Some(m)
  }

  lemma Then(cfg: Config, n: nat, base: seq<Move>, t: nat, moves: seq<Move>, m: State, a: Action)
    returns (longer: seq<Move>, z: State)
    requires Got(cfg, n, base, t, moves, m) && Enabled(cfg, m, t, a)
    ensures Got(cfg, n, base, t, longer, z) && z == Step(cfg, m, t, a) && longer == moves + [Move(t, a)]
  {
    longer, z := moves + [Move(t, a)], Step(cfg, m, t, a);
    assert longer[..|moves|] == moves;
  }

  ghost predicate SameKeys(m: State, z: State) {
    z.counter == m.counter && z.draws == m.draws && z.jobMap == m.jobMap
  }

  ghost predicate SameTraffic(m: State, z: State) {
    z.trace == m.trace && z.replies == m.replies && z.hooks == m.hooks
  }

  lemma SetTwice<T>(s: seq<T>, i: nat, x: T, y: T)
    requires i < |s|
    ensures s[i := x][i := y] == s[i := y]
  {
  }

  lemma SetLast<T>(s: seq<T>, x: T, y: T)
    ensures (s + [x])[|s| := y] == s + [y]
  {
  }

  // ---------------------------------------------------------------- single steps

  lemma InsertState(cfg: Config, m: State, t: nat, b: nat, k: Key)
    requires Typed(m) && t < |m.threads| && m.threads[t] == RegKeyed(b, k) && k !in m.jobMap
    ensures var z := Step(cfg, m, t, Insert);
      && z.threads == m.threads[t := RegInserted(b)] && z.jobMap == m.jobMap[k := b]
      && z.batches == m.batches[b := m.batches[b].(strong := m.batches[b].strong + 1)]
      && z.counter == m.counter && z.draws == m.draws && SameTraffic(m, z)
  {
  }

  /** Unlocking and, in the next step, dropping the by-value parameter. */
  lemma ReturnState(cfg: Config, m: State, u: State, t: nat, b: nat)
    requires Typed(m) && t < |m.threads| && m.threads[t] == RegInserted(b) && u == Step(cfg, m, t, Unlock)
    ensures Enabled(cfg, u, t, DropParam)
    ensures var z := Step(cfg, u, t, DropParam);
      && z.threads == m.threads[t := Filling(b)] && z.lock.None?
      && z.batches == m.batches[b := m.batches[b].(strong := m.batches[b].strong - 1)]
      && SameKeys(m, z) && SameTraffic(m, z)
  {
    SetTwice(m.threads, t, RegReturn(b), Filling(b));
  }

  /** Below sixteen jobs AddDBJob appends, from then on it changes nothing at all. */
  lemma AddJobState(cfg: Config, m: State, t: nat, b: nat, job: Job)
    requires Typed(m) && t < |m.threads| && m.threads[t] == Filling(b) && (job.hasBuffer ==> cfg.wired)
    ensures Enabled(cfg, m, t, Action.AddJob(job))
    ensures var z := Step(cfg, m, t, Action.AddJob(job));
      && (|m.batches[b].jobs| < 16 ==> z.batches == m.batches[b := m.batches[b].(jobs := m.batches[b].jobs + [job])])
      && (|m.batches[b].jobs| >= 16 ==> z == m)
      && z.threads == m.threads && z.lock == m.lock && SameKeys(m, z) && SameTraffic(m, z)
  {
  }

  // ---------------------------------------------------------------- making a batch

  function Fresh(t: nat, session: nat, key: Key): Batch {
    Batch(t, session, key, [], 2, false, NotRun)
  }

  lemma SoloEnter(cfg: Config, n: nat, base: seq<Move>, t: nat, moves: seq<Move>, m: State, session: nat)
    returns (longer: seq<Move>, z: State)
    requires Got(cfg, n, base, t, moves, m) && m.threads[t].Idle? && m.lock.None?
    ensures Got(cfg, n, base, t, longer, z)
    ensures z.threads == m.threads[t := RegLocked(|m.batches|)]
    ensures z.batches == m.batches + [Fresh(t, session, m.counter)]
    ensures z.counter == Bump(m.counter) && |z.draws| == |m.draws| + 1
    ensures z.jobMap == m.jobMap && SameTraffic(m, z)
  {
    longer, z := Then(cfg, n, base, t, moves, m, Action.Construct(session));
    longer, z := Then(cfg, n, base, t, longer, z, CallRegister);
    longer, z := Then(cfg, n, base, t, longer, z, Lock);
    assert z.batches == m.batches + [Fresh(t, session, m.counter)];
    assert z.threads == m.threads[t := RegLocked(|m.batches|)];
  }

  lemma SoloPickKey(cfg: Config, n: nat, base: seq<Move>, t: nat, moves: seq<Move>, m: State, b: nat, k: Key)
    returns (longer: seq<Move>, z: State)
    requires Got(cfg, n, base, t, moves, m) && m.threads[t] == RegLocked(b)
    requires k == if cfg.keyMode.OwnKey? then m.batches[b].key else m.counter
    ensures Got(cfg, n, base, t, longer, z)
    ensures z.threads == m.threads[t := RegKeyed(b, k)] && z.batches == m.batches
    ensures z.counter == (if cfg.keyMode.OwnKey? then m.counter else Bump(m.counter))
    ensures |z.draws| == |m.draws| + if cfg.keyMode.OwnKey? then 0 else 1
    ensures z.jobMap == m.jobMap && SameTraffic(m, z)
  {
    longer, z := Then(cfg, n, base, t, moves, m, PickKey);
  }

  lemma SoloInsert(cfg: Config, n: nat, base: seq<Move>, t: nat, moves: seq<Move>, m: State, b: nat, k: Key)
    returns (longer: seq<Move>, z: State)
    requires Got(cfg, n, base, t, moves, m) && m.threads[t] == RegKeyed(b, k) && k !in m.jobMap
    ensures Got(cfg, n, base, t, longer, z)
    ensures z.threads == m.threads[t := RegInserted(b)] && z.jobMap == m.jobMap[k := b]
    ensures z.batches == m.batches[b := m.batches[b].(strong := m.batches[b].strong + 1)]
    ensures z.counter == m.counter && z.draws == m.draws && SameTraffic(m, z)
  {
    InsertState(cfg, m, t, b, k);
    longer, z := Then(cfg, n, base, t, moves, m, Insert);
  }

  /** Inserting under a key that is taken changes nothing but the thread's place. */
  lemma SoloInsertTaken(cfg: Config, n: nat, base: seq<Move>, t: nat, moves: seq<Move>, m: State, b: nat, k: Key)
    returns (longer: seq<Move>, z: State)
    requires Got(cfg, n, base, t, moves, m) && m.threads[t] == RegKeyed(b, k) && k in m.jobMap
    ensures Got(cfg, n, base, t, longer, z)
    ensures z.threads == m.threads[t := RegInserted(b)] && z.batches == m.batches
    ensures SameKeys(m, z) && SameTraffic(m, z)
  {
    longer, z := Then(cfg, n, base, t, moves, m, Insert);
  }

  lemma SoloReturn(cfg: Config, n: nat, base: seq<Move>, t: nat, moves: seq<Move>, m: State, b: nat)
    returns (longer: seq<Move>, z: State)
    requires Got(cfg, n, base, t, moves, m) && m.threads[t] == RegInserted(b)
    ensures Got(cfg, n, base, t, longer, z)
    ensures z.threads == m.threads[t := Filling(b)] && z.lock.None?
    ensures z.batches == m.batches[b := m.batches[b].(strong := m.batches[b].strong - 1)]
    ensures SameKeys(m, z) && SameTraffic(m, z)
  {
    var unlocked;
    longer, unlocked := Then(cfg, n, base, t, moves, m, Unlock);
    ReturnState(cfg, m, unlocked, t, b);
    longer, z := Then(cfg, n, base, t, longer, unlocked, DropParam);
  }

  lemma SoloRegister(cfg: Config, n: nat, base: seq<Move>, t: nat, moves: seq<Move>, m: State, b: nat, k: Key)
    returns (longer: seq<Move>, z: State)
    requires Got(cfg, n, base, t, moves, m) && m.threads[t] == RegKeyed(b, k) && k !in m.jobMap
    ensures Got(cfg, n, base, t, longer, z)
    ensures z.threads == m.threads[t := Filling(b)] && z.lock.None? && z.jobMap == m.jobMap[k := b]
    ensures z.batches == m.batches && z.counter == m.counter && z.draws == m.draws && SameTraffic(m, z)
  {
    longer, z := SoloInsert(cfg, n, base, t, moves, m, b, k);
    longer, z := SoloReturn(cfg, n, base, t, longer, z, b);
    SetTwice(m.threads, t, RegInserted(b), Filling(b));
    SetTwice(m.batches, b, m.batches[b].(strong := m.batches[b].strong + 1), m.batches[b]);
  }

  function DrawsPerMake(mode: KeyMode): nat {
    if mode.OwnKey? then 1 else 2
  }

  /** Making a batch alone: it carries the counter's value, is registered under the mode's key, and its
      maker goes on with the only local reference. */
  lemma SoloMake(cfg: Config, n: nat, base: seq<Move>, t: nat, moves: seq<Move>, m: State, session: nat)
    returns (longer: seq<Move>, z: State)
    requires Got(cfg, n, base, t, moves, m) && m.threads[t].Idle? && m.lock.None?
    requires RegisteredKey(cfg.keyMode, m.counter) !in m.jobMap
    ensures Got(cfg, n, base, t, longer, z)
    ensures z.counter == CounterAfterMake(cfg.keyMode, m.counter)
    ensures |z.draws| == |m.draws| + DrawsPerMake(cfg.keyMode)
    ensures z.jobMap == InsertIfAbsent(m.jobMap, RegisteredKey(cfg.keyMode, m.counter), |m.batches|)
    ensures z.batches == m.batches + [Fresh(t, session, m.counter)]
    ensures z.threads == m.threads[t := Filling(|m.batches|)] && z.lock.None?
    ensures SameTraffic(m, z)
  {
    var b, k := |m.batches|, RegisteredKey(cfg.keyMode, m.counter);
    longer, z := SoloEnter(cfg, n, base, t, moves, m, session);
    longer, z := SoloPickKey(cfg, n, base, t, longer, z, b, k);
    longer, z := SoloRegister(cfg, n, base, t, longer, z, b, k);
    SetTwice(m.threads, t, RegLocked(b), RegKeyed(b, k));
    SetTwice(m.threads, t, RegKeyed(b, k), Filling(b));
  }

  /** The key under which the next batch would be registered is free, as long as there are draws left. */
  lemma NextKeyIsFree(cfg: Config, s: State)
    requires CoreInv(cfg, s) && |s.draws| + DrawsPerMake(cfg.keyMode) <= KEY_SPACE
    ensures RegisteredKey(cfg.keyMode, s.counter) !in s.jobMap
    ensures cfg.keyMode.SecondKey? ==> s.counter !in s.jobMap && s.counter != Bump(s.counter)
  {
    TicketRoundTrip(|s.draws|);
    if cfg.keyMode.SecondKey? {
      TicketRoundTrip(|s.draws| + 1);
    }
    forall k | k in s.jobMap ensures TicketOf(k) < |s.draws| {
      assert MapKey(cfg, s, k, s.jobMap[k]) && CtorKey(s, s.jobMap[k]);
    }
  }

  // ---------------------------------------------------------------- executing it

  /** Only a constructor that stores its buffer makes jobs that have one. */
  predicate CanBeAdded(cfg: Config, jobs: seq<Job>) {
    forall i | 0 <= i < |jobs| :: jobs[i].hasBuffer ==> cfg.wired
  }

  function AddMoves(t: nat, jobs: seq<Job>): seq<Move> {
    seq(|jobs|, i requires 0 <= i < |jobs| => Move(t, Action.AddJob(jobs[i])))
  }

  lemma AddMovesNext(t: nat, jobs: seq<Job>)
    requires jobs != []
    ensures AddMoves(t, jobs) == AddMoves(t, jobs[..|jobs| - 1]) + [Move(t, Action.AddJob(jobs[|jobs| - 1]))]
  {
  }

  /** `z` is `m` with these jobs in the list of batch `b`. */
  ghost predicate Filled(m: State, z: State, b: nat, jobs: seq<Job>) {
    && b < |m.batches| && z.batches == m.batches[b := m.batches[b].(jobs := jobs)]
    && z.threads == m.threads && z.lock == m.lock && SameKeys(m, z) && SameTraffic(m, z)
  }

  lemma FilledNext(cfg: Config, m: State, c: State, t: nat, b: nat, jobs: seq<Job>)
    requires jobs != [] && |jobs| <= 16 && Typed(c) && Filled(m, c, b, jobs[..|jobs| - 1])
    requires t < |c.threads| && c.threads[t] == Filling(b) && CanBeAdded(cfg, jobs)
    ensures var a := Action.AddJob(jobs[|jobs| - 1]);
      Enabled(cfg, c, t, a) && Filled(m, Step(cfg, c, t, a), b, jobs)
  {
    var k := |jobs| - 1;
    AddJobState(cfg, c, t, b, jobs[k]);
    assert jobs[..k] + [jobs[k]] == jobs;
    SetTwice(m.batches, b, m.batches[b].(jobs := jobs[..k]), m.batches[b].(jobs := jobs));
  }

  /** Adding up to sixteen jobs one after the other leaves exactly these in the list, in order. */
  lemma {:induction false} SoloAddJobs(
    cfg: Config, n: nat, base: seq<Move>, t: nat, moves: seq<Move>, m: State, b: nat, jobs: seq<Job>)
    returns (longer: seq<Move>, z: State)
    requires Got(cfg, n, base, t, moves, m) && m.threads[t] == Filling(b)
    requires m.batches[b].jobs == [] && |jobs| <= 16 && CanBeAdded(cfg, jobs)
    ensures Got(cfg, n, base, t, longer, z) && longer == moves + AddMoves(t, jobs)
    ensures Filled(m, z, b, jobs)
    decreases |jobs|
  {
    if jobs == [] {
      longer, z := moves, m;
      assert AddMoves(t, jobs) == [] && m.batches[b].(jobs := jobs) == m.batches[b];
    } else {
      var k := |jobs| - 1;
      longer, z := SoloAddJobs(cfg, n, base, t, moves, m, b, jobs[..k]);
      FilledNext(cfg, m, z, t, b, jobs);
      longer, z := Then(cfg, n, base, t, longer, z, Action.AddJob(jobs[k]));
      AddMovesNext(t, jobs);
    }
  }

  /** `z` is `m` after thread `t` has entered ExecuteBatchJob and sent the start frame. */
  ghost predicate Started(cfg: Config, m: State, z: State, t: nat, b: nat) {
    && t < |m.threads| && b < |m.batches|
    && z.batches == m.batches[b := m.batches[b].(exec := Running(0))]
    && z.trace == m.trace + StartFrames(cfg, b, m.batches[b].session, |m.batches[b].jobs|)
    && z.threads == m.threads[t := Executing(b, 0)] && z.lock == m.lock
    && SameKeys(m, z) && z.replies == m.replies && z.hooks == m.hooks
  }

  /** `z` is `m` after the first `k` iterations of its loop. */
  ghost predicate Sent(m: State, z: State, t: nat, b: nat, k: nat) {
    && t < |m.threads| && b < |m.batches| && k <= |m.batches[b].jobs|
    && z.batches == m.batches[b := m.batches[b].(exec := Running(k))]
    && z.trace == m.trace + Sends(b, m.batches[b].key, m.batches[b].jobs, k)
    && z.threads == m.threads[t := Executing(b, k)] && z.lock == m.lock
    && SameKeys(m, z) && z.replies == m.replies && z.hooks == m.hooks
  }

  /** `z` is `m` after the whole execution, with the reference dropped. */
  ghost predicate Executed(cfg: Config, m: State, z: State, t: nat, b: nat) {
    && t < |m.threads| && b < |m.batches|
    && z.batches == m.batches[b := m.batches[b].(strong := 1, exec := Finished)]
    && z.trace == m.trace + Execution(cfg, b, m.batches[b], |m.batches[b].jobs|)
    && z.threads == m.threads[t := Idle] && z.lock == m.lock
    && SameKeys(m, z) && z.replies == m.replies && z.hooks == m.hooks
  }

  lemma SoloStart(cfg: Config, n: nat, base: seq<Move>, t: nat, moves: seq<Move>, m: State, b: nat)
    returns (longer: seq<Move>, z: State)
    requires Got(cfg, n, base, t, moves, m) && m.threads[t] == Filling(b)
    ensures Got(cfg, n, base, t, longer, z) && Started(cfg, m, z, t, b)
  {
    longer, z := Then(cfg, n, base, t, moves, m, Start);
  }

  lemma SentNext(cfg: Config, m: State, c: State, t: nat, b: nat, k: nat)
    requires Typed(c) && Sent(m, c, t, b, k) && k < |m.batches[b].jobs|
    ensures Enabled(cfg, c, t, SendJob) && Sent(m, Step(cfg, c, t, SendJob), t, b, k + 1)
  {
    SetTwice(m.threads, t, Executing(b, k), Executing(b, k + 1));
    SetTwice(m.batches, b, m.batches[b].(exec := Running(k)), m.batches[b].(exec := Running(k + 1)));
  }

  lemma {:induction false} SoloSends(
    cfg: Config, n: nat, base: seq<Move>, t: nat, moves: seq<Move>, m: State, b: nat, k: nat)
    returns (longer: seq<Move>, z: State)
    requires Got(cfg, n, base, t, moves, m) && m.threads[t] == Executing(b, 0)
    requires k <= |m.batches[b].jobs| && m.batches[b].exec == Running(0)
    ensures Got(cfg, n, base, t, longer, z) && Sent(m, z, t, b, k)
    decreases k
  {
    if k == 0 {
      longer, z := moves, m;
      assert m.batches[b].(exec := Running(0)) == m.batches[b];
    } else {
      longer, z := SoloSends(cfg, n, base, t, moves, m, b, k - 1);
      SentNext(cfg, m, z, t, b, k - 1);
      longer, z := Then(cfg, n, base, t, longer, z, SendJob);
    }
  }

  /** Leaving the handler after the last job, with the map still holding the batch. */
  lemma SoloLeave(cfg: Config, n: nat, base: seq<Move>, t: nat, moves: seq<Move>, m: State, b: nat, i: nat)
    returns (longer: seq<Move>, z: State)
    requires Got(cfg, n, base, t, moves, m) && m.threads[t] == Executing(b, i)
    requires i == |m.batches[b].jobs| && m.batches[b].strong == 2
    ensures Got(cfg, n, base, t, longer, z)
    ensures z.batches == m.batches[b := m.batches[b].(strong := 1, exec := Finished)]
    ensures z.threads == m.threads[t := Idle] && z.lock == m.lock
    ensures SameKeys(m, z) && SameTraffic(m, z)
  {
    longer, z := Then(cfg, n, base, t, moves, m, FinishExecute);
    longer, z := Then(cfg, n, base, t, longer, z, DropRef);
    assert z.threads == m.threads[t := Idle];
    assert z.batches == m.batches[b := m.batches[b].(strong := 1, exec := Finished)];
  }

  lemma StartSendLeave(cfg: Config, m: State, u: State, v: State, z: State, t: nat, b: nat, k: nat)
    requires Started(cfg, m, u, t, b) && k == |m.batches[b].jobs| && Sent(u, v, t, b, k)
    requires z.batches == v.batches[b := v.batches[b].(strong := 1, exec := Finished)]
    requires z.threads == v.threads[t := Idle] && z.lock == v.lock && SameKeys(v, z) && SameTraffic(v, z)
    ensures Executed(cfg, m, z, t, b)
  {
    var p := m.batches[b];
    SetTwice(m.threads, t, Executing(b, 0), Executing(b, k));
    SetTwice(m.batches, b, p.(exec := Running(0)), p.(exec := Running(k)));
    SetTwice(m.threads, t, Executing(b, k), Idle);
    SetTwice(m.batches, b, p.(exec := Running(k)), p.(strong := 1, exec := Finished));
  }

  /** Executing a filled batch and dropping the reference. */
  lemma SoloExecute(cfg: Config, n: nat, base: seq<Move>, t: nat, moves: seq<Move>, m: State, b: nat)
    returns (longer: seq<Move>, z: State)
    requires Got(cfg, n, base, t, moves, m) && m.threads[t] == Filling(b) && m.batches[b].strong == 2
    ensures Got(cfg, n, base, t, longer, z) && Executed(cfg, m, z, t, b)
  {
    var k, u, v := |m.batches[b].jobs|, m, m;
    longer, u := SoloStart(cfg, n, base, t, moves, m, b);
    longer, v := SoloSends(cfg, n, base, t, longer, u, b, k);
    longer, z := SoloLeave(cfg, n, base, t, longer, v, b, k);
    StartSendLeave(cfg, m, u, v, z, t, b, k);
  }

  // ---------------------------------------------------------------- serving the reply

  lemma SoloReceive(cfg: Config, n: nat, base: seq<Move>, t: nat, moves: seq<Move>, m: State, key: Key, ok: bool)
    returns (longer: seq<Move>, z: State)
    requires Got(cfg, n, base, t, moves, m) && m.threads[t].Idle? && m.lock.None?
    requires cfg.honestDb ==> KeySent(m.trace, key)
    ensures Got(cfg, n, base, t, longer, z)
    ensures z.threads == m.threads[t := RepLocked(|m.replies|)] && z.lock == Some(t)
    ensures z.replies == m.replies + [Reply(t, key, ok, Waiting)]
    ensures z.batches == m.batches && SameKeys(m, z) && z.trace == m.trace && z.hooks == m.hooks
  {
    longer, z := Then(cfg, n, base, t, moves, m, Action.Receive(key, ok));
    longer, z := Then(cfg, n, base, t, longer, z, Lock);
    SetTwice(m.threads, t, RepWait(|m.replies|), RepLocked(|m.replies|));
  }

  /** `z` is `m` after the lookup for reply `r` has found batch `b` and the mutex is free again. */
  ghost predicate Found(m: State, z: State, t: nat, r: nat, b: nat) {
    && t < |m.threads| && r < |m.replies| && b < |m.batches|
    && z.threads == m.threads[t := Hooking(r, b, 0)] && z.lock.None?
    && z.batches == m.batches[b := m.batches[b].(strong := m.batches[b].strong + 1)]
    && z.replies == m.replies[r := m.replies[r].(status := Serving(b, 0))]
    && SameKeys(m, z) && z.trace == m.trace && z.hooks == m.hooks
  }

  lemma FoundState(cfg: Config, m: State, u: State, t: nat, r: nat, b: nat)
    requires Typed(m) && t < |m.threads| && m.threads[t] == RepLocked(r)
    requires m.replies[r].key in m.jobMap && m.jobMap[m.replies[r].key] == b && u == Step(cfg, m, t, Find)
    ensures Enabled(cfg, u, t, Unlock) && Found(m, Step(cfg, u, t, Unlock), t, r, b)
  {
    SetTwice(m.threads, t, RepFound(r, b), Hooking(r, b, 0));
  }

  lemma SoloFind(cfg: Config, n: nat, base: seq<Move>, t: nat, moves: seq<Move>, m: State, r: nat, b: nat)
    returns (longer: seq<Move>, z: State)
    requires Got(cfg, n, base, t, moves, m) && m.threads[t] == RepLocked(r)
    requires m.replies[r].key in m.jobMap && m.jobMap[m.replies[r].key] == b
    ensures Got(cfg, n, base, t, longer, z) && Found(m, z, t, r, b)
  {
    var found;
    longer, found := Then(cfg, n, base, t, moves, m, Find);
    FoundState(cfg, m, found, t, r, b);
    longer, z := Then(cfg, n, base, t, longer, found, Unlock);
  }

  /** `z` is `m` after the first `k` iterations of the hook loop of reply `r` over batch `b`. */
  ghost predicate Hooked(m: State, z: State, t: nat, r: nat, b: nat, k: nat) {
    && t < |m.threads| && b < |m.batches| && r < |m.replies| && k <= |m.batches[b].jobs|
    && z.threads == m.threads[t := Hooking(r, b, k)] && z.lock == m.lock && z.batches == m.batches
    && z.replies == m.replies[r := m.replies[r].(status := Serving(b, k))]
    && z.hooks == m.hooks + HookLoop(r, b, m.replies[r].ok, k)
    && SameKeys(m, z) && z.trace == m.trace
  }

  lemma HookedNext(cfg: Config, m: State, c: State, t: nat, r: nat, b: nat, k: nat)
    requires Typed(c) && Hooked(m, c, t, r, b, k) && k < |m.batches[b].jobs|
    ensures Enabled(cfg, c, t, CallHook) && Hooked(m, Step(cfg, c, t, CallHook), t, r, b, k + 1)
  {
    SetTwice(m.threads, t, Hooking(r, b, k), Hooking(r, b, k + 1));
    SetTwice(m.replies, r, m.replies[r].(status := Serving(b, k)), m.replies[r].(status := Serving(b, k + 1)));
  }

  lemma {:induction false} SoloHooks(
    cfg: Config, n: nat, base: seq<Move>, t: nat, moves: seq<Move>, m: State, r: nat, b: nat, k: nat)
    returns (longer: seq<Move>, z: State)
    requires Got(cfg, n, base, t, moves, m) && m.threads[t] == Hooking(r, b, 0)
    requires m.replies[r].status == Serving(b, 0) && k <= |m.batches[b].jobs|
    ensures Got(cfg, n, base, t, longer, z) && Hooked(m, z, t, r, b, k)
    decreases k
  {
    if k == 0 {
      longer, z := moves, m;
      assert m.replies[r].(status := Serving(b, 0)) == m.replies[r];
    } else {
      longer, z := SoloHooks(cfg, n, base, t, moves, m, r, b, k - 1);
      HookedNext(cfg, m, z, t, r, b, k - 1);
      longer, z := Then(cfg, n, base, t, longer, z, CallHook);
    }
  }

  /** `z` is `m` after the end of reply `r` and the dropping of its reference. */
  ghost predicate Ended(m: State, z: State, t: nat, r: nat, b: nat, k: nat) {
    && t < |m.threads| && r < |m.replies| && b < |m.batches|
    && z.threads == m.threads[t := Idle] && z.lock == m.lock
    && z.batches == m.batches[b := m.batches[b].(strong := m.batches[b].strong - 1)]
    && z.replies == m.replies[r := m.replies[r].(status := Served(b, k))]
    && SameKeys(m, z) && z.trace == m.trace && z.hooks == m.hooks
  }

  lemma EndedState(cfg: Config, m: State, u: State, t: nat, r: nat, b: nat, k: nat)
    requires Typed(m) && t < |m.threads| && m.threads[t] == Hooking(r, b, k) && k == |m.batches[b].jobs|
    requires m.batches[b].strong > 1 && u == Step(cfg, m, t, FinishReply)
    ensures Enabled(cfg, u, t, DropRef) && Ended(m, Step(cfg, u, t, DropRef), t, r, b, k)
  {
    SetTwice(m.threads, t, Dropping(b), Idle);
  }

  lemma SoloEnd(cfg: Config, n: nat, base: seq<Move>, t: nat, moves: seq<Move>, m: State, r: nat, b: nat, k: nat)
    returns (longer: seq<Move>, z: State)
    requires Got(cfg, n, base, t, moves, m) && m.threads[t] == Hooking(r, b, k)
    requires k == |m.batches[b].jobs| && m.batches[b].strong > 1
    ensures Got(cfg, n, base, t, longer, z) && Ended(m, z, t, r, b, k)
  {
    var finished;
    longer, finished := Then(cfg, n, base, t, moves, m, FinishReply);
    EndedState(cfg, m, finished, t, r, b, k);
    longer, z := Then(cfg, n, base, t, longer, finished, DropRef);
  }

  /** `z` is `m` after a reply whose key is in the map has been served to the end. */
  ghost predicate ServedReply(m: State, z: State, t: nat, key: Key, ok: bool)
    requires Typed(m)
  {
    && z.threads == m.threads && z.lock.None? && z.batches == m.batches && SameKeys(m, z) && z.trace == m.trace
    && key in m.jobMap
    && var b := m.jobMap[key];
      && z.hooks == m.hooks + HookLoop(|m.replies|, b, ok, |m.batches[b].jobs|)
      && z.replies == m.replies + [Reply(t, key, ok, Served(b, |m.batches[b].jobs|))]
  }

  lemma FindHookEnd(m: State, l: State, f: State, h: State, z: State, t: nat, key: Key, ok: bool)
    requires Typed(m) && t < |m.threads| && m.threads[t].Idle? && key in m.jobMap
    requires l.threads == m.threads[t := RepLocked(|m.replies|)] && l.batches == m.batches && SameKeys(m, l)
    requires l.replies == m.replies + [Reply(t, key, ok, Waiting)] && l.trace == m.trace && l.hooks == m.hooks
    requires var r, b := |m.replies|, m.jobMap[key]; var k := |m.batches[b].jobs|;
      Found(l, f, t, r, b) && Hooked(f, h, t, r, b, k) && Ended(h, z, t, r, b, k)
    ensures ServedReply(m, z, t, key, ok)
  {
    var r, b := |m.replies|, m.jobMap[key];
    var k := |m.batches[b].jobs|;
    assert z.threads == m.threads;
    SetTwice(m.batches, b, m.batches[b].(strong := m.batches[b].strong + 1), m.batches[b]);
    assert z.replies == m.replies + [Reply(t, key, ok, Served(b, k))];
  }

  /** Serving a reply whose key is in the map: every job of the batch found gets its hook, in list order. */
  lemma SoloServe(cfg: Config, n: nat, base: seq<Move>, t: nat, moves: seq<Move>, m: State, key: Key, ok: bool)
    returns (longer: seq<Move>, z: State)
    requires Got(cfg, n, base, t, moves, m) && m.threads[t].Idle? && m.lock.None?
    requires (cfg.honestDb ==> KeySent(m.trace, key)) && key in m.jobMap && m.batches[m.jobMap[key]].strong > 0
    ensures Got(cfg, n, base, t, longer, z) && ServedReply(m, z, t, key, ok)
  {
    var b, r, l, f, h := m.jobMap[key], |m.replies|, m, m, m;
    var k := |m.batches[b].jobs|;
    longer, l := SoloReceive(cfg, n, base, t, moves, m, key, ok);
    longer, f := SoloFind(cfg, n, base, t, longer, l, r, b);
    longer, h := SoloHooks(cfg, n, base, t, longer, f, r, b, k);
    longer, z := SoloEnd(cfg, n, base, t, longer, h, r, b, k);
    FindHookEnd(m, l, f, h, z, t, key, ok);
  }

  /** Serving a reply whose key is not in the map. */
  lemma SoloMiss(cfg: Config, n: nat, base: seq<Move>, t: nat, moves: seq<Move>, m: State, key: Key, ok: bool)
    returns (longer: seq<Move>, z: State)
    requires Got(cfg, n, base, t, moves, m) && m.threads[t].Idle? && m.lock.None?
    requires (cfg.honestDb ==> KeySent(m.trace, key)) && key !in m.jobMap
    ensures Got(cfg, n, base, t, longer, z)
    ensures z.threads == m.threads && z.lock.None? && z.batches == m.batches && SameKeys(m, z) && z.trace == m.trace
    ensures z.hooks == m.hooks && z.replies == m.replies + [Reply(t, key, ok, Missed)]
  {
    longer, z := SoloReceive(cfg, n, base, t, moves, m, key, ok);
    longer, z := Then(cfg, n, base, t, longer, z, Find);
    longer, z := Then(cfg, n, base, t, longer, z, Unlock);
    assert z.threads == m.threads;
  }

  /** From any reachable state, an idle thread that finds the mutex free can make a batch of up to sixteen
      jobs, execute it and have the database's answer served. The start frame and the ready jobs' frames are
      sent; with own keys the answer then calls every job's hook in order, as written the very same steps
      end in a missed reply and no hook. */
  lemma WholeRound(cfg: Config, n: nat, base: seq<Move>, s: State, t: nat, session: nat, jobs: seq<Job>, ok: bool)
    returns (longer: seq<Move>, z: State)
    requires Reaches(cfg, n, base, s) && |s.draws| + DrawsPerMake(cfg.keyMode) <= KEY_SPACE
    requires |jobs| <= 16 && CanBeAdded(cfg, jobs)
    requires cfg.honestDb ==> exists i :: 0 <= i < |jobs| && jobs[i].Ready()
    requires t < n && s.threads[t].Idle? && s.lock.None?
    ensures AloneFrom(base, longer, t) && Reaches(cfg, n, longer, z) && z.threads == s.threads
    ensures z.batches == s.batches + [Batch(t, session, s.counter, jobs, 1, false, Finished)]
    ensures z.trace == s.trace + StartFrames(cfg, |s.batches|, session, |jobs|)
                     + Sends(|s.batches|, s.counter, jobs, |jobs|)
    ensures cfg.keyMode.OwnKey? ==>
      && z.hooks == s.hooks + HookLoop(|s.replies|, |s.batches|, ok, |jobs|)
      && z.replies == s.replies + [Reply(t, s.counter, ok, Served(|s.batches|, |jobs|))]
    ensures cfg.keyMode.SecondKey? ==>
      z.hooks == s.hooks && z.replies == s.replies + [Reply(t, s.counter, ok, Missed)]
  {
    EveryRunKeepsInv(cfg, n, base, s);
    NextKeyIsFree(cfg, s);
    longer, z := ExecutedRound(cfg, n, base, s, t, session, jobs);
    if cfg.honestDb {
      ReadyKeyIsSent(|s.batches|, s.counter, jobs, z.trace, |s.trace + StartFrames(cfg, |s.batches|, session, |jobs|)|);
    }
    if cfg.keyMode.OwnKey? {
      longer, z := SoloServe(cfg, n, base, t, longer, z, s.counter, ok);
    } else {
      longer, z := SoloMiss(cfg, n, base, t, longer, z, s.counter, ok);
    }
  }

  lemma ExecutedRound(cfg: Config, n: nat, base: seq<Move>, s: State, t: nat, session: nat, jobs: seq<Job>)
    returns (longer: seq<Move>, z: State)
    requires Got(cfg, n, base, t, base, s) && s.threads[t].Idle? && s.lock.None?
    requires RegisteredKey(cfg.keyMode, s.counter) !in s.jobMap && |jobs| <= 16 && CanBeAdded(cfg, jobs)
    ensures Got(cfg, n, base, t, longer, z) && z.threads == s.threads && z.lock.None?
    ensures |z.draws| == |s.draws| + DrawsPerMake(cfg.keyMode)
    ensures z.jobMap == s.jobMap[RegisteredKey(cfg.keyMode, s.counter) := |s.batches|]
    ensures z.batches == s.batches + [Batch(t, session, s.counter, jobs, 1, false, Finished)]
    ensures z.trace == s.trace + StartFrames(cfg, |s.batches|, session, |jobs|)
                     + Sends(|s.batches|, s.counter, jobs, |jobs|)
    ensures z.replies == s.replies && z.hooks == s.hooks
  {
    var b := |s.batches|;
    longer, z := SoloMake(cfg, n, base, t, base, s, session);
    longer, z := SoloAddJobs(cfg, n, base, t, longer, z, b, jobs);
    assert z.batches == s.batches + [Fresh(t, session, s.counter).(jobs := jobs)];
    longer, z := SoloExecute(cfg, n, base, t, longer, z, b);
    assert z.threads == s.threads;
    assert z.batches == s.batches + [Batch(t, session, s.counter, jobs, 1, false, Finished)];
  }

  lemma ReadyKeyIsSent(b: nat, key: Key, jobs: seq<Job>, trace: seq<Frame>, before: nat)
    requires before <= |trace| && trace[before..] == Sends(b, key, jobs, |jobs|)
    requires exists i :: 0 <= i < |jobs| && jobs[i].Ready()
    ensures KeySent(trace, key)
  {
    var i :| 0 <= i < |jobs| && jobs[i].Ready();
    SendsOnePerReadyJob(b, key, jobs, |jobs|);
    assert JobFrame(b, i, key) in trace[before..];
    var k :| before <= k < |trace| && trace[k] == JobFrame(b, i, key);
  }
}
