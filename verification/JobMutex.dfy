/** The mutex in runs of any length, and where its discipline ends. */
module JobMutex {
  import opened Wrappers
  import opened Keys
  import opened JobProtocol
  import opened JobInvariants
  import opened JobTheorems
  import opened JobRounds
  import opened JobBounds

  ghost predicate MutexOk(s: State) {
    forall t | 0 <= t < |s.threads| :: HoldsLock(s.threads[t]) <==> s.lock == Some(t)
  }

  /** A step moves one thread, and only locking and unlocking change who holds the mutex. */
  lemma LockFollowsThread(cfg: Config, s: State, t: nat, a: Action)
    requires Typed(s) && t < |s.threads| && Enabled(cfg, s, t, a)
    ensures var n := Step(cfg, s, t, a);
      if a.Lock? then n.lock == Some(t) && HoldsLock(n.threads[t])
      else if a.Unlock? then n.lock == None && HoldsLock(s.threads[t]) && !HoldsLock(n.threads[t])
      else n.lock == s.lock && (HoldsLock(n.threads[t]) <==> HoldsLock(s.threads[t]))
  {
    if a.Lock? {
      assert HoldsLock(DoLock(s, t).threads[t]);
    } else if a.Unlock? {
      assert !HoldsLock(DoUnlock(s, t).threads[t]);
    } else {
      OthersKeepLock(cfg, s, t, a);
    }
  }

  lemma OthersKeepLock(cfg: Config, s: State, t: nat, a: Action)
    requires Typed(s) && t < |s.threads| && Enabled(cfg, s, t, a) && !a.Lock? && !a.Unlock?
    ensures Step(cfg, s, t, a).lock == s.lock
    ensures HoldsLock(Step(cfg, s, t, a).threads[t]) <==> HoldsLock(s.threads[t])
  {
  }

  lemma OthersStay(cfg: Config, s: State, t: nat, a: Action)
    requires Typed(s) && t < |s.threads| && Enabled(cfg, s, t, a)
    ensures forall u | 0 <= u < |s.threads| && u != t :: Step(cfg, s, t, a).threads[u] == s.threads[u]
  {
  }

  lemma MutexKept(cfg: Config, s: State, t: nat, a: Action)
    requires Typed(s) && MutexOk(s) && t < |s.threads| && Enabled(cfg, s, t, a)
    ensures MutexOk(Step(cfg, s, t, a))
  {
    LockFollowsThread(cfg, s, t, a);
    OthersStay(cfg, s, t, a);
  }

  lemma {:induction false} EveryRunKeepsMutex(cfg: Config, n: nat, schedule: seq<Move>, s: State)
    requires Run(cfg, n, schedule) == Some(s)
    ensures MutexOk(s)
    decreases |schedule|
  {
    if schedule != [] {
      var Move(t, a) := schedule[|schedule| - 1];
      var before := Run(cfg, n, schedule[..|schedule| - 1]).value;
      EveryRunKeepsMutex(cfg, n, schedule[..|schedule| - 1], before);
      MutexKept(cfg, before, t, a);
    }
  }

  /** In runs of any length: at most one thread is inside, and a thread asks for the mutex it holds exactly
      when its own erase has just destroyed another batch. */
  lemma SelfLockExactly(cfg: Config, n: nat, schedule: seq<Move>, s: State, t: nat, u: nat)
    requires Run(cfg, n, schedule) == Some(s) && t < n && u < n
    ensures HoldsLock(s.threads[t]) && HoldsLock(s.threads[u]) ==> t == u
    ensures WantsLock(s.threads[t]) && s.lock == Some(t) <==> s.threads[t].Reentered?
  {
    EveryRunKeepsMutex(cfg, n, schedule, s);
  }

  /** Such a thread is stuck in every continuation, and with it every thread that waits for the mutex. */
  lemma {:induction false} SelfLockIsForever(
    cfg: Config, n: nat, schedule: seq<Move>, s: State, t: nat, u: nat, more: seq<Move>, z: State)
    requires Run(cfg, n, schedule) == Some(s) && t < n && s.threads[t].Reentered?
    requires Run(cfg, n, schedule + more) == Some(z)
    requires u < n && WantsLock(s.threads[u])
    ensures z.lock == Some(t) && z.threads[t] == s.threads[t] && z.threads[u] == s.threads[u]
    decreases |more|
  {
    EveryRunKeepsMutex(cfg, n, schedule, s);
    if more == [] {
      assert schedule + more == schedule;
    } else {
      var m := |more| - 1;
      var before := LastMove(cfg, n, schedule, more, z);
      SelfLockIsForever(cfg, n, schedule, s, t, u, more[..m], before);
      EveryRunKeepsMutex(cfg, n, schedule + more[..m], before);
      StuckStep(cfg, before, t, u, more[m].thread, more[m].action);
    }
  }

  lemma StuckStep(cfg: Config, s: State, t: nat, u: nat, mover: nat, a: Action)
    requires Typed(s) && MutexOk(s) && t < |s.threads| && u < |s.threads|
    requires s.threads[t].Reentered? && WantsLock(s.threads[u])
    requires mover < |s.threads| && Enabled(cfg, s, mover, a)
    ensures mover != t && mover != u && Step(cfg, s, mover, a).lock == Some(t)
    ensures Step(cfg, s, mover, a).threads[t] == s.threads[t] && Step(cfg, s, mover, a).threads[u] == s.threads[u]
  {
    assert HoldsLock(s.threads[t]) && s.lock == Some(t);
    LockFollowsThread(cfg, s, mover, a);
    OthersStay(cfg, s, mover, a);
  }

  /** The destructor's erase takes the entry under the batch's own key out of the map, whoever it belongs
      to, and with it one reference; the last one destroys that batch under the mutex. */
  lemma EraseTakesTheEntry(s: State, t: nat)
    requires Typed(s) && t < |s.threads| && s.threads[t].DeregLocked?
    ensures var k := s.batches[s.threads[t].batch].key; var n := DoErase(s, t);
      && n.jobMap == s.jobMap - {k} && n.lock == s.lock
      && (k !in s.jobMap ==> n.batches == s.batches)
      && (k in s.jobMap ==>
        var c := s.jobMap[k];
        && n.batches[c].strong == s.batches[c].strong - 1
        && (n.threads[t].Reentered? <==> s.batches[c].strong == 1)
        && forall b | 0 <= b < |s.batches| && b != c :: n.batches[b] == s.batches[b])
  {
  }

  /** OwnKey, one draw past the bound: `LockDiscipline` fails. The batch made next meets its key taken, so that
      its destructor's erase hits the first batch's entry and, with it, that batch's last reference: its
      destructor then runs under the mutex and asks for it. */
  lemma LockBoundIsExact(cfg: Config, n: nat) returns (schedule: seq<Move>, s: State)
    requires cfg.keyMode.OwnKey? && n > 0
    ensures Run(cfg, n, schedule) == Some(s) && |s.draws| == KEY_SPACE + 1
    ensures WantsLock(s.threads[0]) && s.lock == Some(0) && s.threads[0].Reentered?
  {
    var b: nat;
    schedule, s, b := TakenKeyDies(cfg, n);
    schedule, s := Then(cfg, n, schedule, 0, schedule, s, Lock);
    schedule, s := Then(cfg, n, schedule, 0, schedule, s, Erase);
  }

  /** A batch under a taken key dies at the end of the handler that made it. */
  lemma TakenKeyDies(cfg: Config, n: nat) returns (schedule: seq<Move>, s: State, b: nat)
    requires cfg.keyMode.OwnKey? && n > 0
    ensures Run(cfg, n, schedule) == Some(s) && |s.draws| == KEY_SPACE + 1
    ensures 0 < b < |s.batches| && s.threads[0] == Destruct(b) && s.lock == None && s.batches[b].key == FIRST_KEY
    ensures FIRST_KEY in s.jobMap && s.jobMap[FIRST_KEY] == 0 && s.batches[0].strong == 1
  {
    schedule, s, b := TakenKeyIsFilled(cfg, n);
    schedule, s := Then(cfg, n, schedule, 0, schedule, s, Start);
    schedule, s := Then(cfg, n, schedule, 0, schedule, s, FinishExecute);
    schedule, s := Then(cfg, n, schedule, 0, schedule, s, DropRef);
  }

  lemma TakenKeyIsFilled(cfg: Config, n: nat) returns (schedule: seq<Move>, s: State, b: nat)
    requires cfg.keyMode.OwnKey? && n > 0
    ensures Run(cfg, n, schedule) == Some(s) && |s.draws| == KEY_SPACE + 1
    ensures 0 < b < |s.batches| && s.threads[0] == Filling(b) && s.lock == None
    ensures s.batches[b] == Fresh(0, 0, FIRST_KEY).(strong := 1)
    ensures FIRST_KEY in s.jobMap && s.jobMap[FIRST_KEY] == 0 && s.batches[0].strong == 1
  {
    schedule, s := EmptyRound(cfg, n, [], Init(n), 0);
    schedule, s := EmptyRounds(cfg, n, schedule, s, 0, KEY_SPACE - 1);
    CounterWraps(cfg, n, schedule, s);
    var base := schedule;
    b := |s.batches|;
    schedule, s := SoloEnter(cfg, n, base, 0, schedule, s, 0);
    schedule, s := SoloPickKey(cfg, n, base, 0, schedule, s, b, FIRST_KEY);
    schedule, s := SoloInsertTaken(cfg, n, base, 0, schedule, s, b, FIRST_KEY);
    schedule, s := SoloReturn(cfg, n, base, 0, schedule, s, b);
  }
}
