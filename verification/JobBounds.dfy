/** Rounds without end, until the keys run out: which results about keys need the bound of 2^64 draws. */
module JobBounds {
  import opened Wrappers
  import opened Keys
  import opened JobProtocol
  import opened JobTheorems
  import opened JobRounds

  // ---------------------------------------------------------------- until the keys run out

  /** Between two states the counter moved on, entries and batches stayed, and no thread moved for good. */
  ghost predicate Later(s: State, z: State) {
    && z.threads == s.threads && z.lock == s.lock
    && (forall k | k in s.jobMap :: k in z.jobMap && z.jobMap[k] == s.jobMap[k])
    && s.batches <= z.batches
  }

  /** Making a batch, executing it without jobs and dropping it. */
  lemma EmptyRound(cfg: Config, n: nat, base: seq<Move>, s: State, t: nat) returns (longer: seq<Move>, z: State)
    requires Reaches(cfg, n, base, s) && |s.draws| + DrawsPerMake(cfg.keyMode) <= KEY_SPACE
    requires t < n && s.threads[t].Idle? && s.lock.None?
    ensures Reaches(cfg, n, longer, z) && Later(s, z) && |z.draws| == |s.draws| + DrawsPerMake(cfg.keyMode)
    ensures |z.batches| == |s.batches| + 1 && z.batches[|s.batches|].key == s.counter
    ensures z.batches[|s.batches|].strong == 1
    ensures var k := RegisteredKey(cfg.keyMode, s.counter); k in z.jobMap && z.jobMap[k] == |s.batches|
  {
    EveryRunKeepsInv(cfg, n, base, s);
    NextKeyIsFree(cfg, s);
    var b := |s.batches|;
    longer, z := SoloMake(cfg, n, base, t, base, s, 0);
    longer, z := Then(cfg, n, base, t, longer, z, Start);
    longer, z := SoloLeave(cfg, n, base, t, longer, z, b, 0);
    assert z.threads == s.threads;
  }

  function DrawsOfRounds(mode: KeyMode, rounds: nat): nat {
    if mode.OwnKey? then rounds else rounds + rounds
  }

  lemma {:induction false} EmptyRounds(cfg: Config, n: nat, base: seq<Move>, s: State, t: nat, rounds: nat)
    returns (longer: seq<Move>, z: State)
    requires Reaches(cfg, n, base, s) && |s.draws| + DrawsOfRounds(cfg.keyMode, rounds) <= KEY_SPACE
    requires t < n && s.threads[t].Idle? && s.lock.None?
    ensures Reaches(cfg, n, longer, z) && Later(s, z)
    ensures |z.draws| == |s.draws| + DrawsOfRounds(cfg.keyMode, rounds)
    decreases rounds
  {
    longer, z := base, s;
    if rounds > 0 {
      var m;
      longer, m := EmptyRound(cfg, n, base, s, t);
      longer, z := EmptyRounds(cfg, n, longer, m, t, rounds - 1);
      LaterStill(s, m, z);
    }
  }

  lemma LaterStill(s: State, m: State, z: State)
    requires Later(s, m) && Later(m, z)
    ensures Later(s, z)
  {
  }

  lemma CounterWraps(cfg: Config, n: nat, schedule: seq<Move>, s: State)
    requires Reaches(cfg, n, schedule, s) && |s.draws| == KEY_SPACE
    ensures s.counter == FIRST_KEY
  {
    EveryRunKeepsInv(cfg, n, schedule, s);
    KeysCollideExactly(FIRST_KEY, |s.draws|, 0);
  }

  /** OwnKey, one draw past the bound: `Correlation` fails. The batch made next has the first one's key,
      is not registered, and the key it sends leads the reply to the first batch. */
  lemma CorrelationBoundIsExact(cfg: Config, n: nat, job: Job) returns (schedule: seq<Move>, s: State, i: nat)
    requires cfg.keyMode.OwnKey? && cfg.wired && job.Ready() && n > 0
    ensures Run(cfg, n, schedule) == Some(s) && |s.draws| == KEY_SPACE + 1
    ensures i < |s.trace| && s.trace[i].JobFrame?
    ensures s.trace[i].key in s.jobMap && s.jobMap[s.trace[i].key] != s.trace[i].batch
  {
    schedule, s := EmptyRound(cfg, n, [], Init(n), 0);
    schedule, s := EmptyRounds(cfg, n, schedule, s, 0, KEY_SPACE - 1);
    CounterWraps(cfg, n, schedule, s);
    var base, b := schedule, |s.batches|;
    schedule, s := SoloEnter(cfg, n, base, 0, schedule, s, 0);
    schedule, s := SoloPickKey(cfg, n, base, 0, schedule, s, b, FIRST_KEY);
    schedule, s := SoloInsertTaken(cfg, n, base, 0, schedule, s, b, FIRST_KEY);
    schedule, s := SoloReturn(cfg, n, base, 0, schedule, s, b);
    schedule, s := SoloAddJobs(cfg, n, base, 0, schedule, s, b, [job]);
    schedule, s := SoloStart(cfg, n, base, 0, schedule, s, b);
    i := |s.trace|;
    schedule, s := Then(cfg, n, base, 0, schedule, s, SendJob);
  }

  /** SecondKey with two threads or more, one draw past the bound: `Disjointness` fails. A registry draw
      wraps onto the first batch's own key. */
  lemma DisjointnessBoundIsExact(cfg: Config, n: nat) returns (schedule: seq<Move>, s: State)
    requires cfg.keyMode.SecondKey? && n >= 2
    ensures Run(cfg, n, schedule) == Some(s) && |s.draws| == KEY_SPACE + 1
    ensures |s.batches| > 0 && s.batches[0].key in s.jobMap
  {
    schedule, s := ShiftedRounds(cfg, n);
    var base, b := schedule, |s.batches|;
    schedule, s := SoloEnter(cfg, n, base, 0, schedule, s, 0);
    CounterWraps(cfg, n, schedule, s);
    Disjointness(cfg, n, schedule, s);
    assert s.batches[0].key == FIRST_KEY && FIRST_KEY !in s.jobMap;
    schedule, s := SoloPickKey(cfg, n, base, 0, schedule, s, b, FIRST_KEY);
    schedule, s := SoloRegister(cfg, n, base, 0, schedule, s, b, FIRST_KEY);
  }

  /** A second thread's one draw shifts the first thread's pairs, so that its registry draws come at even
      tickets. */
  lemma ShiftedRounds(cfg: Config, n: nat) returns (schedule: seq<Move>, s: State)
    requires cfg.keyMode.SecondKey? && n >= 2
    ensures Reaches(cfg, n, schedule, s) && |s.draws| == KEY_SPACE - 1
    ensures s.threads[0].Idle? && s.lock.None? && |s.batches| > 0 && s.batches[0].key == FIRST_KEY
  {
    var m, rounds := Init(n), KEY_SPACE / 2 - 2;
    schedule, m := EmptyRound(cfg, n, [], m, 0);
    schedule, m := OneDraw(cfg, n, schedule, m, 1);
    assert DrawsOfRounds(cfg.keyMode, rounds) == KEY_SPACE - 4;
    schedule, s := EmptyRounds(cfg, n, schedule, m, 0, rounds);
  }

  lemma OneDraw(cfg: Config, n: nat, base: seq<Move>, m: State, t: nat) returns (longer: seq<Move>, z: State)
    requires Run(cfg, n, base) == Some(m) && t < n && m.threads[t].Idle?
    ensures Run(cfg, n, longer) == Some(z) && |z.draws| == |m.draws| + 1
    ensures z.threads == m.threads[t := Made(|m.batches|)] && z.lock == m.lock
    ensures |m.batches| <= |z.batches| && z.batches[..|m.batches|] == m.batches
  {
    longer, z := Then(cfg, n, base, t, base, m, Action.Construct(0));
  }

  predicate BetweenDraws(pc: Pc) {
    pc.Made? || pc.RegWait? || pc.RegLocked?
  }

  predicate Odd(key: Key) {
    key % 2 == 1
  }

  lemma BumpFlipsParity(key: Key)
    ensures Odd(Bump(key)) <==> !Odd(key)
  {
  }

  ghost predicate ParityOk(s: State)
    requires |s.threads| == 1
  {
    && (Odd(s.counter) <==> !BetweenDraws(s.threads[0]))
    && (s.threads[0].RegKeyed? ==> !Odd(s.threads[0].key))
    && (forall b | 0 <= b < |s.batches| :: Odd(s.batches[b].key))
    && (forall k | k in s.jobMap :: !Odd(k))
  }

  predicate TouchesKeys(a: Action) {
    a.Construct? || a.PickKey? || a.Insert? || a.Erase?
  }

  lemma OthersTouchNoKeys(cfg: Config, s: State, t: nat, a: Action)
    requires Typed(s) && t < |s.threads| && Enabled(cfg, s, t, a) && !TouchesKeys(a)
    ensures var n := Step(cfg, s, t, a);
      && n.counter == s.counter && n.jobMap == s.jobMap
      && |n.batches| == |s.batches| && (forall b | 0 <= b < |s.batches| :: n.batches[b].key == s.batches[b].key)
  {
  }

  lemma OthersStayBetweenDraws(cfg: Config, s: State, t: nat, a: Action)
    requires Typed(s) && t < |s.threads| && Enabled(cfg, s, t, a) && !TouchesKeys(a)
    ensures !Step(cfg, s, t, a).threads[t].RegKeyed?
    ensures BetweenDraws(Step(cfg, s, t, a).threads[t]) <==> BetweenDraws(s.threads[t])
  {
  }

  lemma ParityKept(cfg: Config, s: State, a: Action)
    requires Typed(s) && |s.threads| == 1 && ParityOk(s) && cfg.keyMode.SecondKey? && Enabled(cfg, s, 0, a)
    ensures ParityOk(Step(cfg, s, 0, a))
  {
    BumpFlipsParity(s.counter);
    if a.Construct? {
      assert ParityOk(DoConstruct(s, 0, a.session));
    } else if a.PickKey? {
      assert ParityOk(DoPickKey(cfg, s, 0));
    } else if a.Insert? {
      assert ParityOk(DoInsert(s, 0));
    } else if a.Erase? {
      assert ParityOk(DoErase(s, 0));
    } else {
      OthersTouchNoKeys(cfg, s, 0, a);
      OthersStayBetweenDraws(cfg, s, 0, a);
    }
  }

  lemma {:induction false} LoneThreadKeepsParity(cfg: Config, n: nat, schedule: seq<Move>, s: State)
    requires Run(cfg, n, schedule) == Some(s) && n == 1 && cfg.keyMode.SecondKey?
    ensures ParityOk(s)
    decreases |schedule|
  {
    if schedule == [] {
      assert !BetweenDraws(s.threads[0]);
    } else {
      var Move(t, a) := schedule[|schedule| - 1];
      var before := Run(cfg, n, schedule[..|schedule| - 1]).value;
      LoneThreadKeepsParity(cfg, n, schedule[..|schedule| - 1], before);
      assert t == 0;
      ParityKept(cfg, before, a);
    }
  }

  /** SecondKey with a single thread: its draws come in pairs, so that batches have odd and entries even
      keys, and `Disjointness` holds in runs of any length. */
  lemma LoneThreadStaysDisjoint(cfg: Config, schedule: seq<Move>, s: State)
    requires Run(cfg, 1, schedule) == Some(s) && cfg.keyMode.SecondKey?
    ensures forall b | 0 <= b < |s.batches| :: s.batches[b].key !in s.jobMap
  {
    LoneThreadKeepsParity(cfg, 1, schedule, s);
  }
}
