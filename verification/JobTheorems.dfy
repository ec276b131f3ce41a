/** What holds in every state any schedule can reach, in each mode. */
module JobTheorems {
  import opened Wrappers
  import opened Keys
  import opened JobProtocol
  import opened JobInvariants
  import opened JobTraces
  import opened JobReplies

  ghost predicate Inv(cfg: Config, s: State) {
    CoreInv(cfg, s) && TraceOk(cfg, s) && RepliesOk(cfg, s) && TallyOk(s)
  }

  /** `s` is reached from `n` idle threads by some schedule that draws at most 2^64 keys, which is when
      keys start to repeat. */
  ghost predicate Reaches(cfg: Config, n: nat, schedule: seq<Move>, s: State) {
    Run(cfg, n, schedule) == Some(s) && |s.draws| <= KEY_SPACE
  }

  lemma DrawsOnlyGrow(cfg: Config, s: State, t: nat, a: Action)
    requires Typed(s) && t < |s.threads| && Enabled(cfg, s, t, a)
    ensures |s.draws| <= |Step(cfg, s, t, a).draws|
  {
  }

  lemma LastOfRun(cfg: Config, n: nat, schedule: seq<Move>, z: State) returns (before: State)
    requires schedule != [] && Run(cfg, n, schedule) == Some(z)
    ensures Run(cfg, n, schedule[..|schedule| - 1]) == Some(before)
    ensures var Move(t, a) := schedule[|schedule| - 1];
      t < n == |before.threads| && Enabled(cfg, before, t, a) && z == Step(cfg, before, t, a)
  {
    before := Run(cfg, n, schedule[..|schedule| - 1]).value;
  }

  /** The last move of a run that goes on after `schedule`. */
  lemma LastMove(cfg: Config, n: nat, schedule: seq<Move>, more: seq<Move>, z: State) returns (before: State)
    requires more != [] && Run(cfg, n, schedule + more) == Some(z)
    ensures Run(cfg, n, schedule + more[..|more| - 1]) == Some(before)
    ensures var Move(t, a) := more[|more| - 1];
      t < n == |before.threads| && Enabled(cfg, before, t, a) && z == Step(cfg, before, t, a)
  {
    AppendEnds(schedule, more);
    before := LastOfRun(cfg, n, schedule + more, z);
  }

  lemma AppendEnds<T>(a: seq<T>, b: seq<T>)
    requires b != []
    ensures (a + b)[..|a + b| - 1] == a + b[..|b| - 1] && (a + b)[|a + b| - 1] == b[|b| - 1]
  {
  }

  lemma {:induction false} EveryRunKeepsInv(cfg: Config, n: nat, schedule: seq<Move>, s: State)
    requires Reaches(cfg, n, schedule, s)
    ensures Inv(cfg, s)
    decreases |schedule|
  {
    if schedule == [] {
      InitCore(cfg, n);
    } else {
      var Move(t, a) := schedule[|schedule| - 1];
      var before := Run(cfg, n, schedule[..|schedule| - 1]).value;
      DrawsOnlyGrow(cfg, before, t, a);
      EveryRunKeepsInv(cfg, n, schedule[..|schedule| - 1], before);
      StepKeepsCore(cfg, before, t, a);
      TraceKept(cfg, before, t, a);
      RepliesKept(cfg, before, t, a);
      TallyKept(cfg, before, t, a);
    }
  }

  // ---------------------------------------------------------------- keys, maps and lookups

  /** OwnKey: every entry maps a batch's own key to it, and every key the database has been sent leads
      back to the batch that sent it. */
  lemma Correlation(cfg: Config, n: nat, schedule: seq<Move>, s: State)
    requires Reaches(cfg, n, schedule, s) && cfg.keyMode.OwnKey?
    ensures forall k | k in s.jobMap :: s.jobMap[k] < |s.batches| && s.batches[s.jobMap[k]].key == k
    ensures forall i | 0 <= i < |s.trace| && s.trace[i].JobFrame? ::
      s.trace[i].key in s.jobMap && s.jobMap[s.trace[i].key] == s.trace[i].batch
  {
    EveryRunKeepsInv(cfg, n, schedule, s);
    forall k | k in s.jobMap ensures s.batches[s.jobMap[k]].key == k {
      assert MapKey(cfg, s, k, s.jobMap[k]);
    }
    forall i | 0 <= i < |s.trace| && s.trace[i].JobFrame?
      ensures s.trace[i].key in s.jobMap && s.jobMap[s.trace[i].key] == s.trace[i].batch
    {
      var key := s.trace[i].key;
      assert FrameOk(s, s.trace[i]);
      assert KeySent(s.trace, key);
      SentKeyIsRegistered(cfg, s, key);
      KeyDeterminesBatch(cfg, s, key, s.trace[i].batch);
    }
  }

  /** SecondKey, the code as written: no batch's own key is ever in the map, so looking a batch up by its
      key, or deregistering it, never finds anything. */
  lemma Disjointness(cfg: Config, n: nat, schedule: seq<Move>, s: State)
    requires Reaches(cfg, n, schedule, s) && cfg.keyMode.SecondKey?
    ensures forall b | 0 <= b < |s.batches| :: s.batches[b].key !in s.jobMap
  {
    EveryRunKeepsInv(cfg, n, schedule, s);
    forall b | 0 <= b < |s.batches| ensures s.batches[b].key !in s.jobMap {
      assert CtorKey(s, b);
    }
  }

  /** Both modes: all keys handed out so far differ, and none is the invalid key before ticket 2^64 - 2. */
  lemma BatchKeysDiffer(cfg: Config, n: nat, schedule: seq<Move>, s: State)
    requires Reaches(cfg, n, schedule, s)
    ensures forall b, c | 0 <= b < c < |s.batches| :: s.batches[b].key != s.batches[c].key
    ensures |s.draws| <= KEY_SPACE - 2 ==> forall b | 0 <= b < |s.batches| :: s.batches[b].key != INVALID_DB_JOB_KEY
  {
    EveryRunKeepsInv(cfg, n, schedule, s);
    forall b, c | 0 <= b < c < |s.batches| ensures s.batches[b].key != s.batches[c].key {
      assert CtorKey(s, b) && CtorKey(s, c);
    }
    InvalidKeyComesLate(s);
  }

  lemma InvalidKeyComesLate(s: State)
    requires forall b | 0 <= b < |s.batches| :: CtorKey(s, b)
    ensures |s.draws| <= KEY_SPACE - 2 ==> forall b | 0 <= b < |s.batches| :: s.batches[b].key != INVALID_DB_JOB_KEY
  {
    InvalidTicket();
    forall b | 0 <= b < |s.batches| && |s.draws| <= KEY_SPACE - 2 ensures s.batches[b].key != INVALID_DB_JOB_KEY {
      assert CtorKey(s, b);
    }
  }

  /** OwnKey, runs of any length: batch keys are pairwise distinct exactly as long as at most 2^64 batches
      were made. */
  lemma OwnKeysDifferExactly(cfg: Config, n: nat, schedule: seq<Move>, s: State)
    requires Run(cfg, n, schedule) == Some(s) && cfg.keyMode.OwnKey?
    ensures (forall b, c | 0 <= b < c < |s.batches| :: s.batches[b].key != s.batches[c].key)
      <==> |s.batches| <= KEY_SPACE
  {
    OwnKeysInOrder(cfg, n, schedule, s);
    if |s.batches| <= KEY_SPACE {
      forall b, c | 0 <= b < c < |s.batches| ensures s.batches[b].key != s.batches[c].key {
        EarlyTicketsDiffer(FIRST_KEY, b, c);
      }
    } else {
      KeysCollideExactly(FIRST_KEY, 0, KEY_SPACE);
      assert s.batches[0].key == s.batches[KEY_SPACE].key;
    }
  }

  lemma {:induction false} OwnKeysInOrder(cfg: Config, n: nat, schedule: seq<Move>, s: State)
    requires Run(cfg, n, schedule) == Some(s) && cfg.keyMode.OwnKey?
    ensures s.counter == KeyFrom(FIRST_KEY, |s.batches|)
    ensures forall b | 0 <= b < |s.batches| :: s.batches[b].key == KeyFrom(FIRST_KEY, b)
    decreases |schedule|
  {
    if schedule != [] {
      var Move(t, a) := schedule[|schedule| - 1];
      var before := Run(cfg, n, schedule[..|schedule| - 1]).value;
      OwnKeysInOrder(cfg, n, schedule[..|schedule| - 1], before);
      OnlyConstructDraws(cfg, before, t, a);
    }
  }

  lemma OnlyConstructDraws(cfg: Config, s: State, t: nat, a: Action)
    requires Typed(s) && t < |s.threads| && Enabled(cfg, s, t, a) && cfg.keyMode.OwnKey?
    ensures var n := Step(cfg, s, t, a);
      && (forall b | 0 <= b < |s.batches| :: n.batches[b].key == s.batches[b].key)
      && (if a.Construct? then
            && |n.batches| == |s.batches| + 1
            && n.batches[|s.batches|].key == s.counter && n.counter == Bump(s.counter)
          else
            |n.batches| == |s.batches| && n.counter == s.counter)
  {
  }

  // ---------------------------------------------------------------- ownership

  /** Each strong count is exactly the live local references plus the map entries; a registered batch is
      never destroyed; and the map has one entry per completed registration. */
  lemma OwnershipConservation(cfg: Config, n: nat, schedule: seq<Move>, s: State)
    requires Reaches(cfg, n, schedule, s)
    ensures forall b | 0 <= b < |s.batches| :: s.batches[b].strong == Refs(s.threads, b) + Entries(s.jobMap, b)
    ensures forall b | 0 <= b < |s.batches| && Registered(s, b) :: !s.batches[b].destroyed && s.batches[b].strong > 0
    ensures |s.jobMap| == s.registrations
  {
    EveryRunKeepsInv(cfg, n, schedule, s);
    forall b | 0 <= b < |s.batches|
      ensures s.batches[b].strong == Refs(s.threads, b) + Entries(s.jobMap, b)
      ensures Registered(s, b) ==> !s.batches[b].destroyed && s.batches[b].strong > 0
    {
      assert CountOk(s, b);
      if Registered(s, b) {
        var k :| k in s.jobMap && s.jobMap[k] == b;
        EntriesPositive(s.jobMap, k);
      }
    }
  }

  lemma {:induction false} IdleThreadsHoldNothing(threads: seq<Pc>, b: nat)
    requires forall t | 0 <= t < |threads| :: threads[t].Idle?
    ensures Refs(threads, b) == 0
  {
    if threads != [] {
      IdleThreadsHoldNothing(threads[..|threads| - 1], b);
    }
  }

  /** Once every thread is idle, a batch is gone exactly when its registration failed: every batch that
      was ever registered is still alive, held by the map. */
  lemma RegisteredBatchesLeak(cfg: Config, n: nat, schedule: seq<Move>, s: State, b: nat)
    requires Reaches(cfg, n, schedule, s) && b < |s.batches|
    requires forall t | 0 <= t < |s.threads| :: s.threads[t].Idle?
    ensures s.batches[b].destroyed <==> !Registered(s, b)
  {
    EveryRunKeepsInv(cfg, n, schedule, s);
    assert CountOk(s, b);
    IdleThreadsHoldNothing(s.threads, b);
    if Registered(s, b) {
      var k :| k in s.jobMap && s.jobMap[k] == b;
      EntriesPositive(s.jobMap, k);
    } else {
      assert KeysTo(s.jobMap, b) == {};
    }
  }

  /** DeregisterDBJob never removes an entry, in either mode. */
  lemma EraseRemovesNothing(cfg: Config, n: nat, schedule: seq<Move>, s: State, t: nat)
    requires Reaches(cfg, n, schedule, s) && t < |s.threads| && Enabled(cfg, s, t, Erase)
    ensures DoErase(s, t).jobMap == s.jobMap
  {
    EveryRunKeepsInv(cfg, n, schedule, s);
    EraseFindsNothing(cfg, s, s.threads[t].batch);
  }

  // ---------------------------------------------------------------- the mutex

  /** No thread ever asks for the mutex while it holds it, and at most one thread is inside. */
  lemma LockDiscipline(cfg: Config, n: nat, schedule: seq<Move>, s: State)
    requires Reaches(cfg, n, schedule, s)
    ensures forall t | 0 <= t < |s.threads| && WantsLock(s.threads[t]) :: s.lock != Some(t)
    ensures forall t, u |
      0 <= t < |s.threads| && 0 <= u < |s.threads| && HoldsLock(s.threads[t]) && HoldsLock(s.threads[u]) :: t == u
  {
    EveryRunKeepsInv(cfg, n, schedule, s);
  }

  ghost predicate CanMove(cfg: Config, s: State, t: nat)
    requires Typed(s) && t < |s.threads|
  {
    exists a :: Enabled(cfg, s, t, a)
  }

  /** No deadlock: a thread can move, or it waits for a mutex whose holder can. */
  lemma NoDeadlock(cfg: Config, n: nat, schedule: seq<Move>, s: State, t: nat)
    requires Reaches(cfg, n, schedule, s) && t < n
    ensures CanMove(cfg, s, t)
      || (&& WantsLock(s.threads[t])
          && s.lock.Some? && s.lock.value < n && s.lock.value != t && CanMove(cfg, s, s.lock.value))
  {
    EveryRunKeepsInv(cfg, n, schedule, s);
    if WantsLock(s.threads[t]) && s.lock.Some? {
      LockHolderExists(cfg, n, schedule, s);
      var u := s.lock.value;
      var _ := MoveOf(cfg, s, u);
    } else {
      var _ := MoveOf(cfg, s, t);
    }
  }

  lemma MoveOf(cfg: Config, s: State, t: nat) returns (a: Action)
    requires CoreInv(cfg, s) && t < |s.threads|
    requires WantsLock(s.threads[t]) ==> s.lock.None?
    ensures Enabled(cfg, s, t, a)
  {
    assert MakerOk(s, t, s.threads[t]);
    match s.threads[t]
    case Idle => a := Action.Construct(0);
    case Made(_) => a := CallRegister;
    case RegWait(_) => a := Lock;
    case RegLocked(_) => a := PickKey;
    case RegKeyed(_, _) => a := Insert;
    case RegInserted(_) => a := Unlock;
    case RegThrown(_) => a := Unlock;
    case RegReturn(_) => a := DropParam;
    case Unwind(_) => a := DropParam;
    case Filling(_) => a := Start;
    case Executing(b, i) => a := if i < |s.batches[b].jobs| then SendJob else FinishExecute;
    case Dropping(_) => a := DropRef;
    case Destruct(_) => a := Lock;
    case DeregLocked(_) => a := Erase;
    case DeregErased(_) => a := Unlock;
    case RepWait(_) => a := Lock;
    case RepLocked(_) => a := Find;
    case RepFound(_, _) => a := Unlock;
    case RepMissed(_) => a := Unlock;
    case Hooking(_, b, i) => a := if i < |s.batches[b].jobs| then CallHook else FinishReply;
    case Reentered(_, _) => a := Lock;
  }

  lemma LockChangesHands(cfg: Config, s: State, t: nat, a: Action)
    requires Typed(s) && t < |s.threads| && Enabled(cfg, s, t, a)
    ensures Step(cfg, s, t, a).lock == s.lock || Step(cfg, s, t, a).lock == Some(t) || Step(cfg, s, t, a).lock == None
  {
  }

  /** The mutex is only ever held by one of the threads. */
  lemma {:induction false} LockHolderExists(cfg: Config, n: nat, schedule: seq<Move>, s: State)
    requires Run(cfg, n, schedule) == Some(s)
    ensures s.lock.Some? ==> s.lock.value < n
    decreases |schedule|
  {
    if schedule != [] {
      var Move(t, a) := schedule[|schedule| - 1];
      var before := Run(cfg, n, schedule[..|schedule| - 1]).value;
      LockHolderExists(cfg, n, schedule[..|schedule| - 1], before);
      LockChangesHands(cfg, before, t, a);
    }
  }

  // ---------------------------------------------------------------- frames

  function ReadyCount(jobs: seq<Job>, n: nat): nat
    requires n <= |jobs|
  {
    if n == 0 then 0 else ReadyCount(jobs, n - 1) + if jobs[n - 1].Ready() then 1 else 0
  }

  lemma {:induction false} SendsOnePerReadyJob(b: nat, key: Key, jobs: seq<Job>, n: nat)
    requires n <= |jobs|
    ensures |Sends(b, key, jobs, n)| == ReadyCount(jobs, n) <= n
    ensures ReadyCount(jobs, n) == n <==> forall i | 0 <= i < n :: jobs[i].Ready()
    ensures forall i | 0 <= i < |Sends(b, key, jobs, n)| ::
      var f := Sends(b, key, jobs, n)[i];
      f.JobFrame? && f.batch == b && f.key == key && f.index < n && jobs[f.index].Ready()
    ensures forall i, j | 0 <= i < j < |Sends(b, key, jobs, n)| ::
      Sends(b, key, jobs, n)[i].index < Sends(b, key, jobs, n)[j].index
    ensures forall i | 0 <= i < n && jobs[i].Ready() :: JobFrame(b, i, key) in Sends(b, key, jobs, n)
  {
    if n > 0 {
      SendsOnePerReadyJob(b, key, jobs, n - 1);
      var before, last := Sends(b, key, jobs, n - 1), JobFrames(b, key, jobs, n - 1);
      assert Sends(b, key, jobs, n) == before + last;
    }
  }

  /** Whatever other executions are doing, a finished execution's own frames are one start frame that
      announces its `|jobs| <= 16` jobs and then, in list order, one frame with the batch's key per ready
      job; the start frame's count is met exactly when every job is ready. With null buffers, as written,
      there are no frames. Every frame belongs to an execution that has started. */
  lemma TraceShape(cfg: Config, n: nat, schedule: seq<Move>, s: State, b: nat)
    requires Reaches(cfg, n, schedule, s)
    requires b < |s.batches| && s.batches[b].exec == Finished
    ensures var batch := s.batches[b]; var frames := FramesOf(s.trace, b);
      && |batch.jobs| <= 16
      && (cfg.wired ==>
        && frames == [StartFrame(b, batch.session, |batch.jobs|)] + Sends(b, batch.key, batch.jobs, |batch.jobs|)
        && (|frames| == 1 + frames[0].size <==> forall i | 0 <= i < |batch.jobs| :: batch.jobs[i].Ready()))
      && (!cfg.wired ==> frames == [])
    ensures forall i | 0 <= i < |s.trace| ::
      s.trace[i].batch < |s.batches| && s.batches[s.trace[i].batch].exec != NotRun
  {
    EveryRunKeepsInv(cfg, n, schedule, s);
    assert FramesOk(cfg, s, b) && BatchOk(s, b);
    if cfg.wired {
      SendsOnePerReadyJob(b, s.batches[b].key, s.batches[b].jobs, |s.batches[b].jobs|);
    } else {
      UnwiredSendsNothing(cfg, n, schedule, s);
    }
    forall i | 0 <= i < |s.trace| ensures s.trace[i].batch < |s.batches| && s.batches[s.trace[i].batch].exec != NotRun {
      assert FrameOk(s, s.trace[i]);
    }
  }

  /** An execution that is still running has sent exactly a prefix of that. */
  lemma TracePrefix(cfg: Config, n: nat, schedule: seq<Move>, s: State, b: nat)
    requires Reaches(cfg, n, schedule, s) && b < |s.batches|
    ensures FramesOf(s.trace, b) <= Execution(cfg, b, s.batches[b], |s.batches[b].jobs|)
    ensures s.batches[b].exec == NotRun ==> FramesOf(s.trace, b) == []
  {
    EveryRunKeepsInv(cfg, n, schedule, s);
    assert FramesOk(cfg, s, b) && BatchOk(s, b);
    var batch := s.batches[b];
    if batch.exec.Running? {
      SendsGrow(b, batch.key, batch.jobs, batch.exec.attempted, |batch.jobs|);
    }
  }

  lemma {:induction false} SendsGrow(b: nat, key: Key, jobs: seq<Job>, m: nat, n: nat)
    requires m <= n <= |jobs|
    ensures Sends(b, key, jobs, m) <= Sends(b, key, jobs, n)
    decreases n
  {
    if m < n {
      SendsGrow(b, key, jobs, m, n - 1);
    }
  }

  predicate NoBuffers(jobs: seq<Job>) {
    forall i | 0 <= i < |jobs| :: !jobs[i].hasBuffer
  }

  /** What follows from jobs whose constructor fills a buffer but never stores it: no execution ever sends
      anything, in any schedule and in either key mode. */
  lemma {:induction false} UnwiredSendsNothing(cfg: Config, n: nat, schedule: seq<Move>, s: State)
    requires Run(cfg, n, schedule) == Some(s) && !cfg.wired
    ensures s.trace == []
    ensures forall b | 0 <= b < |s.batches| :: NoBuffers(s.batches[b].jobs)
    decreases |schedule|
  {
    if schedule != [] {
      var Move(t, a) := schedule[|schedule| - 1];
      var before := Run(cfg, n, schedule[..|schedule| - 1]).value;
      UnwiredSendsNothing(cfg, n, schedule[..|schedule| - 1], before);
      UnwiredStep(cfg, before, t, a);
    }
  }

  lemma UnwiredStep(cfg: Config, s: State, t: nat, a: Action)
    requires Typed(s) && t < |s.threads| && Enabled(cfg, s, t, a) && !cfg.wired && s.trace == []
    requires forall b | 0 <= b < |s.batches| :: NoBuffers(s.batches[b].jobs)
    ensures Step(cfg, s, t, a).trace == []
    ensures forall b | 0 <= b < |Step(cfg, s, t, a).batches| :: NoBuffers(Step(cfg, s, t, a).batches[b].jobs)
  {
    if ClientAction(a) {
      assert NoBuffers(s.batches[s.threads[t].batch].jobs);
    } else {
      OthersSendNothing(cfg, s, t, a);
    }
  }

  // ---------------------------------------------------------------- replies

  /** OwnKey, any database: what a reply finds is the batch with its key; it calls that batch's hooks, all
      of the reply's own kind, in list order and nothing else; a reply that waits or is missed calls none.
      With a database that answers only keys it was sent, none is missed, the batch found is the one that
      sent the key, and the reply is finished only after the last job. */
  lemma ReplyReachesItsSender(cfg: Config, n: nat, schedule: seq<Move>, s: State, r: nat)
    requires Reaches(cfg, n, schedule, s) && cfg.keyMode.OwnKey?
    requires r < |s.replies|
    ensures var reply := s.replies[r];
      if HasBatch(reply.status) then
        var b := reply.status.batch;
        && b < |s.batches| && s.batches[b].key == reply.key && reply.status.called <= |s.batches[b].jobs|
        && HooksOf(s.hooks, r) == HookLoop(r, b, reply.ok, reply.status.called)
        && (cfg.honestDb ==> s.batches[b].exec != NotRun)
        && (cfg.honestDb && reply.status.Served? ==> reply.status.called == |s.batches[b].jobs|)
      else
        HooksOf(s.hooks, r) == [] && (cfg.honestDb ==> reply.status.Waiting?)
  {
    EveryRunKeepsInv(cfg, n, schedule, s);
    assert ReplyOk(cfg, s, r);
    if HasBatch(s.replies[r].status) {
      OwnReplyKey(cfg, s, r);
      if cfg.honestDb {
        SentKeyInMap(cfg, s, s.replies[r].key);
      }
    }
  }

  /** OwnKey, any database: the number of times a job's commit (or rollback) hook has run is the number of
      finished replies of that kind for its batch's key, plus the unfinished ones already past it, less
      those that finished before the job was added. */
  lemma HookAccounting(cfg: Config, n: nat, schedule: seq<Move>, s: State, b: nat, index: nat, ok: bool)
    requires Reaches(cfg, n, schedule, s) && cfg.keyMode.OwnKey?
    requires b < |s.batches| && index < |s.batches[b].jobs|
    ensures HookCount(s.hooks, b, index, ok) + Tally(s.replies, Premature(b, index, ok))
         == Tally(s.replies, Completed(s.batches[b].key, ok)) + Tally(s.replies, Underway(b, index, ok))
  {
    EveryRunKeepsInv(cfg, n, schedule, s);
    var key := s.batches[b].key;
    forall r | 0 <= r < |s.replies| && s.replies[r].status.Served?
      ensures s.replies[r].key == key <==> s.replies[r].status.batch == b
    {
      OwnReplyKey(cfg, s, r);
      if s.replies[r].key == key {
        KeyDeterminesBatch(cfg, s, key, b);
      }
    }
    TallySplits(s.replies, b, key, index, ok);
  }

  /** A reply's batch has the reply's key. */
  lemma OwnReplyKey(cfg: Config, s: State, r: nat)
    requires CoreInv(cfg, s) && RepliesOk(cfg, s) && cfg.keyMode.OwnKey?
    requires r < |s.replies| && HasBatch(s.replies[r].status)
    ensures s.replies[r].key in s.jobMap && s.jobMap[s.replies[r].key] == s.replies[r].status.batch
    ensures s.batches[s.replies[r].status.batch].key == s.replies[r].key
  {
    assert ReplyOk(cfg, s, r);
    assert MapKey(cfg, s, s.replies[r].key, s.replies[r].status.batch);
  }

  lemma {:induction false} TallySplits(replies: seq<Reply>, b: nat, key: Key, index: nat, ok: bool)
    requires forall r | 0 <= r < |replies| && replies[r].status.Served? ::
      replies[r].key == key <==> replies[r].status.batch == b
    ensures Tally(replies, HooksPast(b, index, ok)) + Tally(replies, Premature(b, index, ok))
         == Tally(replies, Completed(key, ok)) + Tally(replies, Underway(b, index, ok))
  {
    if replies != [] {
      TallySplits(replies[..|replies| - 1], b, key, index, ok);
    }
  }

  /** With a database that answers only keys it was sent no reply is premature, so for a batch that no
      reply is still serving the count is exactly the finished replies'. */
  lemma HonestHookAccounting(cfg: Config, n: nat, schedule: seq<Move>, s: State, b: nat, index: nat, ok: bool)
    requires Reaches(cfg, n, schedule, s) && cfg.keyMode.OwnKey? && cfg.honestDb
    requires b < |s.batches| && index < |s.batches[b].jobs|
    ensures HookCount(s.hooks, b, index, ok)
         == Tally(s.replies, Completed(s.batches[b].key, ok)) + Tally(s.replies, Underway(b, index, ok))
  {
    HookAccounting(cfg, n, schedule, s, b, index, ok);
    EveryRunKeepsInv(cfg, n, schedule, s);
    forall r | 0 <= r < |s.replies| ensures !Matches(s.replies[r], Premature(b, index, ok)) {
      assert ReplyOk(cfg, s, r);
    }
    NothingMatches(s.replies, Premature(b, index, ok));
  }

  lemma {:induction false} NothingMatches(replies: seq<Reply>, q: Query)
    requires forall r | 0 <= r < |replies| :: !Matches(replies[r], q)
    ensures Tally(replies, q) == 0
  {
    if replies != [] {
      NothingMatches(replies[..|replies| - 1], q);
    }
  }

  /** OwnKey, any database that answers each key at most once: each job gets at most one hook call in all,
      so never both a commit and a rollback. */
  lemma CommitOrRollback(cfg: Config, n: nat, schedule: seq<Move>, s: State, b: nat, index: nat)
    requires Reaches(cfg, n, schedule, s) && cfg.keyMode.OwnKey?
    requires forall q, r | 0 <= q < r < |s.replies| :: s.replies[q].key != s.replies[r].key
    requires b < |s.batches|
    ensures HookCount(s.hooks, b, index, true) + HookCount(s.hooks, b, index, false) <= 1
  {
    EveryRunKeepsInv(cfg, n, schedule, s);
    var key := s.batches[b].key;
    forall r, ok | 0 <= r < |s.replies| && Matches(s.replies[r], HooksPast(b, index, ok))
      ensures s.replies[r].key == key
    {
      OwnReplyKey(cfg, s, r);
    }
    AtMostOneMatch(s.replies, b, key, index);
  }

  lemma {:induction false} AtMostOneMatch(replies: seq<Reply>, b: nat, key: Key, index: nat)
    requires forall q, r | 0 <= q < r < |replies| :: replies[q].key != replies[r].key
    requires forall r, ok | 0 <= r < |replies| && Matches(replies[r], HooksPast(b, index, ok)) :: replies[r].key == key
    ensures Tally(replies, HooksPast(b, index, true)) + Tally(replies, HooksPast(b, index, false)) <= 1
    ensures (forall r | 0 <= r < |replies| :: replies[r].key != key) ==>
      Tally(replies, HooksPast(b, index, true)) + Tally(replies, HooksPast(b, index, false)) == 0
  {
    if replies != [] {
      AtMostOneMatch(replies[..|replies| - 1], b, key, index);
    }
  }

  /** SecondKey, the code as written: whatever the database answers, a reply with a batch's own key never
      finds a batch and calls no hook. A database that answers only keys it was sent has no others, so
      then no hook is ever called. */
  lemma SecondKeyNeverCommits(cfg: Config, n: nat, schedule: seq<Move>, s: State)
    requires Reaches(cfg, n, schedule, s) && cfg.keyMode.SecondKey?
    ensures forall r, b | 0 <= r < |s.replies| && 0 <= b < |s.batches| && s.replies[r].key == s.batches[b].key ::
      !HasBatch(s.replies[r].status) && HooksOf(s.hooks, r) == []
    ensures cfg.honestDb ==> s.hooks == []
    ensures cfg.honestDb ==> forall r | 0 <= r < |s.replies| :: !HasBatch(s.replies[r].status)
  {
    EveryRunKeepsInv(cfg, n, schedule, s);
    OwnKeysGoUnanswered(cfg, s);
    if cfg.honestDb {
      NoHooksCalled(cfg, s);
    }
  }

  lemma OwnKeysGoUnanswered(cfg: Config, s: State)
    requires CoreInv(cfg, s) && RepliesOk(cfg, s) && cfg.keyMode.SecondKey?
    ensures forall r, b | 0 <= r < |s.replies| && 0 <= b < |s.batches| && s.replies[r].key == s.batches[b].key ::
      !HasBatch(s.replies[r].status) && HooksOf(s.hooks, r) == []
  {
    forall r, b | 0 <= r < |s.replies| && 0 <= b < |s.batches| && s.replies[r].key == s.batches[b].key
      ensures !HasBatch(s.replies[r].status) && HooksOf(s.hooks, r) == []
    {
      assert ReplyOk(cfg, s, r) && CtorKey(s, b);
    }
  }

  lemma NoHooksCalled(cfg: Config, s: State)
    requires Inv(cfg, s) && cfg.keyMode.SecondKey? && cfg.honestDb
    ensures s.hooks == []
    ensures forall r | 0 <= r < |s.replies| :: !HasBatch(s.replies[r].status)
  {
    forall r | 0 <= r < |s.replies| ensures HooksOf(s.hooks, r) == [] && !HasBatch(s.replies[r].status) {
      assert ReplyOk(cfg, s, r);
      if s.replies[r].key in s.jobMap {
        SentKeyInMap(cfg, s, s.replies[r].key);
      }
    }
    if s.hooks != [] {
      var last := s.hooks[|s.hooks| - 1];
      assert last in HooksOf(s.hooks, last.reply);
    }
  }
}
