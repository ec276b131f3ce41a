/** What every step of the batch protocol keeps. */
module JobInvariants {
  import opened Wrappers
  import opened Keys
  import opened JobProtocol

  // ---------------------------------------------------------------- keys

  ghost predicate CtorKey(s: State, b: nat)
    requires b < |s.batches|
  {
    var ticket := TicketOf(s.batches[b].key);
    ticket < |s.draws| && s.draws[ticket] == CtorDraw(b)
  }

  /** `k` is the key under which `b` is, or is about to be, registered. */
  ghost predicate MapKey(cfg: Config, s: State, k: Key, b: nat)
    requires b < |s.batches|
  {
    if cfg.keyMode.OwnKey? then k == s.batches[b].key
    else TicketOf(k) < |s.draws| && s.draws[TicketOf(k)] == RegistryDraw(b)
  }

  ghost predicate KeysOk(cfg: Config, s: State)
    requires Typed(s)
  {
    && |s.draws| <= KEY_SPACE
    && s.counter == KeyOf(|s.draws|)
    && (forall b | 0 <= b < |s.batches| :: CtorKey(s, b))
    && (forall k | k in s.jobMap :: MapKey(cfg, s, k, s.jobMap[k]))
    && (forall t | 0 <= t < |s.threads| && s.threads[t].RegKeyed? ::
         MapKey(cfg, s, s.threads[t].key, s.threads[t].batch))
  }

  // ---------------------------------------------------------------- makers and registration

  predicate BeforeInsert(pc: Pc) {
    pc.Made? || pc.RegWait? || pc.RegLocked? || pc.RegKeyed? || pc.RegThrown? || pc.Unwind?
  }

  predicate AfterInsert(pc: Pc) {
    pc.RegInserted? || pc.RegReturn? || pc.Filling? || pc.Executing?
  }

  ghost predicate Registered(s: State, b: nat) {
    exists k :: k in s.jobMap && s.jobMap[k] == b
  }

  ghost predicate MakerOk(s: State, t: nat, pc: Pc)
    requires PcTyped(pc, |s.batches|, |s.replies|)
  {
    && (BeforeInsert(pc) ==>
      s.batches[pc.batch].maker == t && s.batches[pc.batch].exec.NotRun? && !Registered(s, pc.batch))
    && (AfterInsert(pc) ==>
      && s.batches[pc.batch].maker == t
      && Registered(s, pc.batch)
      && s.batches[pc.batch].exec == if pc.Executing? then Running(pc.attempted) else NotRun)
  }

  ghost predicate BatchOk(s: State, b: nat)
    requires b < |s.batches|
  {
    var batch := s.batches[b];
    && |batch.jobs| <= MAXIMUM_BATCHED_DB_JOB_SIZE
    && (batch.exec != NotRun ==> Registered(s, b))
    && (batch.exec.Running? ==> batch.exec.attempted <= |batch.jobs|)
  }

  ghost predicate MakersOk(s: State)
    requires Typed(s)
  {
    && (forall t | 0 <= t < |s.threads| :: MakerOk(s, t, s.threads[t]))
    && (forall b | 0 <= b < |s.batches| :: BatchOk(s, b))
  }

  // ---------------------------------------------------------------- ownership

  /** The caller's reference and the callee's by-value parameter. */
  predicate HoldsTwo(pc: Pc) {
    || pc.RegWait? || pc.RegLocked? || pc.RegKeyed? || pc.RegInserted? || pc.RegThrown?
    || pc.RegReturn? || pc.Unwind?
  }

  predicate HoldsOne(pc: Pc) {
    pc.Made? || pc.Filling? || pc.Executing? || pc.Dropping? || pc.RepFound? || pc.Hooking?
  }

  /** How many references to `b` a thread holds in its locals and parameters. */
  function Held(pc: Pc, b: nat): nat {
    if HoldsTwo(pc) && pc.batch == b then 2 else if HoldsOne(pc) && pc.batch == b then 1 else 0
  }

  function Refs(threads: seq<Pc>, b: nat): nat {
    if threads == [] then 0
    else Refs(threads[..|threads| - 1], b) + Held(threads[|threads| - 1], b)
  }

  ghost function KeysTo(m: map<Key, nat>, b: nat): set<Key> {
    set k | k in m && m[k] == b
  }

  /** How many entries of the map point to `b`. */
  ghost function Entries(m: map<Key, nat>, b: nat): nat {
    |KeysTo(m, b)|
  }

  lemma {:induction false} RefsUpdate(threads: seq<Pc>, t: nat, pc: Pc, b: nat)
    requires t < |threads|
    ensures Refs(threads[t := pc], b) == Refs(threads, b) - Held(threads[t], b) + Held(pc, b)
    ensures Held(threads[t], b) <= Refs(threads, b)
  {
    var n := |threads| - 1;
    if t == n {
      assert threads[t := pc][..n] == threads[..n];
    } else {
      assert threads[t := pc][..n] == threads[..n][t := pc];
      RefsUpdate(threads[..n], t, pc, b);
    }
  }

  lemma EntriesUpdate(m: map<Key, nat>, k: Key, b: nat, c: nat)
    requires k !in m
    ensures Entries(m[k := b], c) == Entries(m, c) + if b == c then 1 else 0
  {
    if b == c {
      assert KeysTo(m[k := b], c) == KeysTo(m, c) + {k};
    } else {
      assert KeysTo(m[k := b], c) == KeysTo(m, c);
    }
  }

  lemma EntriesPositive(m: map<Key, nat>, k: Key)
    requires k in m
    ensures Entries(m, m[k]) >= 1
  {
    assert k in KeysTo(m, m[k]);
  }

  predicate Destroying(pc: Pc) {
    pc.Destruct? || pc.DeregLocked? || pc.DeregErased?
  }

  ghost predicate CountOk(s: State, b: nat)
    requires b < |s.batches|
  {
    && s.batches[b].strong == Refs(s.threads, b) + Entries(s.jobMap, b)
    && (s.batches[b].destroyed <==> s.batches[b].strong == 0)
  }

  ghost predicate OwnersOk(s: State)
    requires Typed(s)
  {
    && (forall b | 0 <= b < |s.batches| :: CountOk(s, b))
    && (forall t | 0 <= t < |s.threads| && Destroying(s.threads[t]) :: s.batches[s.threads[t].batch].destroyed)
    && s.registrations == |s.jobMap|
  }

  // ---------------------------------------------------------------- the mutex

  predicate HoldsLock(pc: Pc) {
    || pc.RegLocked? || pc.RegKeyed? || pc.RegInserted? || pc.RegThrown?
    || pc.DeregLocked? || pc.DeregErased? || pc.Reentered?
    || pc.RepLocked? || pc.RepFound? || pc.RepMissed?
  }

  ghost predicate LockOk(s: State) {
    forall t | 0 <= t < |s.threads| ::
      (HoldsLock(s.threads[t]) <==> s.lock == Some(t)) && !s.threads[t].Reentered?
  }

  ghost predicate CoreInv(cfg: Config, s: State) {
    Typed(s) && KeysOk(cfg, s) && MakersOk(s) && OwnersOk(s) && LockOk(s)
  }

  // ---------------------------------------------------------------- what makes insert and erase simple

  /** A key in the map belongs to one batch only. */
  lemma KeyDeterminesBatch(cfg: Config, s: State, k: Key, b: nat)
    requires Typed(s) && KeysOk(cfg, s)
    requires k in s.jobMap && b < |s.batches| && MapKey(cfg, s, k, b)
    ensures s.jobMap[k] == b
  {
    assert MapKey(cfg, s, k, s.jobMap[k]);
    assert CtorKey(s, b) && CtorKey(s, s.jobMap[k]);
  }

  /** A key about to be inserted is not in the map yet. */
  lemma InsertIsFresh(cfg: Config, s: State, t: nat)
    requires Typed(s) && KeysOk(cfg, s) && MakersOk(s)
    requires t < |s.threads| && s.threads[t].RegKeyed?
    ensures s.threads[t].key !in s.jobMap
  {
    assert MakerOk(s, t, s.threads[t]);
    if s.threads[t].key in s.jobMap {
      KeyDeterminesBatch(cfg, s, s.threads[t].key, s.threads[t].batch);
    }
  }

  /** Deregistering the own key of a batch that has no references left erases nothing. */
  lemma EraseFindsNothing(cfg: Config, s: State, b: nat)
    requires Typed(s) && KeysOk(cfg, s) && OwnersOk(s)
    requires b < |s.batches| && s.batches[b].destroyed
    ensures s.batches[b].key !in s.jobMap
  {
    var k := s.batches[b].key;
    assert CtorKey(s, b) && CountOk(s, b);
    if cfg.keyMode.OwnKey? && k in s.jobMap {
      KeyDeterminesBatch(cfg, s, k, b);
      EntriesPositive(s.jobMap, k);
    }
  }

  // ---------------------------------------------------------------- steps that leave the map alone

  predicate IsClient(pc: Pc) {
    pc.Filling? || pc.Executing?
  }

  predicate SameOrigin(a: Batch, b: Batch) {
    a.maker == b.maker && a.session == b.session && a.key == b.key
  }

  predicate SameWork(a: Batch, b: Batch) {
    a.jobs == b.jobs && a.exec == b.exec
  }

  /** Thread `t` alone moved; nothing was registered, erased or constructed. */
  ghost predicate Moved(s: State, n: State, t: nat) {
    && t < |s.threads| == |n.threads|
    && n.threads == s.threads[t := n.threads[t]]
    && n.jobMap == s.jobMap && n.registrations == s.registrations
    && |n.batches| == |s.batches|
    && (forall b | 0 <= b < |s.batches| :: SameOrigin(s.batches[b], n.batches[b]))
    && s.draws <= n.draws
  }

  lemma MovedKeys(cfg: Config, s: State, n: State, t: nat)
    requires Typed(s) && Typed(n) && KeysOk(cfg, s) && Moved(s, n, t)
    requires n.counter == KeyOf(|n.draws|) && |n.draws| <= KEY_SPACE
    requires n.threads[t].RegKeyed? ==> MapKey(cfg, n, n.threads[t].key, n.threads[t].batch)
    ensures KeysOk(cfg, n)
  {
    forall b | 0 <= b < |n.batches| ensures CtorKey(n, b) {
      assert CtorKey(s, b) && SameOrigin(s.batches[b], n.batches[b]);
    }
    forall k | k in n.jobMap ensures MapKey(cfg, n, k, n.jobMap[k]) {
      assert SameOrigin(s.batches[n.jobMap[k]], n.batches[n.jobMap[k]]);
    }
    forall u | 0 <= u < |n.threads| && n.threads[u].RegKeyed?
      ensures MapKey(cfg, n, n.threads[u].key, n.threads[u].batch)
    {
      if u != t {
        var b := n.threads[u].batch;
        assert n.threads[u] == s.threads[u] && SameOrigin(s.batches[b], n.batches[b]);
      }
    }
  }

  lemma MovedMakers(s: State, n: State, t: nat)
    requires Typed(s) && Typed(n) && MakersOk(s) && Moved(s, n, t)
    requires MakerOk(n, t, n.threads[t])
    requires forall b | 0 <= b < |s.batches| ::
      SameWork(s.batches[b], n.batches[b]) || (IsClient(s.threads[t]) && s.threads[t].batch == b && BatchOk(n, b))
    ensures MakersOk(n)
  {
    assert MakerOk(s, t, s.threads[t]);
    forall b | 0 <= b < |n.batches| ensures BatchOk(n, b) {
      assert BatchOk(s, b);
      assert Registered(s, b) ==> Registered(n, b);
    }
    forall u | 0 <= u < |n.threads| ensures MakerOk(n, u, n.threads[u]) {
      if u != t {
        assert MakerOk(s, u, s.threads[u]);
        if BeforeInsert(n.threads[u]) || AfterInsert(n.threads[u]) {
          var b := n.threads[u].batch;
          assert SameOrigin(s.batches[b], n.batches[b]);
          assert Registered(s, b) <==> Registered(n, b);
        }
      }
    }
  }

  lemma MovedOwners(s: State, n: State, t: nat)
    requires Typed(s) && Typed(n) && OwnersOk(s) && Moved(s, n, t)
    requires forall b | 0 <= b < |s.batches| ::
      n.batches[b].strong == s.batches[b].strong - Held(s.threads[t], b) + Held(n.threads[t], b)
    requires forall b | 0 <= b < |s.batches| :: n.batches[b].destroyed <==> n.batches[b].strong == 0
    requires forall b | 0 <= b < |s.batches| :: s.batches[b].destroyed ==> n.batches[b].destroyed
    requires Destroying(n.threads[t]) ==> n.batches[n.threads[t].batch].destroyed
    ensures OwnersOk(n)
  {
    forall b | 0 <= b < |n.batches| ensures CountOk(n, b) {
      assert CountOk(s, b);
      RefsUpdate(s.threads, t, n.threads[t], b);
    }
  }

  /** Only a thread that takes or gives up the mutex changes it. */
  ghost predicate LockMove(s: State, n: State, t: nat)
    requires t < |s.threads| == |n.threads|
  {
    && !n.threads[t].Reentered?
    && n.lock == (if HoldsLock(n.threads[t]) then Some(t) else if HoldsLock(s.threads[t]) then None else s.lock)
    && (HoldsLock(n.threads[t]) && !HoldsLock(s.threads[t]) ==> s.lock.None?)
  }

  lemma MovedLock(s: State, n: State, t: nat)
    requires t < |s.threads| == |n.threads| && n.threads == s.threads[t := n.threads[t]]
    requires LockOk(s) && LockMove(s, n, t)
    ensures LockOk(n)
  {
  }

  /** All of the above in one go, for a step that moves one thread and settles its own obligations. */
  lemma MovedCore(cfg: Config, s: State, n: State, t: nat)
    requires CoreInv(cfg, s) && Typed(n) && Moved(s, n, t)
    requires n.counter == KeyOf(|n.draws|) && |n.draws| <= KEY_SPACE
    requires n.threads[t].RegKeyed? ==> MapKey(cfg, n, n.threads[t].key, n.threads[t].batch)
    requires MakerOk(n, t, n.threads[t])
    requires forall b | 0 <= b < |s.batches| ::
      SameWork(s.batches[b], n.batches[b]) || (IsClient(s.threads[t]) && s.threads[t].batch == b && BatchOk(n, b))
    requires forall b | 0 <= b < |s.batches| :: CountMove(s, n, t, b)
    requires Destroying(n.threads[t]) ==> n.batches[n.threads[t].batch].destroyed
    requires LockMove(s, n, t)
    ensures CoreInv(cfg, n)
  {
    MovedKeys(cfg, s, n, t);
    MovedMakers(s, n, t);
    forall b | 0 <= b < |s.batches|
      ensures n.batches[b].strong == s.batches[b].strong - Held(s.threads[t], b) + Held(n.threads[t], b)
      ensures n.batches[b].destroyed <==> n.batches[b].strong == 0
      ensures s.batches[b].destroyed ==> n.batches[b].destroyed
    {
      assert CountMove(s, n, t, b);
    }
    MovedOwners(s, n, t);
    MovedLock(s, n, t);
  }

  /** The count changes by what the thread's own locals gained or lost; reaching zero destroys. */
  ghost predicate CountMove(s: State, n: State, t: nat, b: nat)
    requires t < |s.threads| == |n.threads| && b < |s.batches| == |n.batches|
  {
    && n.batches[b].strong == s.batches[b].strong - Held(s.threads[t], b) + Held(n.threads[t], b)
    && (n.batches[b].destroyed <==> n.batches[b].strong == 0)
    && (s.batches[b].destroyed ==> n.batches[b].destroyed)
  }

  ghost predicate Quiet(s: State, n: State, t: nat) {
    && t < |s.threads| == |n.threads|
    && n.threads == s.threads[t := n.threads[t]]
    && n.jobMap == s.jobMap && n.registrations == s.registrations
    && s.draws <= n.draws
  }

  /** A step that touches no batch. */
  lemma MovedAlone(cfg: Config, s: State, n: State, t: nat)
    requires CoreInv(cfg, s) && Typed(n) && Quiet(s, n, t) && LockMove(s, n, t)
    requires n.counter == KeyOf(|n.draws|) && |n.draws| <= KEY_SPACE
    requires n.threads[t].RegKeyed? ==> MapKey(cfg, n, n.threads[t].key, n.threads[t].batch)
    requires MakerOk(n, t, n.threads[t])
    requires n.batches == s.batches
    requires forall b: nat :: Held(n.threads[t], b) == Held(s.threads[t], b)
    requires Destroying(n.threads[t]) ==> s.batches[n.threads[t].batch].destroyed
    ensures CoreInv(cfg, n)
  {
    forall b | 0 <= b < |s.batches| ensures CountMove(s, n, t, b) {
      assert CountOk(s, b);
    }
    MovedCore(cfg, s, n, t);
  }

  /** A step that touches the one batch `c`. */
  lemma MovedBatch(cfg: Config, s: State, n: State, t: nat, c: nat)
    requires CoreInv(cfg, s) && Typed(n) && Quiet(s, n, t) && LockMove(s, n, t)
    requires n.counter == s.counter && n.draws == s.draws && !n.threads[t].RegKeyed?
    requires MakerOk(n, t, n.threads[t])
    requires c < |s.batches| == |n.batches| && n.batches == s.batches[c := n.batches[c]]
    requires SameOrigin(s.batches[c], n.batches[c])
    requires SameWork(s.batches[c], n.batches[c])
      || (IsClient(s.threads[t]) && s.threads[t].batch == c && BatchOk(n, c))
    requires CountMove(s, n, t, c)
    requires forall b: nat | b != c :: Held(n.threads[t], b) == Held(s.threads[t], b)
    requires Destroying(n.threads[t]) ==> n.batches[n.threads[t].batch].destroyed
    ensures CoreInv(cfg, n)
  {
    forall b | 0 <= b < |s.batches| ensures CountMove(s, n, t, b) {
      assert CountOk(s, b);
    }
    MovedCore(cfg, s, n, t);
  }

  /** A thread's own references are part of the count. */
  lemma HeldIsCounted(s: State, t: nat, b: nat)
    requires Typed(s) && OwnersOk(s) && t < |s.threads| && b < |s.batches|
    ensures Held(s.threads[t], b) <= s.batches[b].strong
    ensures s.batches[b].destroyed <==> s.batches[b].strong == 0
  {
    assert CountOk(s, b);
    RefsUpdate(s.threads, t, s.threads[t], b);
  }

  // ---------------------------------------------------------------- each action

  lemma LockKeeps(cfg: Config, s: State, t: nat)
    requires CoreInv(cfg, s) && t < |s.threads| && Enabled(cfg, s, t, Lock)
    ensures CoreInv(cfg, DoLock(s, t))
  {
    assert MakerOk(s, t, s.threads[t]);
    MovedAlone(cfg, s, DoLock(s, t), t);
  }

  lemma UnlockKeeps(cfg: Config, s: State, t: nat)
    requires CoreInv(cfg, s) && t < |s.threads| && Enabled(cfg, s, t, Unlock)
    ensures CoreInv(cfg, DoUnlock(s, t))
  {
    assert MakerOk(s, t, s.threads[t]);
    MovedAlone(cfg, s, DoUnlock(s, t), t);
  }

  lemma CallRegisterKeeps(cfg: Config, s: State, t: nat)
    requires CoreInv(cfg, s) && t < |s.threads| && Enabled(cfg, s, t, CallRegister)
    ensures CoreInv(cfg, DoCallRegister(s, t))
  {
    assert MakerOk(s, t, s.threads[t]);
    HeldIsCounted(s, t, s.threads[t].batch);
    MovedBatch(cfg, s, DoCallRegister(s, t), t, s.threads[t].batch);
  }

  lemma PickKeyKeeps(cfg: Config, s: State, t: nat)
    requires CoreInv(cfg, s) && t < |s.threads| && Enabled(cfg, s, t, PickKey)
    requires |DoPickKey(cfg, s, t).draws| <= KEY_SPACE
    ensures CoreInv(cfg, DoPickKey(cfg, s, t))
  {
    assert MakerOk(s, t, s.threads[t]);
    if cfg.keyMode.SecondKey? {
      TicketRoundTrip(|s.draws|);
    }
    MovedAlone(cfg, s, DoPickKey(cfg, s, t), t);
  }

  lemma InsertThrowsKeeps(cfg: Config, s: State, t: nat)
    requires CoreInv(cfg, s) && t < |s.threads| && Enabled(cfg, s, t, InsertThrows)
    ensures CoreInv(cfg, DoInsertThrows(s, t))
  {
    assert MakerOk(s, t, s.threads[t]);
    MovedAlone(cfg, s, DoInsertThrows(s, t), t);
  }

  lemma DropParamKeeps(cfg: Config, s: State, t: nat)
    requires CoreInv(cfg, s) && t < |s.threads| && Enabled(cfg, s, t, DropParam)
    ensures CoreInv(cfg, DoDropParam(s, t))
  {
    assert MakerOk(s, t, s.threads[t]);
    HeldIsCounted(s, t, s.threads[t].batch);
    MovedBatch(cfg, s, DoDropParam(s, t), t, s.threads[t].batch);
  }

  lemma ClientKeeps(cfg: Config, s: State, t: nat, a: Action)
    requires CoreInv(cfg, s) && t < |s.threads| && Enabled(cfg, s, t, a)
    requires a.AddJob? || a.Start? || a.SendJob? || a.FinishExecute?
    ensures CoreInv(cfg, Step(cfg, s, t, a))
  {
    var n := Step(cfg, s, t, a);
    var b := s.threads[t].batch;
    assert MakerOk(s, t, s.threads[t]) && BatchOk(s, b);
    assert Registered(n, b);
    HeldIsCounted(s, t, b);
    MovedBatch(cfg, s, n, t, b);
  }

  lemma DropRefKeeps(cfg: Config, s: State, t: nat)
    requires CoreInv(cfg, s) && t < |s.threads| && Enabled(cfg, s, t, DropRef)
    ensures CoreInv(cfg, DoDropRef(s, t))
  {
    HeldIsCounted(s, t, s.threads[t].batch);
    MovedBatch(cfg, s, DoDropRef(s, t), t, s.threads[t].batch);
  }

  lemma EraseKeeps(cfg: Config, s: State, t: nat)
    requires CoreInv(cfg, s) && t < |s.threads| && Enabled(cfg, s, t, Erase)
    ensures CoreInv(cfg, DoErase(s, t))
  {
    EraseFindsNothing(cfg, s, s.threads[t].batch);
    MovedAlone(cfg, s, DoErase(s, t), t);
  }

  lemma FindKeeps(cfg: Config, s: State, t: nat)
    requires CoreInv(cfg, s) && t < |s.threads| && Enabled(cfg, s, t, Find)
    ensures CoreInv(cfg, DoFind(s, t))
  {
    if s.replies[s.threads[t].reply].key in s.jobMap {
      FoundKeeps(cfg, s, t);
    } else {
      MovedAlone(cfg, s, DoFind(s, t), t);
    }
  }

  lemma FoundKeeps(cfg: Config, s: State, t: nat)
    requires CoreInv(cfg, s) && t < |s.threads| && Enabled(cfg, s, t, Find)
    requires s.replies[s.threads[t].reply].key in s.jobMap
    ensures CoreInv(cfg, DoFind(s, t))
  {
    var k := s.replies[s.threads[t].reply].key;
    EntriesPositive(s.jobMap, k);
    HeldIsCounted(s, t, s.jobMap[k]);
    assert CountOk(s, s.jobMap[k]);
    MovedBatch(cfg, s, DoFind(s, t), t, s.jobMap[k]);
  }

  lemma ReceiveKeeps(cfg: Config, s: State, t: nat, key: Key, ok: bool)
    requires CoreInv(cfg, s) && t < |s.threads| && s.threads[t].Idle?
    ensures CoreInv(cfg, DoReceive(s, t, key, ok))
  {
    MovedAlone(cfg, s, DoReceive(s, t, key, ok), t);
  }

  lemma HookKeeps(cfg: Config, s: State, t: nat, a: Action)
    requires CoreInv(cfg, s) && t < |s.threads| && Enabled(cfg, s, t, a)
    requires a.CallHook? || a.FinishReply?
    ensures CoreInv(cfg, Step(cfg, s, t, a))
  {
    MovedAlone(cfg, s, Step(cfg, s, t, a), t);
  }

  lemma {:induction false} NoRefsYet(threads: seq<Pc>, b: nat, replies: nat)
    requires forall t | 0 <= t < |threads| :: PcTyped(threads[t], b, replies)
    ensures Refs(threads, b) == 0
  {
    if threads != [] {
      NoRefsYet(threads[..|threads| - 1], b, replies);
      assert PcTyped(threads[|threads| - 1], b, replies);
    }
  }

  lemma ConstructKeeps(cfg: Config, s: State, t: nat, session: nat)
    requires CoreInv(cfg, s) && t < |s.threads| && s.threads[t].Idle?
    requires |DoConstruct(s, t, session).draws| <= KEY_SPACE
    ensures CoreInv(cfg, DoConstruct(s, t, session))
  {
    ConstructKeys(cfg, s, t, session);
    ConstructMakers(s, t, session);
    ConstructOwners(s, t, session);
    MovedLock(s, DoConstruct(s, t, session), t);
  }

  lemma ConstructKeys(cfg: Config, s: State, t: nat, session: nat)
    requires Typed(s) && KeysOk(cfg, s) && t < |s.threads| && s.threads[t].Idle?
    requires |DoConstruct(s, t, session).draws| <= KEY_SPACE
    ensures KeysOk(cfg, DoConstruct(s, t, session))
  {
    var n := DoConstruct(s, t, session);
    TicketRoundTrip(|s.draws|);
    forall b | 0 <= b < |n.batches| ensures CtorKey(n, b) {
      assert b < |s.batches| ==> CtorKey(s, b);
    }
  }

  lemma ConstructMakers(s: State, t: nat, session: nat)
    requires Typed(s) && MakersOk(s) && t < |s.threads| && s.threads[t].Idle?
    ensures MakersOk(DoConstruct(s, t, session))
  {
    var n := DoConstruct(s, t, session);
    assert forall b :: Registered(n, b) <==> Registered(s, b);
    forall b | 0 <= b < |n.batches| ensures BatchOk(n, b) {
      assert b < |s.batches| ==> BatchOk(s, b);
    }
    forall u | 0 <= u < |n.threads| ensures MakerOk(n, u, n.threads[u]) {
      assert u != t ==> MakerOk(s, u, s.threads[u]);
    }
  }

  lemma ConstructOwners(s: State, t: nat, session: nat)
    requires Typed(s) && OwnersOk(s) && t < |s.threads| && s.threads[t].Idle?
    ensures OwnersOk(DoConstruct(s, t, session))
  {
    var n := DoConstruct(s, t, session);
    var c := |s.batches|;
    forall b | 0 <= b < |n.batches| ensures CountOk(n, b) {
      RefsUpdate(s.threads, t, Made(c), b);
      if b < c {
        assert CountOk(s, b);
      } else {
        NoRefsYet(s.threads, c, |s.replies|);
        assert KeysTo(s.jobMap, c) == {};
      }
    }
  }

  lemma InsertKeeps(cfg: Config, s: State, t: nat)
    requires CoreInv(cfg, s) && t < |s.threads| && Enabled(cfg, s, t, Insert)
    ensures CoreInv(cfg, DoInsert(s, t))
  {
    InsertIsFresh(cfg, s, t);
    InsertKeys(cfg, s, t);
    InsertMakers(s, t);
    InsertOwners(s, t);
    MovedLock(s, DoInsert(s, t), t);
  }

  lemma InsertKeys(cfg: Config, s: State, t: nat)
    requires Typed(s) && KeysOk(cfg, s)
    requires t < |s.threads| && s.threads[t].RegKeyed?
    ensures KeysOk(cfg, DoInsert(s, t))
  {
    var n := DoInsert(s, t);
    var RegKeyed(c, k) := s.threads[t];
    assert MapKey(cfg, s, k, c);
    forall b | 0 <= b < |n.batches| ensures CtorKey(n, b) {
      assert CtorKey(s, b);
    }
    forall j | j in n.jobMap ensures MapKey(cfg, n, j, n.jobMap[j]) {
      assert j in s.jobMap ==> MapKey(cfg, s, j, s.jobMap[j]);
    }
  }

  lemma InsertOwners(s: State, t: nat)
    requires Typed(s) && OwnersOk(s)
    requires t < |s.threads| && s.threads[t].RegKeyed? && s.threads[t].key !in s.jobMap
    ensures OwnersOk(DoInsert(s, t))
  {
    var n := DoInsert(s, t);
    var RegKeyed(c, k) := s.threads[t];
    forall b | 0 <= b < |n.batches| ensures CountOk(n, b) {
      assert CountOk(s, b);
      RefsUpdate(s.threads, t, RegInserted(c), b);
      EntriesUpdate(s.jobMap, k, c, b);
    }
  }

  lemma InsertMakers(s: State, t: nat)
    requires Typed(s) && MakersOk(s)
    requires t < |s.threads| && s.threads[t].RegKeyed? && s.threads[t].key !in s.jobMap
    ensures MakersOk(DoInsert(s, t))
  {
    var n := DoInsert(s, t);
    var RegKeyed(c, k) := s.threads[t];
    assert MakerOk(s, t, s.threads[t]);
    assert n.jobMap[k] == c;
    forall b ensures Registered(n, b) <==> Registered(s, b) || b == c {
      if Registered(s, b) {
        var j :| j in s.jobMap && s.jobMap[j] == b;
        assert n.jobMap[j] == b;
      }
    }
    forall b | 0 <= b < |n.batches| ensures BatchOk(n, b) {
      assert BatchOk(s, b);
    }
    forall u | 0 <= u < |n.threads| ensures MakerOk(n, u, n.threads[u]) {
      assert MakerOk(s, u, s.threads[u]);
    }
  }

  // ---------------------------------------------------------------- every step, every run

  lemma InitCore(cfg: Config, n: nat)
    ensures CoreInv(cfg, Init(n))
  {
  }

  lemma StepKeepsCore(cfg: Config, s: State, t: nat, a: Action)
    requires CoreInv(cfg, s) && t < |s.threads| && Enabled(cfg, s, t, a)
    requires |Step(cfg, s, t, a).draws| <= KEY_SPACE
    ensures CoreInv(cfg, Step(cfg, s, t, a))
  {
    match a
    case Construct(session) => ConstructKeeps(cfg, s, t, session);
    case CallRegister => CallRegisterKeeps(cfg, s, t);
    case Lock => LockKeeps(cfg, s, t);
    case PickKey => PickKeyKeeps(cfg, s, t);
    case Insert => InsertKeeps(cfg, s, t);
    case InsertThrows => InsertThrowsKeeps(cfg, s, t);
    case Unlock => UnlockKeeps(cfg, s, t);
    case DropParam => DropParamKeeps(cfg, s, t);
    case AddJob(_) => ClientKeeps(cfg, s, t, a);
    case Start => ClientKeeps(cfg, s, t, a);
    case SendJob => ClientKeeps(cfg, s, t, a);
    case FinishExecute => ClientKeeps(cfg, s, t, a);
    case DropRef => DropRefKeeps(cfg, s, t);
    case Erase => EraseKeeps(cfg, s, t);
    case Receive(key, ok) => ReceiveKeeps(cfg, s, t, key, ok);
    case Find => FindKeeps(cfg, s, t);
    case CallHook => HookKeeps(cfg, s, t, a);
    case FinishReply => HookKeeps(cfg, s, t, a);
  }
}
