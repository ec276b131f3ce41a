/** The batched database job protocol as a step relation over any number of threads.

    A thread makes a batch, registers it under the manager's mutex, adds jobs, executes the batch and
    drops its reference; or it serves one database reply. Every access to shared state that another
    thread could observe is a step of its own, so a schedule is any interleaving. Reference counts are
    kept step by step the way `shared_ptr` keeps them. */
module JobProtocol {
  import opened Wrappers
  import opened Keys

  const MAXIMUM_BATCHED_DB_JOB_SIZE: nat := 16

  /** `SecondKey` is the code as written: registering draws a fresh key and ignores the batch's own.
      `OwnKey` is the meant design: a batch is registered under the key it carries. */
  datatype KeyMode = OwnKey | SecondKey

  /** `wired`: jobs are given the buffer their constructor fills. As written they are not, the buffer
      pointer stays null. `honestDb`: the database only answers keys it has been sent. */
  datatype Config = Config(keyMode: KeyMode, wired: bool, honestDb: bool)

  /** The key under which a batch made from this counter is registered when no other draw intervenes, and
      the counter afterwards. */
  function RegisteredKey(mode: KeyMode, counter: Key): Key {
    if mode.OwnKey? then counter else Bump(counter)
  }

  function CounterAfterMake(mode: KeyMode, counter: Key): Key {
    if mode.OwnKey? then Bump(counter) else Bump(Bump(counter))
  }

  function InsertIfAbsent<T>(m: map<Key, T>, k: Key, v: T): map<Key, T> {
    if k in m then m else m[k := v]
  }

  /** A job as far as executing it depends on it. Which job it is, its place in the batch's list says. */
  datatype Job = Job(hasBuffer: bool, hasKeySlot: bool) {
    predicate Ready() {
      hasBuffer && hasKeySlot
    }
  }

  datatype ExecPhase = NotRun | Running(attempted: nat) | Finished

  /** `strong` is the control block's count; `destroyed` says the destructor has been entered. `maker`
      and `exec` are history, read by no step. */
  datatype Batch = Batch(
    maker: nat,
    session: nat,
    key: Key,
    jobs: seq<Job>,
    strong: int,
    destroyed: bool,
    exec: ExecPhase
  )

  /** Who took the draw with a given ticket. */
  datatype Draw = CtorDraw(batch: nat) | RegistryDraw(batch: nat)

  /** What went out to the database. */
  datatype Frame =
    | StartFrame(batch: nat, session: nat, size: nat)
    | JobFrame(batch: nat, index: nat, key: Key)

  datatype ReplyStatus = Waiting | Missed | Serving(batch: nat, called: nat) | Served(batch: nat, called: nat)
  datatype Reply = Reply(server: nat, key: Key, ok: bool, status: ReplyStatus)

  /** One call of a job's `OnCommit` (`ok`) or `OnRollback` hook. */
  datatype Hook = Hook(reply: nat, batch: nat, index: nat, ok: bool)

  /** Where a thread is, with the locals it still needs. */
  datatype Pc =
    | Idle
    // MakeBatchedDBJob and RegisterDBJob
    | Made(batch: nat)
    | RegWait(batch: nat)
    | RegLocked(batch: nat)
    | RegKeyed(batch: nat, key: Key)
    | RegInserted(batch: nat)
    | RegThrown(batch: nat)
    | RegReturn(batch: nat)
    | Unwind(batch: nat)
    // the packet handler that made the batch
    | Filling(batch: nat)
    | Executing(batch: nat, attempted: nat)
    // a local shared_ptr going out of scope, ~BatchedDBJob and DeregisterDBJob
    | Dropping(batch: nat)
    | Destruct(batch: nat)
    | DeregLocked(batch: nat)
    | DeregErased(batch: nat)
    | Reentered(batch: nat, victim: nat)
    // AssemblePacket(DBJobReply&)
    | RepWait(reply: nat)
    | RepLocked(reply: nat)
    | RepFound(reply: nat, batch: nat)
    | RepMissed(reply: nat)
    | Hooking(reply: nat, batch: nat, called: nat)

  datatype Action =
    | Construct(session: nat) | CallRegister | Lock | PickKey | Insert | InsertThrows | Unlock | DropParam
    | AddJob(job: Job) | Start | SendJob | FinishExecute | DropRef | Erase
    | Receive(key: Key, ok: bool) | Find | CallHook | FinishReply

  datatype State = State(
    counter: Key,
    jobMap: map<Key, nat>,
    lock: Option<nat>,
    batches: seq<Batch>,
    threads: seq<Pc>,
    trace: seq<Frame>,
    replies: seq<Reply>,
    hooks: seq<Hook>,
    draws: seq<Draw>,
    registrations: nat
  ) {
    function At(t: nat, pc: Pc): State
      requires t < |threads|
    {
      this.(threads := threads[t := pc])
    }

    function With(b: nat, batch: Batch): State
      requires b < |batches|
    {
      this.(batches := batches[b := batch])
    }

    function Ref(b: nat, delta: int): State
      requires b < |batches|
    {
      With(b, batches[b].(strong := batches[b].strong + delta))
    }

    function Mark(r: nat, status: ReplyStatus): State
      requires r < |replies|
    {
      this.(replies := replies[r := replies[r].(status := status)])
    }

    /** One `fetch_add(1)`; the key handed out is the old counter. */
    function Drawn(who: Draw): State {
      this.(counter := Bump(counter), draws := draws + [who])
    }
  }

  predicate PcTyped(pc: Pc, batches: nat, replies: nat) {
    match pc
    case Idle => true
    case RepWait(r) => r < replies
    case RepLocked(r) => r < replies
    case RepMissed(r) => r < replies
    case RepFound(r, b) => r < replies && b < batches
    case Hooking(r, b, _) => r < replies && b < batches
    case Reentered(b, c) => b < batches && c < batches
    case _ => pc.batch < batches
  }

  predicate StatusTyped(status: ReplyStatus, batches: nat) {
    match status
    case Waiting | Missed => true
    case Serving(b, _) => b < batches
    case Served(b, _) => b < batches
  }

  /** Every index in the state points at something. */
  ghost predicate Typed(s: State) {
    && (forall t | 0 <= t < |s.threads| :: PcTyped(s.threads[t], |s.batches|, |s.replies|))
    && (forall k | k in s.jobMap :: s.jobMap[k] < |s.batches|)
    && (forall r | 0 <= r < |s.replies| :: StatusTyped(s.replies[r].status, |s.batches|))
  }

  ghost predicate KeySent(trace: seq<Frame>, key: Key) {
    exists i :: 0 <= i < |trace| && trace[i].JobFrame? && trace[i].key == key
  }

  /** ExecuteJob: a job that lacks its buffer or its key slot sends nothing. */
  function JobFrames(b: nat, key: Key, jobs: seq<Job>, index: nat): seq<Frame>
    requires index < |jobs|
  {
    if jobs[index].Ready() then [JobFrame(b, index, key)] else []
  }

  /** The start job's own frame. Without a buffer the client refuses it. */
  function StartFrames(cfg: Config, b: nat, session: nat, size: nat): seq<Frame> {
    if cfg.wired then [StartFrame(b, session, size)] else []
  }

  // ---------------------------------------------------------------- MakeBatchedDBJob

  /** The constructor draws the batch's key outside any lock. */
  ghost function DoConstruct(s: State, t: nat, session: nat): (n: State)
    requires Typed(s) && t < |s.threads|
    ensures Typed(n) && |n.threads| == |s.threads|
  {
    var made := Batch(t, session, s.counter, [], 1, false, NotRun);
    s.(batches := s.batches + [made]).Drawn(CtorDraw(|s.batches|)).At(t, Made(|s.batches|))
  }

  /** RegisterDBJob takes its argument by value, so the call copies the reference. */
  ghost function DoCallRegister(s: State, t: nat): (n: State)
    requires Typed(s) && t < |s.threads| && s.threads[t].Made?
    ensures Typed(n) && |n.threads| == |s.threads|
  {
    s.Ref(s.threads[t].batch, 1).At(t, RegWait(s.threads[t].batch))
  }

  ghost function DoPickKey(cfg: Config, s: State, t: nat): (n: State)
    requires Typed(s) && t < |s.threads| && s.threads[t].RegLocked?
    ensures Typed(n) && |n.threads| == |s.threads|
  {
    var b := s.threads[t].batch;
    match cfg.keyMode
    case OwnKey => s.At(t, RegKeyed(b, s.batches[b].key))
    case SecondKey => s.Drawn(RegistryDraw(b)).At(t, RegKeyed(b, s.counter))
  }

  /** `jobMap.insert` keeps an entry that is already there. */
  ghost function DoInsert(s: State, t: nat): (n: State)
    requires Typed(s) && t < |s.threads| && s.threads[t].RegKeyed?
    ensures Typed(n) && |n.threads| == |s.threads|
  {
    var RegKeyed(b, k) := s.threads[t];
    var done := s.(registrations := s.registrations + 1).At(t, RegInserted(b));
    if k in s.jobMap then done else done.(jobMap := s.jobMap[k := b]).Ref(b, 1)
  }

  /** The insertion may fail to allocate; the stack then unwinds through the lock guard. */
  ghost function DoInsertThrows(s: State, t: nat): (n: State)
    requires Typed(s) && t < |s.threads| && s.threads[t].RegKeyed?
    ensures Typed(n) && |n.threads| == |s.threads|
  {
    s.At(t, RegThrown(s.threads[t].batch))
  }

  ghost function DoDropParam(s: State, t: nat): (n: State)
    requires Typed(s) && t < |s.threads| && (s.threads[t].RegReturn? || s.threads[t].Unwind?)
    ensures Typed(n) && |n.threads| == |s.threads|
  {
    var b := s.threads[t].batch;
    s.Ref(b, -1).At(t, if s.threads[t].RegReturn? then Filling(b) else Dropping(b))
  }

  // ---------------------------------------------------------------- the mutex

  predicate WantsLock(pc: Pc) {
    pc.RegWait? || pc.Destruct? || pc.RepWait? || pc.Reentered?
  }

  ghost function DoLock(s: State, t: nat): (n: State)
    requires Typed(s) && t < |s.threads| && WantsLock(s.threads[t])
    ensures Typed(n) && |n.threads| == |s.threads|
  {
    s.(lock := Some(t)).At(t,
      match s.threads[t]
      case RegWait(b) => RegLocked(b)
      case Destruct(b) => DeregLocked(b)
      case RepWait(r) => RepLocked(r)
      case Reentered(b, c) => DeregLocked(c))
  }

  predicate WantsUnlock(pc: Pc) {
    pc.RegInserted? || pc.RegThrown? || pc.DeregErased? || pc.RepFound? || pc.RepMissed?
  }

  ghost function DoUnlock(s: State, t: nat): (n: State)
    requires Typed(s) && t < |s.threads| && WantsUnlock(s.threads[t])
    ensures Typed(n) && |n.threads| == |s.threads|
  {
    s.(lock := None).At(t,
      match s.threads[t]
      case RegInserted(b) => RegReturn(b)
      case RegThrown(b) => Unwind(b)
      case DeregErased(b) => Idle
      case RepFound(r, b) => Hooking(r, b, 0)
      case RepMissed(r) => Idle)
  }

  // ---------------------------------------------------------------- the client of a batch

  /** AddDBJob: a full list is left unchanged. */
  ghost function DoAddJob(s: State, t: nat, job: Job): (n: State)
    requires Typed(s) && t < |s.threads| && s.threads[t].Filling?
    ensures Typed(n) && |n.threads| == |s.threads|
  {
    var b := s.threads[t].batch;
    var batch := s.batches[b];
    if |batch.jobs| >= MAXIMUM_BATCHED_DB_JOB_SIZE then s
    else s.With(b, batch.(jobs := batch.jobs + [job]))
  }

  /** ExecuteBatchJob up to and including the start frame. */
  ghost function DoStart(cfg: Config, s: State, t: nat): (n: State)
    requires Typed(s) && t < |s.threads| && s.threads[t].Filling?
    ensures Typed(n) && |n.threads| == |s.threads|
  {
    var b := s.threads[t].batch;
    s.With(b, s.batches[b].(exec := Running(0)))
     .(trace := s.trace + StartFrames(cfg, b, s.batches[b].session, |s.batches[b].jobs|))
     .At(t, Executing(b, 0))
  }

  /** One ExecuteJob of the loop. */
  ghost function DoSendJob(s: State, t: nat): (n: State)
    requires Typed(s) && t < |s.threads| && s.threads[t].Executing?
    requires s.threads[t].attempted < |s.batches[s.threads[t].batch].jobs|
    ensures Typed(n) && |n.threads| == |s.threads|
  {
    var Executing(b, i) := s.threads[t];
    s.With(b, s.batches[b].(exec := Running(i + 1)))
     .(trace := s.trace + JobFrames(b, s.batches[b].key, s.batches[b].jobs, i))
     .At(t, Executing(b, i + 1))
  }

  ghost function DoFinishExecute(s: State, t: nat): (n: State)
    requires Typed(s) && t < |s.threads| && s.threads[t].Executing?
    ensures Typed(n) && |n.threads| == |s.threads|
  {
    var b := s.threads[t].batch;
    s.With(b, s.batches[b].(exec := Finished)).At(t, Dropping(b))
  }

  // ---------------------------------------------------------------- references going away

  /** A local `shared_ptr` goes out of scope; the last one enters the destructor. */
  ghost function DoDropRef(s: State, t: nat): (n: State)
    requires Typed(s) && t < |s.threads| && s.threads[t].Dropping?
    ensures Typed(n) && |n.threads| == |s.threads|
  {
    var b := s.threads[t].batch;
    if s.batches[b].strong == 1
    then s.With(b, s.batches[b].(strong := 0, destroyed := true)).At(t, Destruct(b))
    else s.Ref(b, -1).At(t, Idle)
  }

  /** `jobMap.erase(dbJobKey)`. When the erased entry was the last reference to its batch, that batch's
      destructor runs right here and asks for the mutex this thread is holding. */
  ghost function DoErase(s: State, t: nat): (n: State)
    requires Typed(s) && t < |s.threads| && s.threads[t].DeregLocked?
    ensures Typed(n) && |n.threads| == |s.threads|
  {
    var b := s.threads[t].batch;
    var k := s.batches[b].key;
    if k !in s.jobMap then s.At(t, DeregErased(b))
    else
      var c := s.jobMap[k];
      var erased := s.(jobMap := s.jobMap - {k});
      if s.batches[c].strong == 1
      then erased.With(c, s.batches[c].(strong := 0, destroyed := true)).At(t, Reentered(b, c))
      else erased.Ref(c, -1).At(t, DeregErased(b))
  }

  // ---------------------------------------------------------------- AssemblePacket(DBJobReply&)

  ghost function DoReceive(s: State, t: nat, key: Key, ok: bool): (n: State)
    requires Typed(s) && t < |s.threads|
    ensures Typed(n) && |n.threads| == |s.threads|
  {
    s.(replies := s.replies + [Reply(t, key, ok, Waiting)]).At(t, RepWait(|s.replies|))
  }

  /** GetRegistedDBJob's lookup; the returned copy is a new reference. */
  ghost function DoFind(s: State, t: nat): (n: State)
    requires Typed(s) && t < |s.threads| && s.threads[t].RepLocked?
    ensures Typed(n) && |n.threads| == |s.threads|
  {
    var r := s.threads[t].reply;
    var k := s.replies[r].key;
    if k !in s.jobMap then s.Mark(r, Missed).At(t, RepMissed(r))
    else s.Ref(s.jobMap[k], 1).Mark(r, Serving(s.jobMap[k], 0)).At(t, RepFound(r, s.jobMap[k]))
  }

  /** One iteration of OnCommit's or OnRollback's loop. */
  ghost function DoCallHook(s: State, t: nat): (n: State)
    requires Typed(s) && t < |s.threads| && s.threads[t].Hooking?
    ensures Typed(n) && |n.threads| == |s.threads|
  {
    var Hooking(r, b, i) := s.threads[t];
    s.Mark(r, Serving(b, i + 1))
     .(hooks := s.hooks + [Hook(r, b, i, s.replies[r].ok)])
     .At(t, Hooking(r, b, i + 1))
  }

  ghost function DoFinishReply(s: State, t: nat): (n: State)
    requires Typed(s) && t < |s.threads| && s.threads[t].Hooking?
    ensures Typed(n) && |n.threads| == |s.threads|
  {
    var Hooking(r, b, i) := s.threads[t];
    s.Mark(r, Served(b, i)).At(t, Dropping(b))
  }

  // ---------------------------------------------------------------- steps and runs

  /** The action is the thread's next one and nothing blocks it. A thread that asks for a mutex it holds
      itself is never enabled again. */
  ghost predicate Enabled(cfg: Config, s: State, t: nat, a: Action)
    requires Typed(s) && t < |s.threads|
  {
    var pc := s.threads[t];
    match a
    case Construct(_) => pc.Idle?
    case CallRegister => pc.Made?
    case Lock => WantsLock(pc) && s.lock.None?
    case PickKey => pc.RegLocked?
    case Insert => pc.RegKeyed?
    case InsertThrows => pc.RegKeyed?
    case Unlock => WantsUnlock(pc)
    case DropParam => pc.RegReturn? || pc.Unwind?
    case AddJob(job) => pc.Filling? && (job.hasBuffer ==> cfg.wired)
    case Start => pc.Filling?
    case SendJob => pc.Executing? && pc.attempted < |s.batches[pc.batch].jobs|
    case FinishExecute => pc.Executing? && pc.attempted >= |s.batches[pc.batch].jobs|
    case DropRef => pc.Dropping?
    case Erase => pc.DeregLocked?
    case Receive(key, _) => pc.Idle? && (cfg.honestDb ==> KeySent(s.trace, key))
    case Find => pc.RepLocked?
    case CallHook => pc.Hooking? && pc.called < |s.batches[pc.batch].jobs|
    case FinishReply => pc.Hooking? && pc.called >= |s.batches[pc.batch].jobs|
  }

  ghost function Step(cfg: Config, s: State, t: nat, a: Action): (n: State)
    requires Typed(s) && t < |s.threads| && Enabled(cfg, s, t, a)
    ensures Typed(n) && |n.threads| == |s.threads|
  {
    match a
    case Construct(session) => DoConstruct(s, t, session)
    case CallRegister => DoCallRegister(s, t)
    case Lock => DoLock(s, t)
    case PickKey => DoPickKey(cfg, s, t)
    case Insert => DoInsert(s, t)
    case InsertThrows => DoInsertThrows(s, t)
    case Unlock => DoUnlock(s, t)
    case DropParam => DoDropParam(s, t)
    case AddJob(job) => DoAddJob(s, t, job)
    case Start => DoStart(cfg, s, t)
    case SendJob => DoSendJob(s, t)
    case FinishExecute => DoFinishExecute(s, t)
    case DropRef => DoDropRef(s, t)
    case Erase => DoErase(s, t)
    case Receive(key, ok) => DoReceive(s, t, key, ok)
    case Find => DoFind(s, t)
    case CallHook => DoCallHook(s, t)
    case FinishReply => DoFinishReply(s, t)
  }

  function Init(n: nat): State {
    State(FIRST_KEY, map[], None, [], seq(n, _ => Idle), [], [], [], [], 0)
  }

  datatype Move = Move(thread: nat, action: Action)

  /** The state a schedule leads to from `n` idle threads, or `None` when some move cannot be made. */
  ghost function Run(cfg: Config, n: nat, schedule: seq<Move>): (r: Option<State>)
    ensures r.Some? ==> Typed(r.value) && |r.value.threads| == n
  {
    if schedule == [] then Some(Init(n))
    else
      var Move(t, a) := schedule[|schedule| - 1];
      var before := Run(cfg, n, schedule[..|schedule| - 1]);
      if before.None? || t >= n || !Enabled(cfg, before.value, t, a) then None
      else Some(Step(cfg, before.value, t, a))
  }
}
