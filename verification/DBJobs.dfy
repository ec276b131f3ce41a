/** Jobs, batches, their manager and the handlers that use them, run by one thread at a time. */
module DBJobs {
  import opened Wrappers
  import opened Bytes
  import opened Keys
  import opened KeySlot
  import opened JobProtocol
  import opened JobTraces
  import opened JobReplies
  import Codec
  import WireFormat

  const GAME2DB_TEST: nat := 10
  const GAME2DB_BATCHED_DB_JOB: nat := 11

  datatype ErrorCode = SUCCESS | BATCHED_DB_JOB_SIZE_OVERFLOWED

  /** The connection to the database server: a null buffer is refused. */
  class DBClient {
    var sent: seq<seq<byte>>

    constructor ()
      ensures sent == []
    {
      sent := [];
    }

    method SendPacketToFixedChannel(buffer: array?<byte>) returns (accepted: bool)
      modifies this
      ensures accepted == (buffer != null)
      ensures sent == old(sent) + if buffer != null then [buffer[..]] else []
    {
      accepted := buffer != null;
      if buffer != null {
        sent := sent + [buffer[..]];
      }
    }
  }

  /** Which hooks were called, in order. */
  datatype HookCall = HookCall(job: DBJob, commit: bool)

  class Journal {
    var calls: seq<HookCall>

    constructor ()
      ensures calls == []
    {
      calls := [];
    }

    method Record(call: HookCall)
      modifies this
      ensures calls == old(calls) + [call]
    {
      calls := calls + [call];
    }
  }

  /** The packet a job keeps for its rollback: its id and the fields its class lists. */
  datatype RollbackItem = RollbackItem(packetId: nat, fields: seq<Codec.Value>)

  class DBJob {
    const ownerSessionId: nat
    const forRollback: RollbackItem
    var jobSPBuffer: array?<byte>
    var jobKeyPosition: Option<nat>

    ghost predicate Valid()
      reads this, jobSPBuffer
    {
      jobSPBuffer != null && jobKeyPosition.Some? ==> jobKeyPosition.value == SLOT && HEADER <= jobSPBuffer.Length
    }

    /** The frame the job would send, before the key is stored; none when it has no buffer or slot. */
    ghost function View(): (v: Option<seq<byte>>)
      requires Valid()
      reads this, jobSPBuffer
      ensures v.Some? ==> HEADER <= |v.value|
    {
      if jobSPBuffer == null || jobKeyPosition.None? then None else Some(jobSPBuffer[..])
    }

    /** The job as the protocol sees it. */
    ghost function AsJob(): Job
      reads this
    {
      Job(jobSPBuffer != null, jobKeyPosition.Some?)
    }

    /** `slot` is whatever the fresh buffer holds where the write position is moved over it. As written
        (`!wired`) the filled buffer is never stored in the job. */
    constructor (wired: bool, session: nat, packetId: nat, slot: seq<byte>, payload: seq<byte>, rollback: RollbackItem)
      requires |slot| == KEY_WIDTH
      ensures Valid()
      ensures View() == if wired then Some(Layout(packetId, slot, payload)) else None
      ensures AsJob() == Job(wired, true)
      ensures wired ==> fresh(jobSPBuffer)
      ensures ownerSessionId == session && forRollback == rollback
    {
      ownerSessionId := session;
      forRollback := rollback;
      var bytes := Layout(packetId, slot, payload);
      var buffer := new byte[|bytes|](i requires 0 <= i < |bytes| => bytes[i]);
      jobSPBuffer := if wired then buffer else null;
      jobKeyPosition := Some(SLOT);
      new;
      assert buffer[..] == bytes;
    }

    /** Stores the key into the slot and sends. The source reads the key value as an address; the store
        modelled here is the one it means. */
    method ExecuteJob(batchDBJobKey: Key, client: DBClient) returns (executed: bool)
      requires Valid()
      modifies client, jobSPBuffer
      ensures Valid()
      ensures executed == old(View()).Some?
      ensures executed ==> View() == Some(Patch(old(View()).value, batchDBJobKey))
      ensures !executed ==> View() == old(View()) && (jobSPBuffer != null ==> jobSPBuffer[..] == old(jobSPBuffer[..]))
      ensures client.sent == old(client.sent) + if executed then [Patch(old(View()).value, batchDBJobKey)] else []
    {
      if jobSPBuffer == null || jobKeyPosition.None? {
        return false;
      }
      var key := ToLe(batchDBJobKey, KEY_WIDTH);
      var at := jobKeyPosition.value;
      forall i | 0 <= i < KEY_WIDTH {
        jobSPBuffer[at + i] := key[i];
      }
      assert jobSPBuffer[..] == Patch(old(View()).value, batchDBJobKey);
      var _ := client.SendPacketToFixedChannel(jobSPBuffer);
      return true;
    }
  }

  // ---------------------------------------------------------------- adding jobs

  /** AddDBJob on a list: a full list is left unchanged. */
  function Add<T>(jobs: seq<T>, job: T): seq<T> {
    if |jobs| >= MAXIMUM_BATCHED_DB_JOB_SIZE then jobs else jobs + [job]
  }

  function AddAll<T>(jobs: seq<T>, more: seq<T>): seq<T> {
    if more == [] then jobs else Add(AddAll(jobs, more[..|more| - 1]), more[|more| - 1])
  }

  function Successes<T>(jobs: seq<T>, more: seq<T>): nat {
    if more == [] then 0
    else
      var before := AddAll(jobs, more[..|more| - 1]);
      Successes(jobs, more[..|more| - 1]) + if |before| >= MAXIMUM_BATCHED_DB_JOB_SIZE then 0 else 1
  }

  /** Any sequence of calls on an empty batch leaves the first sixteen jobs, or all of them, in call
      order, and as many calls report success as there are jobs. */
  lemma {:induction false} BoundedBatch<T>(more: seq<T>)
    ensures AddAll([], more) == more[..if |more| < 16 then |more| else 16]
    ensures Successes([], more) == |AddAll([], more)|
  {
    if more != [] {
      BoundedBatch(more[..|more| - 1]);
    }
  }

  // ---------------------------------------------------------------- executing

  /** The frames sent for these jobs: one per job that has a frame, in list order, with the key stored. */
  function SentFrames(views: seq<Option<seq<byte>>>, key: Key): seq<seq<byte>>
    requires forall i | 0 <= i < |views| :: views[i].Some? ==> HEADER <= |views[i].value|
  {
    if views == [] then []
    else
      var last := views[|views| - 1];
      SentFrames(views[..|views| - 1], key) + if last.Some? then [Patch(last.value, key)] else []
  }

  lemma NextFrame(views: seq<Option<seq<byte>>>, i: nat, key: Key)
    requires i < |views|
    requires forall j | 0 <= j < |views| :: views[j].Some? ==> HEADER <= |views[j].value|
    ensures SentFrames(views[..i + 1], key)
      == SentFrames(views[..i], key) + if views[i].Some? then [Patch(views[i].value, key)] else []
  {
    assert views[..i + 1][..i] == views[..i];
  }

  /** Every frame of an execution carries the batch's key, and there is one per job exactly when every job
      has a frame. */
  lemma {:induction false} FramesCarryTheKey(views: seq<Option<seq<byte>>>, key: Key)
    requires forall i | 0 <= i < |views| :: views[i].Some? ==> HEADER <= |views[i].value|
    ensures forall i | 0 <= i < |SentFrames(views, key)| ::
      HEADER <= |SentFrames(views, key)[i]| && Parse(SentFrames(views, key)[i]).key == key
    ensures |SentFrames(views, key)| <= |views|
    ensures |SentFrames(views, key)| == |views| <==> forall i | 0 <= i < |views| :: views[i].Some?
  {
    if views != [] {
      var n := |views| - 1;
      FramesCarryTheKey(views[..n], key);
      if views[n].Some? {
        KeysFillTheSlot();
        LeRoundTrip(key, KEY_WIDTH);
        assert Patch(views[n].value, key)[SLOT..HEADER] == ToLe(key, KEY_WIDTH);
      }
    }
  }

  /** The bytes of a job frame of the protocol, given what the batch's jobs would send. */
  ghost function Render(f: Frame, views: seq<Option<seq<byte>>>): seq<byte>
    requires f.JobFrame? && f.index < |views| && views[f.index].Some? && HEADER <= |views[f.index].value|
  {
    Patch(views[f.index].value, f.key)
  }

  /** The method and the protocol send the same: frame by frame, the bytes of an execution's loop are those
      of the protocol's job frames for the same jobs. */
  lemma {:induction false} LoopRefinesProtocol(b: nat, key: Key, jobs: seq<Job>, views: seq<Option<seq<byte>>>, n: nat)
    requires n <= |jobs| == |views|
    requires forall i | 0 <= i < |views| :: jobs[i].Ready() <==> views[i].Some?
    requires forall i | 0 <= i < |views| :: views[i].Some? ==> HEADER <= |views[i].value|
    ensures |SentFrames(views[..n], key)| == |Sends(b, key, jobs, n)|
    ensures forall i | 0 <= i < |Sends(b, key, jobs, n)| ::
      var f := Sends(b, key, jobs, n)[i];
      f.JobFrame? && f.index < n && views[f.index].Some? && SentFrames(views[..n], key)[i] == Render(f, views)
  {
    if n > 0 {
      LoopRefinesProtocol(b, key, jobs, views, n - 1);
      assert views[..n][..n - 1] == views[..n - 1];
    }
  }

  function PatchView(view: Option<seq<byte>>, key: Key): Option<seq<byte>>
    requires view.Some? ==> HEADER <= |view.value|
  {
    if view.None? then None else Some(Patch(view.value, key))
  }

  /** The empty rollback packet of the start job. */
  const START_ROLLBACK: RollbackItem := RollbackItem(GAME2DB_BATCHED_DB_JOB, [])

  class BatchedDBJob {
    const ownerSessionId: nat
    var jobList: seq<DBJob>
    var dbJobKey: Key

    ghost function Buffers(): set<array<byte>>
      reads this, jobList
    {
      set i | 0 <= i < |jobList| && jobList[i].jobSPBuffer != null :: jobList[i].jobSPBuffer
    }

    /** Jobs are valid and two different jobs never share a buffer. */
    ghost predicate Valid()
      reads this, jobList, Buffers()
    {
      && |jobList| <= MAXIMUM_BATCHED_DB_JOB_SIZE
      && (forall i | 0 <= i < |jobList| :: jobList[i].Valid())
      && (forall i, j |
        && 0 <= i < |jobList| && 0 <= j < |jobList| && jobList[i] != jobList[j]
        && jobList[i].jobSPBuffer != null ::
        jobList[i].jobSPBuffer != jobList[j].jobSPBuffer)
    }

    ghost function Views(): (views: seq<Option<seq<byte>>>)
      requires Valid()
      reads this, jobList, Buffers()
      ensures |views| == |jobList|
      ensures forall i | 0 <= i < |views| :: views[i] == jobList[i].View()
    {
      seq(|jobList|, i requires 0 <= i < |jobList| && Valid() reads this, jobList, Buffers() => jobList[i].View())
    }

    /** The list as the protocol sees it. */
    ghost function Jobs(): (jobs: seq<Job>)
      reads this, jobList
      ensures |jobs| == |jobList|
      ensures forall i | 0 <= i < |jobs| :: jobs[i] == jobList[i].AsJob()
    {
      seq(|jobList|, i requires 0 <= i < |jobList| reads this, jobList => jobList[i].AsJob())
    }

    /** The constructor draws the batch's key. */
    constructor (manager: DBJobManager, session: nat)
      modifies manager
      ensures Valid() && jobList == [] && ownerSessionId == session
      ensures dbJobKey == old(manager.jobKey)
      ensures manager.jobKey == Bump(old(manager.jobKey)) && manager.jobMap == old(manager.jobMap)
    {
      ownerSessionId := session;
      jobList := [];
      dbJobKey := INVALID_DB_JOB_KEY;
      new;
      dbJobKey := manager.GetDBJobKey();
    }

    method AddDBJob(job: DBJob) returns (code: ErrorCode)
      requires Valid() && job.Valid()
      requires forall i | 0 <= i < |jobList| && jobList[i] != job && job.jobSPBuffer != null ::
        jobList[i].jobSPBuffer != job.jobSPBuffer
      modifies `jobList
      ensures Valid()
      ensures jobList == Add(old(jobList), job)
      ensures jobList == if |old(jobList)| < 16 then old(jobList) + [job] else old(jobList)
      ensures code == if |old(jobList)| < 16 then SUCCESS else BATCHED_DB_JOB_SIZE_OVERFLOWED
    {
      if |jobList| >= MAXIMUM_BATCHED_DB_JOB_SIZE {
        return BATCHED_DB_JOB_SIZE_OVERFLOWED;
      }
      jobList := jobList + [job];
      return SUCCESS;
    }

    /** Sends one start frame and then, in list order, the frame of every job that has one, each with the
        batch's key in its slot. The start frame has no fields: its packet class lists none to write. */
    method ExecuteBatchJob(client: DBClient, wired: bool, slot: seq<byte>) returns (code: ErrorCode)
      requires Valid() && |slot| == KEY_WIDTH
      modifies client, Buffers()
      ensures Valid() && code == SUCCESS
      ensures client.sent == old(client.sent)
        + (if wired then [Layout(GAME2DB_BATCHED_DB_JOB, slot, [])] else [])
        + SentFrames(old(Views()), dbJobKey)
      ensures forall i | 0 <= i < |jobList| :: jobList[i].View() == PatchView(old(Views())[i], dbJobKey)
    {
      var batchStartJob := new DBJob(wired, ownerSessionId, GAME2DB_BATCHED_DB_JOB, slot, [], START_ROLLBACK);
      var _ := client.SendPacketToFixedChannel(batchStartJob.jobSPBuffer);
      assert Views() == old(Views());
      ExecuteJobs(client);
      return SUCCESS;
    }

    /** Jobs that occur twice in the list are the same in every way. */
    ghost predicate SameJobSameView(views: seq<Option<seq<byte>>>)
      reads this
    {
      && |views| == |jobList|
      && (forall j | 0 <= j < |views| :: views[j].Some? ==> HEADER <= |views[j].value|)
      && (forall j, k | 0 <= j < |jobList| && 0 <= k < |jobList| && jobList[j] == jobList[k] :: views[j] == views[k])
    }

    /** The first `i` jobs have been executed; a job further on may be one of them. */
    ghost predicate Executed(views: seq<Option<seq<byte>>>, i: nat)
      requires Valid() && SameJobSameView(views)
      reads this, jobList, Buffers()
    {
      forall j | 0 <= j < |jobList| ::
        jobList[j].View() == PatchView(views[j], dbJobKey) || (i <= j && jobList[j].View() == views[j])
    }

    /** ExecuteBatchJob's loop. */
    method ExecuteJobs(client: DBClient)
      requires Valid()
      modifies client, Buffers()
      ensures Valid()
      ensures client.sent == old(client.sent) + SentFrames(old(Views()), dbJobKey)
      ensures forall i | 0 <= i < |jobList| :: jobList[i].View() == PatchView(old(Views())[i], dbJobKey)
    {
      ghost var views := Views();
      for i := 0 to |jobList|
        invariant Valid() && SameJobSameView(views) && Executed(views, i)
        invariant client.sent == old(client.sent) + SentFrames(views[..i], dbJobKey)
      {
        NextFrame(views, i, dbJobKey);
        ExecuteOne(client, i, views);
      }
      assert views[..|jobList|] == views;
    }

    /** One iteration of the loop. A job that occurs twice in the list is patched twice, to the same end. */
    method ExecuteOne(client: DBClient, i: nat, ghost views: seq<Option<seq<byte>>>)
      requires Valid() && i < |jobList| && SameJobSameView(views) && Executed(views, i)
      modifies client, Buffers()
      ensures Valid() && SameJobSameView(views) && Executed(views, i + 1)
      ensures client.sent == old(client.sent) + if views[i].Some? then [Patch(views[i].value, dbJobKey)] else []
    {
      if views[i].Some? {
        PatchTwice(views[i].value, dbJobKey, dbJobKey);
      }
      var _ := jobList[i].ExecuteJob(dbJobKey, client);
    }

    method OnCommit(journal: Journal)
      modifies journal
      ensures journal.calls == old(journal.calls) + HookCalls(jobList, true)
    {
      for i := 0 to |jobList|
        invariant journal.calls == old(journal.calls) + HookCalls(jobList[..i], true)
      {
        journal.Record(HookCall(jobList[i], true));
        assert jobList[..i + 1][..i] == jobList[..i];
      }
      assert jobList[..|jobList|] == jobList;
    }

    method OnRollback(journal: Journal)
      modifies journal
      ensures journal.calls == old(journal.calls) + HookCalls(jobList, false)
    {
      for i := 0 to |jobList|
        invariant journal.calls == old(journal.calls) + HookCalls(jobList[..i], false)
      {
        journal.Record(HookCall(jobList[i], false));
        assert jobList[..i + 1][..i] == jobList[..i];
      }
      assert jobList[..|jobList|] == jobList;
    }
  }

  lemma ExecutionIsStartThenSends(cfg: Config, b: nat, p: Batch)
    ensures var sends := Sends(b, p.key, p.jobs, |p.jobs|);
      Execution(cfg, b, p, |p.jobs|) == if cfg.wired then [StartFrame(b, p.session, |p.jobs|)] + sends else sends
  {
  }

  /** A job sends a frame exactly when the protocol calls it ready. */
  lemma ReadyIffViewed(batch: BatchedDBJob)
    requires batch.Valid()
    ensures |batch.Jobs()| == |batch.Views()|
    ensures forall i | 0 <= i < |batch.Views()| :: batch.Jobs()[i].Ready() <==> batch.Views()[i].Some?
  {
    forall i | 0 <= i < |batch.Views()| ensures batch.Jobs()[i].Ready() <==> batch.Views()[i].Some? {
      assert batch.Jobs()[i] == batch.jobList[i].AsJob() && batch.Views()[i] == batch.jobList[i].View();
    }
  }

  /** So what ExecuteBatchJob sends for a batch is, frame by frame, what the protocol's execution of the same
      jobs puts into its trace behind the start frame. */
  lemma ExecutionRefinesProtocol(cfg: Config, b: nat, batch: BatchedDBJob, p: Batch)
    requires batch.Valid() && p.key == batch.dbJobKey && p.jobs == batch.Jobs()
    ensures var views := batch.Views();
      var frames, sends := SentFrames(views, batch.dbJobKey), Sends(b, p.key, p.jobs, |p.jobs|);
      && Execution(cfg, b, p, |p.jobs|)
        == (if cfg.wired then [StartFrame(b, p.session, |views|)] + sends else sends)
      && |frames| == |sends|
      && forall i | 0 <= i < |frames| ::
        && sends[i].JobFrame? && sends[i].index < |views| && views[sends[i].index].Some?
        && frames[i] == Render(sends[i], views)
  {
    var views := batch.Views();
    ReadyIffViewed(batch);
    ExecutionIsStartThenSends(cfg, b, p);
    LoopRefinesProtocol(b, p.key, p.jobs, views, |views|);
    assert views[..|views|] == views;
  }

  /** One hook call per job, in list order. */
  function HookCalls(jobs: seq<DBJob>, commit: bool): seq<HookCall> {
    if jobs == [] then []
    else HookCalls(jobs[..|jobs| - 1], commit) + [HookCall(jobs[|jobs| - 1], commit)]
  }

  /** Likewise for the hooks of a reply that is served to the end. */
  lemma {:induction false} HooksRefineProtocol(jobs: seq<DBJob>, r: nat, b: nat, ok: bool)
    ensures |HookCalls(jobs, ok)| == |HookLoop(r, b, ok, |jobs|)| == |jobs|
    ensures forall i | 0 <= i < |jobs| ::
      HookCalls(jobs, ok)[i] == HookCall(jobs[i], ok) && HookLoop(r, b, ok, |jobs|)[i] == Hook(r, b, i, ok)
  {
    if jobs != [] {
      HooksRefineProtocol(jobs[..|jobs| - 1], r, b, ok);
    }
  }

  class DBJobManager {
    const keyMode: KeyMode
    var jobKey: Key
    var jobMap: map<Key, BatchedDBJob>

    constructor (mode: KeyMode)
      ensures keyMode == mode && jobKey == 1 && jobMap == map[]
    {
      keyMode := mode;
      jobKey := FIRST_KEY;
      jobMap := map[];
    }

    method GetDBJobKey() returns (key: Key)
      modifies `jobKey
      ensures key == old(jobKey) && jobKey == Bump(old(jobKey))
    {
      key := jobKey;
      jobKey := Bump(jobKey);
    }

    method RegisterDBJob(job: BatchedDBJob)
      modifies this
      ensures var key := if keyMode.OwnKey? then job.dbJobKey else old(jobKey);
        jobMap == if key in old(jobMap) then old(jobMap) else old(jobMap)[key := job]
      ensures jobKey == if keyMode.OwnKey? then old(jobKey) else Bump(old(jobKey))
    {
      var key := job.dbJobKey;
      if keyMode.SecondKey? {
        key := GetDBJobKey();
      }
      if key !in jobMap {
        jobMap := jobMap[key := job];
      }
    }

    method GetRegistedDBJob(key: Key) returns (job: BatchedDBJob?)
      ensures if key in jobMap then job == jobMap[key] else job == null
    {
      job := if key in jobMap then jobMap[key] else null;
    }

    method DeregisterDBJob(key: Key)
      modifies `jobMap
      ensures jobMap == old(jobMap) - {key}
    {
      jobMap := jobMap - {key};
    }
  }

  /** Run alone, this is what the protocol's `SoloMake` says of the thread that makes a batch. */
  method MakeBatchedDBJob(manager: DBJobManager, session: nat) returns (batch: BatchedDBJob)
    modifies manager
    ensures fresh(batch) && batch.Valid() && batch.jobList == [] && batch.ownerSessionId == session
    ensures batch.dbJobKey == old(manager.jobKey)
    ensures manager.jobKey == CounterAfterMake(manager.keyMode, old(manager.jobKey))
    ensures manager.jobMap
      == InsertIfAbsent(old(manager.jobMap), RegisteredKey(manager.keyMode, old(manager.jobKey)), batch)
  {
    batch := new BatchedDBJob(manager, session);
    manager.RegisterDBJob(batch);
  }

  /** The fields of the `test` procedure: an int and a wide string. */
  const TEST_SCHEMA: seq<Codec.Type> := [Codec.SInt(4), Codec.WideText]

  function WideString(s: string): Codec.Value {
    Codec.Wide(seq(|s|, i requires 0 <= i < |s| => s[i] as int))
  }

  /** What the handler asks to be restored when the job is rolled back. */
  const TEST_ROLLBACK: RollbackItem := RollbackItem(GAME2DB_TEST, [Codec.Num(-1), WideString("rollbackString")])

  const ROLLBACK_UNITS: seq<nat> := [114, 111, 108, 108, 98, 97, 99, 107, 83, 116, 114, 105, 110, 103]

  lemma RollbackText()
    ensures TEST_ROLLBACK.packetId == 10 && TEST_ROLLBACK.fields == [Codec.Num(-1), Codec.Wide(ROLLBACK_UNITS)]
  {
    var units := WideString("rollbackString").units;
    assert |units| == 14;
    assert units[..7] == ROLLBACK_UNITS[..7];
    assert units[7..] == ROLLBACK_UNITS[7..];
    assert units == units[..7] + units[7..] == ROLLBACK_UNITS;
    assert TEST_ROLLBACK.fields == [Codec.Num(-1), Codec.Wide(units)];
  }

  /** The bytes of a test job's frame once the key is in its slot: packet id 10, the key, the int in two's
      complement, the count of the string and its units. */
  function TestFrame(key: Key, n: int, units: seq<nat>): seq<byte>
    requires -0x8000_0000 <= n < 0x8000_0000 && |units| < 0x1_0000
    requires forall i | 0 <= i < |units| :: units[i] < Pow256(Codec.WCHAR_WIDTH)
  {
    [10, 0, 0, 0] + ToLe(key, 8)
    + (ToLe(if n < 0 then n + 0x1_0000_0000 else n, 4) + (ToLe(|units|, 2) + Codec.EncodeUnits(units)))
  }

  lemma TestFrameIsPatchedLayout(key: Key, slot: seq<byte>, n: int, units: seq<nat>)
    requires -0x8000_0000 <= n < 0x8000_0000 && |units| < 0x1_0000 && |slot| == KEY_WIDTH
    requires forall i | 0 <= i < |units| :: units[i] < Pow256(Codec.WCHAR_WIDTH)
    ensures Codec.Fits(Codec.SInt(4), Codec.Num(n)) && Codec.Fits(Codec.WideText, Codec.Wide(units))
    ensures var payload := Codec.Encode(Codec.SInt(4), Codec.Num(n)) + Codec.Encode(Codec.WideText, Codec.Wide(units));
      Patch(Layout(GAME2DB_TEST, slot, payload), key) == TestFrame(key, n, units)
  {
    PowersOf256();
    WireFormat.SmallId(10);
    var payload := Codec.Encode(Codec.SInt(4), Codec.Num(n)) + Codec.Encode(Codec.WideText, Codec.Wide(units));
    var frame := Layout(GAME2DB_TEST, slot, payload);
    assert frame[..SLOT] == [10, 0, 0, 0] && frame[HEADER..] == payload;
  }

  lemma StartFrameBytes(slot: seq<byte>)
    ensures Layout(GAME2DB_BATCHED_DB_JOB, slot, []) == [11, 0, 0, 0] + slot
  {
    WireFormat.SmallId(11);
  }

  lemma OnlyFrame(view: Option<seq<byte>>, key: Key)
    requires view.Some? ==> HEADER <= |view.value|
    ensures SentFrames([view], key) == if view.Some? then [Patch(view.value, key)] else []
  {
    assert [view][..0] == [];
  }

  /** The handler's MakeDBJob call, with the rollback packet it builds. */
  method MakeTestJob(wired: bool, session: nat, n: int, units: seq<nat>, slot: seq<byte>, ghost key: Key)
    returns (job: DBJob)
    requires -0x8000_0000 <= n < 0x8000_0000 && |units| < 0x1_0000 && |slot| == KEY_WIDTH
    requires forall i | 0 <= i < |units| :: units[i] < Pow256(Codec.WCHAR_WIDTH)
    ensures fresh(job) && job.Valid() && (job.jobSPBuffer != null ==> fresh(job.jobSPBuffer))
    ensures job.ownerSessionId == session
    ensures job.forRollback == RollbackItem(10, [Codec.Num(-1), Codec.Wide(ROLLBACK_UNITS)])
    ensures wired == job.View().Some?
    ensures wired ==> Patch(job.View().value, key) == TestFrame(key, n, units)
  {
    TestFrameIsPatchedLayout(key, slot, n, units);
    RollbackText();
    var payload := Codec.Encode(TEST_SCHEMA[0], Codec.Num(n)) + Codec.Encode(TEST_SCHEMA[1], Codec.Wide(units));
    job := new DBJob(wired, session, GAME2DB_TEST, slot, payload, TEST_ROLLBACK);
  }

  /** Its AddDBJob and ExecuteBatchJob calls, on a batch that is still empty. */
  method ExecuteSingleJob(batch: BatchedDBJob, job: DBJob, client: DBClient, wired: bool, startSlot: seq<byte>)
    requires batch.Valid() && batch.jobList == [] && job.Valid() && |startSlot| == KEY_WIDTH
    modifies batch`jobList, client, job.jobSPBuffer
    ensures batch.Valid() && batch.jobList == [job]
    ensures client.sent == old(client.sent)
      + (if wired then [[11, 0, 0, 0] + startSlot] else [])
      + (if old(job.View()).Some? then [Patch(old(job.View()).value, batch.dbJobKey)] else [])
  {
    var _ := batch.AddDBJob(job);
    assert forall buffer | buffer in batch.Buffers() :: buffer == job.jobSPBuffer;
    assert batch.Views() == [old(job.View())];
    StartFrameBytes(startSlot);
    OnlyFrame(old(job.View()), batch.dbJobKey);
    var _ := batch.ExecuteBatchJob(client, wired, startSlot);
  }

  /** HandlePacket(TestProcedurePacket&): the packet's two fields go to the database in the one job of a
      new batch, under that batch's key and behind a start frame with packet id 11. */
  method HandleTestProcedure(
    manager: DBJobManager, client: DBClient, wired: bool, session: nat, n: int, units: seq<nat>,
    startSlot: seq<byte>, jobSlot: seq<byte>)
    returns (batch: BatchedDBJob, job: DBJob)
    requires -0x8000_0000 <= n < 0x8000_0000 && |units| < 0x1_0000
    requires forall i | 0 <= i < |units| :: units[i] < Pow256(Codec.WCHAR_WIDTH)
    requires |startSlot| == |jobSlot| == KEY_WIDTH && client as object != manager
    modifies manager, client
    ensures batch.Valid() && batch.jobList == [job] && batch.dbJobKey == old(manager.jobKey)
    ensures batch.ownerSessionId == job.ownerSessionId == session
    ensures job.forRollback == RollbackItem(10, [Codec.Num(-1), Codec.Wide(ROLLBACK_UNITS)])
    ensures manager.jobKey == CounterAfterMake(manager.keyMode, old(manager.jobKey))
    ensures manager.jobMap
      == InsertIfAbsent(old(manager.jobMap), RegisteredKey(manager.keyMode, old(manager.jobKey)), batch)
    ensures client.sent == old(client.sent) +
      if wired then [[11, 0, 0, 0] + startSlot, TestFrame(old(manager.jobKey), n, units)] else []
  {
    batch := MakeBatchedDBJob(manager, session);
    job := MakeTestJob(wired, session, n, units, jobSlot, batch.dbJobKey);
    ExecuteSingleJob(batch, job, client, wired, startSlot);
  }

  /** AssemblePacket(DBJobReply&): all hooks of the batch found under the key, in list order, or none. */
  method AssembleJobReply(manager: DBJobManager, journal: Journal, jobKey: Key, isSuccessed: bool)
    returns (handled: bool)
    requires journal as object != manager
    modifies journal
    ensures handled
    ensures journal.calls == old(journal.calls) +
      if jobKey in manager.jobMap then HookCalls(manager.jobMap[jobKey].jobList, isSuccessed) else []
  {
    var batchJob := manager.GetRegistedDBJob(jobKey);
    if batchJob == null {
      return true;
    }
    if !isSuccessed {
      batchJob.OnRollback(journal);
      return true;
    }
    batchJob.OnCommit(journal);
    return true;
  }
}
