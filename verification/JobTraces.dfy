/** What the database sees and what the jobs see: the frames each batch sends and the hooks each reply
    runs, over every schedule. */
module JobTraces {
  import opened Keys
  import opened JobProtocol
  import opened JobInvariants

  // ---------------------------------------------------------------- frames

  /** The frames of one batch, in the order they were sent. */
  function FramesOf(trace: seq<Frame>, b: nat): seq<Frame> {
    if trace == [] then []
    else
      var last := trace[|trace| - 1];
      FramesOf(trace[..|trace| - 1], b) + if last.batch == b then [last] else []
  }

  /** What executing the first `n` jobs sends. */
  function Sends(b: nat, key: Key, jobs: seq<Job>, n: nat): seq<Frame>
    requires n <= |jobs|
  {
    if n == 0 then [] else Sends(b, key, jobs, n - 1) + JobFrames(b, key, jobs, n - 1)
  }

  /** What one ExecuteBatchJob has sent once it has attempted `n` jobs. */
  function Execution(cfg: Config, b: nat, batch: Batch, n: nat): seq<Frame>
    requires n <= |batch.jobs|
  {
    StartFrames(cfg, b, batch.session, |batch.jobs|) + Sends(b, batch.key, batch.jobs, n)
  }

  ghost predicate FramesOk(cfg: Config, s: State, b: nat)
    requires b < |s.batches|
  {
    var batch := s.batches[b];
    match batch.exec
    case NotRun => FramesOf(s.trace, b) == []
    case Running(n) => n <= |batch.jobs| && FramesOf(s.trace, b) == Execution(cfg, b, batch, n)
    case Finished => FramesOf(s.trace, b) == Execution(cfg, b, batch, |batch.jobs|)
  }

  ghost predicate FrameOk(s: State, f: Frame) {
    && f.batch < |s.batches|
    && s.batches[f.batch].exec != NotRun
    && (f.JobFrame? ==> f.key == s.batches[f.batch].key)
  }

  ghost predicate TraceOk(cfg: Config, s: State) {
    && (forall b | 0 <= b < |s.batches| :: FramesOk(cfg, s, b))
    && (forall i | 0 <= i < |s.trace| :: FrameOk(s, s.trace[i]))
  }

  lemma FramesOfConcat(trace: seq<Frame>, more: seq<Frame>, b: nat)
    requires |more| <= 1
    ensures FramesOf(trace + more, b) == FramesOf(trace, b) + FramesOf(more, b)
  {
    if more == [] {
      assert trace + more == trace;
    } else {
      assert (trace + more)[..|trace|] == trace;
      assert more == [more[0]];
    }
  }

  lemma {:induction false} NoFramesYet(trace: seq<Frame>, b: nat)
    requires forall i | 0 <= i < |trace| :: trace[i].batch != b
    ensures FramesOf(trace, b) == []
  {
    if trace != [] {
      NoFramesYet(trace[..|trace| - 1], b);
    }
  }

  predicate ClientAction(a: Action) {
    a.AddJob? || a.Start? || a.SendJob? || a.FinishExecute?
  }

  /** Outside the client's own actions no batch's work changes and nothing is sent. */
  lemma OthersSendNothing(cfg: Config, s: State, t: nat, a: Action)
    requires Typed(s) && t < |s.threads| && Enabled(cfg, s, t, a) && !ClientAction(a)
    ensures var n := Step(cfg, s, t, a);
      && n.trace == s.trace
      && |s.batches| <= |n.batches|
      && (forall b | 0 <= b < |s.batches| ::
           SameOrigin(s.batches[b], n.batches[b]) && SameWork(s.batches[b], n.batches[b]))
      && (forall b | |s.batches| <= b < |n.batches| :: n.batches[b].exec == NotRun)
  {
  }

  lemma TraceKept(cfg: Config, s: State, t: nat, a: Action)
    requires CoreInv(cfg, s) && TraceOk(cfg, s) && t < |s.threads| && Enabled(cfg, s, t, a)
    ensures TraceOk(cfg, Step(cfg, s, t, a))
  {
    if ClientAction(a) {
      match a
      case AddJob(job) => AddJobTrace(cfg, s, t, job);
      case Start => StartTrace(cfg, s, t);
      case SendJob => SendJobTrace(cfg, s, t);
      case FinishExecute => FinishExecuteTrace(cfg, s, t);
    } else {
      var n := Step(cfg, s, t, a);
      OthersSendNothing(cfg, s, t, a);
      forall b | 0 <= b < |n.batches| ensures FramesOk(cfg, n, b) {
        if b < |s.batches| {
          assert FramesOk(cfg, s, b);
        } else {
          NoFramesYet(s.trace, b);
        }
      }
      forall i | 0 <= i < |n.trace| ensures FrameOk(n, n.trace[i]) {
        assert FrameOk(s, s.trace[i]);
      }
    }
  }

  /** One batch's work and its own frames may change together. */
  lemma OneBatchSends(cfg: Config, s: State, n: State, c: nat, more: seq<Frame>)
    requires TraceOk(cfg, s) && c < |s.batches| == |n.batches|
    requires n.batches == s.batches[c := n.batches[c]] && SameOrigin(s.batches[c], n.batches[c])
    requires n.batches[c].exec.NotRun? ==> s.batches[c].exec.NotRun?
    requires |more| <= 1 && n.trace == s.trace + more
    requires forall i | 0 <= i < |more| :: more[i].batch == c && FrameOk(n, more[i])
    requires FramesOk(cfg, n, c)
    ensures TraceOk(cfg, n)
  {
    forall b | 0 <= b < |n.batches| ensures FramesOk(cfg, n, b) {
      assert FramesOk(cfg, s, b);
      FramesOfConcat(s.trace, more, b);
    }
    forall i | 0 <= i < |n.trace| ensures FrameOk(n, n.trace[i]) {
      if i < |s.trace| {
        assert FrameOk(s, s.trace[i]);
      } else {
        assert n.trace[i] == more[i - |s.trace|];
      }
    }
  }

  lemma AddJobTrace(cfg: Config, s: State, t: nat, job: Job)
    requires Typed(s) && MakersOk(s) && TraceOk(cfg, s) && t < |s.threads| && s.threads[t].Filling?
    ensures TraceOk(cfg, DoAddJob(s, t, job))
  {
    var c := s.threads[t].batch;
    assert MakerOk(s, t, s.threads[t]) && FramesOk(cfg, s, c);
    OneBatchSends(cfg, s, DoAddJob(s, t, job), c, []);
  }

  lemma StartTrace(cfg: Config, s: State, t: nat)
    requires Typed(s) && MakersOk(s) && TraceOk(cfg, s) && t < |s.threads| && s.threads[t].Filling?
    ensures TraceOk(cfg, DoStart(cfg, s, t))
  {
    var c := s.threads[t].batch;
    assert MakerOk(s, t, s.threads[t]) && FramesOk(cfg, s, c);
    var frames := StartFrames(cfg, c, s.batches[c].session, |s.batches[c].jobs|);
    FramesOfConcat(s.trace, frames, c);
    OneBatchSends(cfg, s, DoStart(cfg, s, t), c, frames);
  }

  lemma SendJobTrace(cfg: Config, s: State, t: nat)
    requires Typed(s) && MakersOk(s) && TraceOk(cfg, s) && t < |s.threads| && s.threads[t].Executing?
    requires s.threads[t].attempted < |s.batches[s.threads[t].batch].jobs|
    ensures TraceOk(cfg, DoSendJob(s, t))
  {
    var c := s.threads[t].batch;
    assert MakerOk(s, t, s.threads[t]) && FramesOk(cfg, s, c);
    var frames := JobFrames(c, s.batches[c].key, s.batches[c].jobs, s.threads[t].attempted);
    FramesOfConcat(s.trace, frames, c);
    OneBatchSends(cfg, s, DoSendJob(s, t), c, frames);
  }

  lemma FinishExecuteTrace(cfg: Config, s: State, t: nat)
    requires Typed(s) && MakersOk(s) && TraceOk(cfg, s) && t < |s.threads| && s.threads[t].Executing?
    requires s.threads[t].attempted >= |s.batches[s.threads[t].batch].jobs|
    ensures TraceOk(cfg, DoFinishExecute(s, t))
  {
    var c := s.threads[t].batch;
    assert MakerOk(s, t, s.threads[t]) && FramesOk(cfg, s, c);
    OneBatchSends(cfg, s, DoFinishExecute(s, t), c, []);
  }
}
