/** What database replies do to the jobs, over every schedule. */
module JobReplies {
  import opened Keys
  import opened JobProtocol
  import opened JobInvariants
  import opened JobTraces

  /** The hook calls one reply made, in order. */
  function HooksOf(hooks: seq<Hook>, r: nat): seq<Hook> {
    if hooks == [] then []
    else
      var last := hooks[|hooks| - 1];
      HooksOf(hooks[..|hooks| - 1], r) + if last.reply == r then [last] else []
  }

  /** The first `n` iterations of the hook loop over batch `b`. */
  function HookLoop(r: nat, b: nat, ok: bool, n: nat): seq<Hook> {
    if n == 0 then [] else HookLoop(r, b, ok, n - 1) + [Hook(r, b, n - 1, ok)]
  }

  predicate HasBatch(status: ReplyStatus) {
    status.Serving? || status.Served?
  }

  ghost predicate ReplyOk(cfg: Config, s: State, r: nat)
    requires Typed(s) && r < |s.replies|
  {
    var Reply(_, key, ok, status) := s.replies[r];
    && (cfg.honestDb ==> KeySent(s.trace, key))
    && (cfg.honestDb && cfg.keyMode.OwnKey? ==> status != Missed)
    && (if HasBatch(status) then
          && key in s.jobMap && s.jobMap[key] == status.batch
          && status.called <= |s.batches[status.batch].jobs|
          && HooksOf(s.hooks, r) == HookLoop(r, status.batch, ok, status.called)
          && (cfg.honestDb && status.Served? ==> status.called == |s.batches[status.batch].jobs|)
        else
          HooksOf(s.hooks, r) == [])
  }

  predicate Serves(pc: Pc) {
    pc.RepWait? || pc.RepLocked? || pc.RepFound? || pc.Hooking?
  }

  /** A thread at a reply is that reply's server and stands where the reply's status says. */
  ghost predicate ServerOk(s: State, t: nat, pc: Pc)
    requires PcTyped(pc, |s.batches|, |s.replies|)
  {
    Serves(pc) ==>
      && s.replies[pc.reply].server == t
      && s.replies[pc.reply].status ==
         (if pc.RepFound? then Serving(pc.batch, 0) else if pc.Hooking? then Serving(pc.batch, pc.called) else Waiting)
  }

  ghost predicate RepliesOk(cfg: Config, s: State)
    requires Typed(s)
  {
    && (forall r | 0 <= r < |s.replies| :: ReplyOk(cfg, s, r))
    && (forall t | 0 <= t < |s.threads| :: ServerOk(s, t, s.threads[t]))
    && (forall i | 0 <= i < |s.hooks| :: s.hooks[i].reply < |s.replies|)
  }

  // ---------------------------------------------------------------- what an honest database implies

  /** A key that was sent belongs to one batch, and that batch has started executing. */
  lemma SentKeyHasSender(cfg: Config, s: State, key: Key) returns (b: nat)
    requires CoreInv(cfg, s) && TraceOk(cfg, s) && KeySent(s.trace, key)
    ensures b < |s.batches| && s.batches[b].key == key && s.batches[b].exec != NotRun
  {
    var i :| 0 <= i < |s.trace| && s.trace[i].JobFrame? && s.trace[i].key == key;
    assert FrameOk(s, s.trace[i]);
    b := s.trace[i].batch;
  }

  /** With keys registered as sent, the batch found under a sent key is its sender; with second keys
      nothing is ever found under one. */
  lemma SentKeyInMap(cfg: Config, s: State, key: Key)
    requires CoreInv(cfg, s) && TraceOk(cfg, s) && KeySent(s.trace, key) && key in s.jobMap
    ensures cfg.keyMode.OwnKey?
    ensures s.batches[s.jobMap[key]].key == key && s.batches[s.jobMap[key]].exec != NotRun
  {
    var b := SentKeyHasSender(cfg, s, key);
    assert CtorKey(s, b) && MapKey(cfg, s, key, s.jobMap[key]);
    if cfg.keyMode.OwnKey? {
      KeyDeterminesBatch(cfg, s, key, b);
    }
  }

  /** With keys registered as sent, a key that was sent is in the map: registration precedes execution. */
  lemma SentKeyIsRegistered(cfg: Config, s: State, key: Key)
    requires CoreInv(cfg, s) && TraceOk(cfg, s) && KeySent(s.trace, key) && cfg.keyMode.OwnKey?
    ensures key in s.jobMap
  {
    var b := SentKeyHasSender(cfg, s, key);
    assert BatchOk(s, b);
    var k :| k in s.jobMap && s.jobMap[k] == b;
    assert MapKey(cfg, s, k, b);
  }

  // ---------------------------------------------------------------- preservation

  lemma HooksOfConcat(hooks: seq<Hook>, more: seq<Hook>, r: nat)
    requires |more| <= 1
    ensures HooksOf(hooks + more, r) == HooksOf(hooks, r) + HooksOf(more, r)
  {
    if more == [] {
      assert hooks + more == hooks;
    } else {
      assert (hooks + more)[..|hooks|] == hooks;
      assert more == [more[0]];
    }
  }

  lemma {:induction false} NoHooksYet(hooks: seq<Hook>, r: nat)
    requires forall i | 0 <= i < |hooks| :: hooks[i].reply < r
    ensures HooksOf(hooks, r) == []
  {
    if hooks != [] {
      NoHooksYet(hooks[..|hooks| - 1], r);
    }
  }

  /** The surroundings of the replies only grow, and no batch that has started gets another job. */
  ghost predicate ReplyWorldGrows(cfg: Config, s: State, n: State)
    requires Typed(s)
  {
    && (forall k | k in s.jobMap :: k in n.jobMap && n.jobMap[k] == s.jobMap[k])
    && s.trace <= n.trace
    && |s.batches| <= |n.batches|
    && (forall b | 0 <= b < |s.batches| :: s.batches[b].jobs <= n.batches[b].jobs)
    && (forall b | 0 <= b < |s.batches| && s.batches[b].exec != NotRun :: s.batches[b].jobs == n.batches[b].jobs)
  }

  /** Every step is of that kind. */
  lemma StepGrowsReplyWorld(cfg: Config, s: State, t: nat, a: Action)
    requires CoreInv(cfg, s) && t < |s.threads| && Enabled(cfg, s, t, a)
    ensures ReplyWorldGrows(cfg, s, Step(cfg, s, t, a))
  {
    if ClientAction(a) {
      ClientGrowsReplyWorld(cfg, s, t, a);
    } else {
      StepGrowsMap(cfg, s, t, a);
      OthersSendNothing(cfg, s, t, a);
    }
  }

  lemma ClientGrowsReplyWorld(cfg: Config, s: State, t: nat, a: Action)
    requires CoreInv(cfg, s) && t < |s.threads| && Enabled(cfg, s, t, a) && ClientAction(a)
    ensures ReplyWorldGrows(cfg, s, Step(cfg, s, t, a))
  {
    assert MakerOk(s, t, s.threads[t]);
  }

  /** No step takes an entry out of the map or changes one. */
  lemma StepGrowsMap(cfg: Config, s: State, t: nat, a: Action)
    requires CoreInv(cfg, s) && t < |s.threads| && Enabled(cfg, s, t, a)
    ensures forall k | k in s.jobMap :: k in Step(cfg, s, t, a).jobMap && Step(cfg, s, t, a).jobMap[k] == s.jobMap[k]
  {
    if a.Insert? {
      InsertIsFresh(cfg, s, t);
    } else if a.Erase? {
      EraseFindsNothing(cfg, s, s.threads[t].batch);
    }
  }

  lemma SameReplyOk(cfg: Config, s: State, n: State, r: nat)
    requires CoreInv(cfg, s) && TraceOk(cfg, s) && Typed(n) && ReplyWorldGrows(cfg, s, n)
    requires r < |s.replies| && r < |n.replies| && n.replies[r] == s.replies[r]
    requires HooksOf(n.hooks, r) == HooksOf(s.hooks, r)
    requires ReplyOk(cfg, s, r)
    ensures ReplyOk(cfg, n, r)
  {
    var key := s.replies[r].key;
    if cfg.honestDb {
      var i :| 0 <= i < |s.trace| && s.trace[i].JobFrame? && s.trace[i].key == key;
      assert n.trace[i] == s.trace[i];
      if key in s.jobMap {
        SentKeyInMap(cfg, s, key);
      }
    }
  }

  /** Steps that do not touch replies or hooks. */
  lemma OthersKeepReplies(cfg: Config, s: State, n: State, t: nat)
    requires CoreInv(cfg, s) && TraceOk(cfg, s) && RepliesOk(cfg, s) && Typed(n) && ReplyWorldGrows(cfg, s, n)
    requires t < |s.threads| == |n.threads| && n.threads == s.threads[t := n.threads[t]]
    requires n.replies == s.replies && n.hooks == s.hooks
    requires ServerOk(n, t, n.threads[t])
    ensures RepliesOk(cfg, n)
  {
    forall r | 0 <= r < |n.replies| ensures ReplyOk(cfg, n, r) {
      assert ReplyOk(cfg, s, r);
      SameReplyOk(cfg, s, n, r);
    }
    forall u | 0 <= u < |n.threads| ensures ServerOk(n, u, n.threads[u]) {
      assert u != t ==> ServerOk(s, u, s.threads[u]);
    }
  }

  /** Steps of the server of reply `q`, which may run one hook. */
  lemma ServerKeepsReplies(cfg: Config, s: State, n: State, t: nat, q: nat, more: seq<Hook>)
    requires CoreInv(cfg, s) && TraceOk(cfg, s) && RepliesOk(cfg, s) && Typed(n) && ReplyWorldGrows(cfg, s, n)
    requires t < |s.threads| == |n.threads| && n.threads == s.threads[t := n.threads[t]]
    requires q < |s.replies| == |n.replies| && n.replies == s.replies[q := n.replies[q]]
    requires s.replies[q].server == t
    requires |more| <= 1 && n.hooks == s.hooks + more && (more != [] ==> more[0].reply == q)
    requires ReplyOk(cfg, n, q) && ServerOk(n, t, n.threads[t])
    ensures RepliesOk(cfg, n)
  {
    OtherRepliesOk(cfg, s, n, q, more);
    HooksStayKnown(s.hooks, more, q, |s.replies|);
    OtherServersOk(cfg, s, n, t, q);
  }

  lemma OtherRepliesOk(cfg: Config, s: State, n: State, q: nat, more: seq<Hook>)
    requires CoreInv(cfg, s) && TraceOk(cfg, s) && RepliesOk(cfg, s) && Typed(n) && ReplyWorldGrows(cfg, s, n)
    requires q < |s.replies| == |n.replies| && n.replies == s.replies[q := n.replies[q]] && ReplyOk(cfg, n, q)
    requires |more| <= 1 && n.hooks == s.hooks + more && (more != [] ==> more[0].reply == q)
    ensures forall r | 0 <= r < |n.replies| :: ReplyOk(cfg, n, r)
  {
    forall r | 0 <= r < |n.replies| ensures ReplyOk(cfg, n, r) {
      if r != q {
        OtherReplyOk(cfg, s, n, q, more, r);
      }
    }
  }

  lemma HooksStayKnown(hooks: seq<Hook>, more: seq<Hook>, q: nat, replies: nat)
    requires forall i | 0 <= i < |hooks| :: hooks[i].reply < replies
    requires q < replies && |more| <= 1 && (more != [] ==> more[0].reply == q)
    ensures forall i | 0 <= i < |hooks + more| :: (hooks + more)[i].reply < replies
  {
  }

  lemma OtherReplyOk(cfg: Config, s: State, n: State, q: nat, more: seq<Hook>, r: nat)
    requires CoreInv(cfg, s) && TraceOk(cfg, s) && Typed(n) && ReplyWorldGrows(cfg, s, n)
    requires r < |s.replies| == |n.replies| && n.replies[r] == s.replies[r] && ReplyOk(cfg, s, r) && r != q
    requires |more| <= 1 && n.hooks == s.hooks + more && (more != [] ==> more[0].reply == q)
    ensures ReplyOk(cfg, n, r)
  {
    OtherHooksSame(s.hooks, more, q, r);
    SameReplyOk(cfg, s, n, r);
  }

  lemma OtherHooksSame(hooks: seq<Hook>, more: seq<Hook>, q: nat, r: nat)
    requires |more| <= 1 && (more != [] ==> more[0].reply == q) && r != q
    ensures HooksOf(hooks + more, r) == HooksOf(hooks, r)
  {
    HooksOfConcat(hooks, more, r);
    assert HooksOf(more, r) == [];
  }

  lemma OtherServersOk(cfg: Config, s: State, n: State, t: nat, q: nat)
    requires Typed(s) && RepliesOk(cfg, s) && Typed(n)
    requires t < |s.threads| == |n.threads| && n.threads == s.threads[t := n.threads[t]]
    requires q < |s.replies| == |n.replies| && n.replies == s.replies[q := n.replies[q]]
    requires s.replies[q].server == t && ServerOk(n, t, n.threads[t])
    ensures forall u | 0 <= u < |n.threads| :: ServerOk(n, u, n.threads[u])
  {
    forall u | 0 <= u < |n.threads| ensures ServerOk(n, u, n.threads[u]) {
      assert u != t ==> ServerOk(s, u, s.threads[u]);
    }
  }

  lemma ReceiveReplies(cfg: Config, s: State, t: nat, key: Key, ok: bool)
    requires CoreInv(cfg, s) && TraceOk(cfg, s) && RepliesOk(cfg, s)
    requires t < |s.threads| && Enabled(cfg, s, t, Receive(key, ok))
    ensures RepliesOk(cfg, DoReceive(s, t, key, ok))
  {
    var n := DoReceive(s, t, key, ok);
    NoHooksYet(s.hooks, |s.replies|);
    NewServerOk(s, t, key, ok);
    forall r | 0 <= r < |n.replies| ensures ReplyOk(cfg, n, r) {
      assert r < |s.replies| ==> ReplyOk(cfg, s, r);
    }
  }

  lemma NewServerOk(s: State, t: nat, key: Key, ok: bool)
    requires Typed(s) && t < |s.threads|
    requires forall u | 0 <= u < |s.threads| :: ServerOk(s, u, s.threads[u])
    ensures var n := DoReceive(s, t, key, ok); forall u | 0 <= u < |n.threads| :: ServerOk(n, u, n.threads[u])
  {
    var n := DoReceive(s, t, key, ok);
    forall u | 0 <= u < |n.threads| ensures ServerOk(n, u, n.threads[u]) {
      assert u != t ==> ServerOk(s, u, s.threads[u]);
    }
  }

  lemma FindReplies(cfg: Config, s: State, t: nat)
    requires CoreInv(cfg, s) && TraceOk(cfg, s) && RepliesOk(cfg, s)
    requires t < |s.threads| && Enabled(cfg, s, t, Find)
    ensures RepliesOk(cfg, DoFind(s, t))
  {
    StepGrowsReplyWorld(cfg, s, t, Find);
    FoundReplyOk(cfg, s, t);
    assert ServerOk(s, t, s.threads[t]);
    ServerKeepsReplies(cfg, s, DoFind(s, t), t, s.threads[t].reply, []);
  }

  lemma FoundReplyOk(cfg: Config, s: State, t: nat)
    requires CoreInv(cfg, s) && TraceOk(cfg, s) && RepliesOk(cfg, s)
    requires t < |s.threads| && Enabled(cfg, s, t, Find)
    ensures ReplyOk(cfg, DoFind(s, t), s.threads[t].reply)
    ensures ServerOk(DoFind(s, t), t, DoFind(s, t).threads[t])
  {
    var r := s.threads[t].reply;
    assert ServerOk(s, t, s.threads[t]) && ReplyOk(cfg, s, r);
    if cfg.honestDb && cfg.keyMode.OwnKey? {
      SentKeyIsRegistered(cfg, s, s.replies[r].key);
    }
  }

  lemma CallHookReplies(cfg: Config, s: State, t: nat)
    requires CoreInv(cfg, s) && TraceOk(cfg, s) && RepliesOk(cfg, s)
    requires t < |s.threads| && Enabled(cfg, s, t, CallHook)
    ensures RepliesOk(cfg, DoCallHook(s, t))
  {
    var Hooking(q, b, i) := s.threads[t];
    CalledReplyOk(cfg, s, t);
    ServerKeepsReplies(cfg, s, DoCallHook(s, t), t, q, [Hook(q, b, i, s.replies[q].ok)]);
  }

  lemma CalledReplyOk(cfg: Config, s: State, t: nat)
    requires Typed(s) && RepliesOk(cfg, s)
    requires t < |s.threads| && Enabled(cfg, s, t, CallHook)
    ensures s.replies[s.threads[t].reply].server == t
    ensures ReplyOk(cfg, DoCallHook(s, t), s.threads[t].reply)
    ensures ServerOk(DoCallHook(s, t), t, DoCallHook(s, t).threads[t])
  {
    var Hooking(q, b, i) := s.threads[t];
    assert ServerOk(s, t, s.threads[t]) && ReplyOk(cfg, s, q);
    HooksOfConcat(s.hooks, [Hook(q, b, i, s.replies[q].ok)], q);
  }

  lemma FinishReplies(cfg: Config, s: State, t: nat)
    requires CoreInv(cfg, s) && TraceOk(cfg, s) && RepliesOk(cfg, s)
    requires t < |s.threads| && Enabled(cfg, s, t, FinishReply)
    ensures RepliesOk(cfg, DoFinishReply(s, t))
  {
    var r := s.threads[t].reply;
    assert ServerOk(s, t, s.threads[t]) && ReplyOk(cfg, s, r);
    assert ReplyOk(cfg, DoFinishReply(s, t), r);
    ServerKeepsReplies(cfg, s, DoFinishReply(s, t), t, r, []);
  }

  predicate ReplyAction(a: Action) {
    a.Receive? || a.Find? || a.CallHook? || a.FinishReply?
  }

  lemma OthersCallNothing(cfg: Config, s: State, t: nat, a: Action)
    requires Typed(s) && t < |s.threads| && Enabled(cfg, s, t, a) && !ReplyAction(a)
    requires ServerOk(s, t, s.threads[t])
    ensures var n := Step(cfg, s, t, a);
      && n.replies == s.replies && n.hooks == s.hooks
      && n.threads == s.threads[t := n.threads[t]]
      && ServerOk(n, t, n.threads[t])
  {
    if a.Lock? {
      assert ServerOk(DoLock(s, t), t, DoLock(s, t).threads[t]);
    } else if a.Unlock? {
      assert ServerOk(DoUnlock(s, t), t, DoUnlock(s, t).threads[t]);
    } else {
      assert !Serves(Step(cfg, s, t, a).threads[t]);
    }
  }

  lemma OtherActionReplies(cfg: Config, s: State, t: nat, a: Action)
    requires CoreInv(cfg, s) && TraceOk(cfg, s) && RepliesOk(cfg, s)
    requires t < |s.threads| && Enabled(cfg, s, t, a) && !ReplyAction(a)
    ensures RepliesOk(cfg, Step(cfg, s, t, a))
  {
    assert ServerOk(s, t, s.threads[t]);
    var n := Step(cfg, s, t, a);
    OthersCallNothing(cfg, s, t, a);
    StepGrowsReplyWorld(cfg, s, t, a);
    OthersKeepReplies(cfg, s, n, t);
  }

  lemma RepliesKept(cfg: Config, s: State, t: nat, a: Action)
    requires CoreInv(cfg, s) && TraceOk(cfg, s) && RepliesOk(cfg, s)
    requires t < |s.threads| && Enabled(cfg, s, t, a)
    ensures RepliesOk(cfg, Step(cfg, s, t, a))
  {
    if !ReplyAction(a) {
      OtherActionReplies(cfg, s, t, a);
    } else if a.Receive? {
      ReceiveReplies(cfg, s, t, a.key, a.ok);
    } else if a.Find? {
      FindReplies(cfg, s, t);
    } else if a.CallHook? {
      CallHookReplies(cfg, s, t);
    } else {
      FinishReplies(cfg, s, t);
    }
  }

  // ---------------------------------------------------------------- counting hooks

  /** `HooksPast`: replies whose loop over `batch` has called job `index`. `Completed`: finished replies
      for a key. `Underway`: unfinished replies that are past job `index`. `Premature`: replies that
      finished before the batch had a job `index`. */
  datatype Query =
    | HooksPast(batch: nat, index: nat, ok: bool)
    | Completed(key: Key, ok: bool)
    | Underway(batch: nat, index: nat, ok: bool)
    | Premature(batch: nat, index: nat, ok: bool)

  predicate Matches(reply: Reply, q: Query) {
    match q
    case HooksPast(b, i, ok) =>
      reply.ok == ok && HasBatch(reply.status) && reply.status.batch == b && reply.status.called > i
    case Completed(key, ok) =>
      reply.ok == ok && reply.status.Served? && reply.key == key
    case Underway(b, i, ok) =>
      reply.ok == ok && reply.status.Serving? && reply.status.batch == b && reply.status.called > i
    case Premature(b, i, ok) =>
      reply.ok == ok && reply.status.Served? && reply.status.batch == b && reply.status.called <= i
  }

  function Tally(replies: seq<Reply>, q: Query): nat {
    if replies == [] then 0
    else Tally(replies[..|replies| - 1], q) + if Matches(replies[|replies| - 1], q) then 1 else 0
  }

  /** How often job `index` of batch `b` had its commit (`ok`) or rollback hook called. */
  function HookCount(hooks: seq<Hook>, b: nat, index: nat, ok: bool): nat {
    if hooks == [] then 0
    else
      var last := hooks[|hooks| - 1];
      HookCount(hooks[..|hooks| - 1], b, index, ok)
      + if last.batch == b && last.index == index && last.ok == ok then 1 else 0
  }

  lemma {:induction false} TallyUpdate(replies: seq<Reply>, r: nat, reply: Reply, q: Query)
    requires r < |replies|
    ensures Tally(replies[r := reply], q) + (if Matches(replies[r], q) then 1 else 0)
         == Tally(replies, q) + if Matches(reply, q) then 1 else 0
  {
    var n := |replies| - 1;
    if r == n {
      assert replies[r := reply][..n] == replies[..n];
    } else {
      assert replies[r := reply][..n] == replies[..n][r := reply];
      TallyUpdate(replies[..n], r, reply, q);
    }
  }

  ghost predicate TallyOk(s: State) {
    forall b: nat, i: nat, ok: bool :: HookCount(s.hooks, b, i, ok) == Tally(s.replies, HooksPast(b, i, ok))
  }

  /** A reply that moves on counts one more hook exactly when it calls it. */
  lemma TallyOfServer(s: State, n: State, r: nat, more: seq<Hook>)
    requires TallyOk(s) && r < |s.replies| == |n.replies| && n.replies == s.replies[r := n.replies[r]]
    requires |more| <= 1 && n.hooks == s.hooks + more
    requires forall b: nat, i: nat, ok: bool ::
      HookCount(more, b, i, ok) + (if Matches(s.replies[r], HooksPast(b, i, ok)) then 1 else 0)
      == if Matches(n.replies[r], HooksPast(b, i, ok)) then 1 else 0
    ensures TallyOk(n)
  {
    forall b: nat, i: nat, ok: bool
      ensures HookCount(n.hooks, b, i, ok) == Tally(n.replies, HooksPast(b, i, ok))
    {
      TallyUpdate(s.replies, r, n.replies[r], HooksPast(b, i, ok));
      if more == [] {
        assert n.hooks == s.hooks;
      } else {
        assert n.hooks[..|s.hooks|] == s.hooks && more[..0] == [];
      }
      assert HookCount(n.hooks, b, i, ok) == HookCount(s.hooks, b, i, ok) + HookCount(more, b, i, ok);
    }
  }

  lemma TallyKept(cfg: Config, s: State, t: nat, a: Action)
    requires Typed(s) && RepliesOk(cfg, s) && TallyOk(s)
    requires t < |s.threads| && Enabled(cfg, s, t, a)
    ensures TallyOk(Step(cfg, s, t, a))
  {
    assert ServerOk(s, t, s.threads[t]);
    if !ReplyAction(a) {
      OthersCallNothing(cfg, s, t, a);
    } else if a.Receive? {
      TallyOfReceive(s, t, a.key, a.ok);
    } else if a.CallHook? {
      TallyOfHook(cfg, s, t);
    } else if a.Find? {
      TallyOfMark(s, DoFind(s, t), s.threads[t].reply);
    } else {
      TallyOfMark(s, DoFinishReply(s, t), s.threads[t].reply);
    }
  }

  lemma TallyOfReceive(s: State, t: nat, key: Key, ok: bool)
    requires Typed(s) && TallyOk(s) && t < |s.threads|
    ensures TallyOk(DoReceive(s, t, key, ok))
  {
    assert DoReceive(s, t, key, ok).replies[..|s.replies|] == s.replies;
  }

  lemma TallyOfMark(s: State, n: State, r: nat)
    requires TallyOk(s) && r < |s.replies| == |n.replies| && n.replies == s.replies[r := n.replies[r]]
    requires n.hooks == s.hooks
    requires forall b: nat, i: nat, ok: bool ::
      Matches(s.replies[r], HooksPast(b, i, ok)) <==> Matches(n.replies[r], HooksPast(b, i, ok))
    ensures TallyOk(n)
  {
    assert n.hooks == s.hooks + [];
    TallyOfServer(s, n, r, []);
  }

  lemma TallyOfHook(cfg: Config, s: State, t: nat)
    requires Typed(s) && RepliesOk(cfg, s) && TallyOk(s)
    requires t < |s.threads| && Enabled(cfg, s, t, CallHook)
    ensures TallyOk(DoCallHook(s, t))
  {
    var Hooking(r, b, i) := s.threads[t];
    var more := [Hook(r, b, i, s.replies[r].ok)];
    assert ServerOk(s, t, s.threads[t]);
    assert more[..0] == [];
    TallyOfServer(s, DoCallHook(s, t), r, more);
  }
}
