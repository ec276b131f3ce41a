/** What becomes of a reply whose key has been sent, whatever else the database answers. */
module JobAnswers {
  import opened Wrappers
  import opened Keys
  import opened JobProtocol
  import opened JobReplies
  import opened JobTheorems

  /** The reply's key has been sent; the reply is not missed; and if it is finished, all hooks were called. */
  ghost predicate Answered(s: State, r: nat, key: Key, ok: bool)
    requires Typed(s)
  {
    && KeySent(s.trace, key)
    && r < |s.replies| && s.replies[r].key == key && s.replies[r].ok == ok && !s.replies[r].status.Missed?
    && (s.replies[r].status.Served? ==> s.replies[r].status.called == |s.batches[s.replies[r].status.batch].jobs|)
  }

  /** The reply's batch sent the key, and the reply has called the first of its hooks in list order. */
  ghost predicate ServedBySender(s: State, r: nat)
    requires Typed(s) && r < |s.replies| && HasBatch(s.replies[r].status)
  {
    var Reply(_, key, ok, status) := s.replies[r];
    && s.batches[status.batch].key == key && s.batches[status.batch].exec != NotRun
    && status.called <= |s.batches[status.batch].jobs|
    && HooksOf(s.hooks, r) == HookLoop(r, status.batch, ok, status.called)
  }

  /** OwnKey, any database, reply by reply: a reply to a key that has been sent by the time it comes in is not
      missed in any continuation of the run. It finds the batch that sent the key, calls that batch's hooks
      in list order, and is finished only after the last of them. */
  lemma SentKeyIsAnswered(
    cfg: Config, n: nat, schedule: seq<Move>, s: State, t: nat, key: Key, ok: bool, more: seq<Move>, z: State)
    requires Run(cfg, n, schedule) == Some(s) && cfg.keyMode.OwnKey?
    requires t < n && s.threads[t].Idle? && KeySent(s.trace, key)
    requires Reaches(cfg, n, schedule + [Move(t, Receive(key, ok))] + more, z)
    ensures Answered(z, |s.replies|, key, ok)
    ensures HasBatch(z.replies[|s.replies|].status) ==> ServedBySender(z, |s.replies|)
  {
    var received := schedule + [Move(t, Receive(key, ok))];
    assert received[..|schedule|] == schedule;
    AnswerStays(cfg, n, received, more, DoReceive(s, t, key, ok), z, |s.replies|, key, ok);
    EveryRunKeepsInv(cfg, n, received + more, z);
    AnswererHasSent(cfg, z, |s.replies|, key, ok);
  }

  lemma AnswererHasSent(cfg: Config, s: State, r: nat, key: Key, ok: bool)
    requires Inv(cfg, s) && cfg.keyMode.OwnKey? && Answered(s, r, key, ok)
    ensures HasBatch(s.replies[r].status) ==> ServedBySender(s, r)
  {
    assert ReplyOk(cfg, s, r);
    if HasBatch(s.replies[r].status) {
      OwnReplyKey(cfg, s, r);
      SentKeyInMap(cfg, s, key);
    }
  }

  lemma {:induction false} AnswerStays(
    cfg: Config, n: nat, schedule: seq<Move>, more: seq<Move>, s: State, z: State, r: nat, key: Key, ok: bool)
    requires Run(cfg, n, schedule) == Some(s) && cfg.keyMode.OwnKey? && Answered(s, r, key, ok)
    requires Reaches(cfg, n, schedule + more, z)
    ensures Answered(z, r, key, ok)
    decreases |more|
  {
    if more == [] {
      assert schedule + more == schedule;
    } else {
      var m := |more| - 1;
      var before := LastMove(cfg, n, schedule, more, z);
      DrawsOnlyGrow(cfg, before, more[m].thread, more[m].action);
      AnswerStays(cfg, n, schedule, more[..m], s, before, r, key, ok);
      EveryRunKeepsInv(cfg, n, schedule + more[..m], before);
      AnswerKept(cfg, before, more[m].thread, more[m].action, r, key, ok);
    }
  }

  lemma AnswerKept(cfg: Config, s: State, t: nat, a: Action, r: nat, key: Key, ok: bool)
    requires Inv(cfg, s) && cfg.keyMode.OwnKey? && Answered(s, r, key, ok)
    requires t < |s.threads| && Enabled(cfg, s, t, a)
    ensures Answered(Step(cfg, s, t, a), r, key, ok)
  {
    StepGrowsReplyWorld(cfg, s, t, a);
    assert ServerOk(s, t, s.threads[t]);
    if Touches(s.threads[t], a, r) {
      OwnAnswerKept(cfg, s, t, a, r, key, ok);
    } else {
      UntouchedReply(cfg, s, t, a, r);
      AnswererHasSent(cfg, s, r, key, ok);
      AnswerCarries(cfg, s, Step(cfg, s, t, a), r, key, ok);
    }
  }

  /** The action is a step of the reply's own server. */
  predicate Touches(pc: Pc, a: Action, r: nat) {
    || (a.Find? && pc.RepLocked? && pc.reply == r)
    || ((a.CallHook? || a.FinishReply?) && pc.Hooking? && pc.reply == r)
  }

  lemma UntouchedReply(cfg: Config, s: State, t: nat, a: Action, r: nat)
    requires Typed(s) && t < |s.threads| && Enabled(cfg, s, t, a) && r < |s.replies| && ServerOk(s, t, s.threads[t])
    requires !Touches(s.threads[t], a, r)
    ensures |s.replies| <= |Step(cfg, s, t, a).replies| && Step(cfg, s, t, a).replies[r] == s.replies[r]
  {
    if !ReplyAction(a) {
      OthersCallNothing(cfg, s, t, a);
    }
  }

  lemma AnswerCarries(cfg: Config, s: State, n: State, r: nat, key: Key, ok: bool)
    requires Typed(s) && Typed(n) && ReplyWorldGrows(cfg, s, n) && Answered(s, r, key, ok)
    requires |s.replies| <= |n.replies| && n.replies[r] == s.replies[r]
    requires HasBatch(s.replies[r].status) ==> ServedBySender(s, r)
    ensures Answered(n, r, key, ok)
  {
    SentStaysSent(s.trace, n.trace, key);
  }

  lemma OwnAnswerKept(cfg: Config, s: State, t: nat, a: Action, r: nat, key: Key, ok: bool)
    requires Inv(cfg, s) && cfg.keyMode.OwnKey? && Answered(s, r, key, ok)
    requires t < |s.threads| && Enabled(cfg, s, t, a) && Touches(s.threads[t], a, r)
    ensures Answered(Step(cfg, s, t, a), r, key, ok)
  {
    assert ServerOk(s, t, s.threads[t]) && ReplyOk(cfg, s, r);
    if a.Find? {
      SentKeyIsRegistered(cfg, s, key);
      assert Answered(DoFind(s, t), r, key, ok);
    } else if a.CallHook? {
      assert Answered(DoCallHook(s, t), r, key, ok);
    } else {
      assert Answered(DoFinishReply(s, t), r, key, ok);
    }
  }

  lemma SentStaysSent(trace: seq<Frame>, longer: seq<Frame>, key: Key)
    requires trace <= longer && KeySent(trace, key)
    ensures KeySent(longer, key)
  {
    var i :| 0 <= i < |trace| && trace[i].JobFrame? && trace[i].key == key;
    assert longer[i] == trace[i];
  }
}
