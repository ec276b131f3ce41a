/** Who gets a broadcast, how often and in which order, over every schedule. */
module BroadcastTheorems {
  import opened Wrappers
  import opened BroadcastProtocol

  /** The sessions one broadcast has been sent to, in order. */
  function Recipients(sent: seq<Delivery>, c: nat): seq<nat> {
    if sent == [] then []
    else
      var last := sent[|sent| - 1];
      Recipients(sent[..|sent| - 1], c) + if last.cast == c then [last.session] else []
  }

  ghost predicate Ascending(ids: seq<nat>) {
    forall i, j | 0 <= i < j < |ids| :: ids[i] < ids[j]
  }

  // ---------------------------------------------------------------- invariants

  ghost predicate CastOk(s: State, c: nat)
    requires c < |s.casts|
  {
    var cast := s.casts[c];
    var got := Recipients(s.sent, c);
    && Ascending(cast.list)
    && (forall x | x in cast.list :: x in cast.snapshot)
    && (cast.phase != Copying ==> forall x | x in cast.snapshot :: x in cast.list)
    && cast.snapshot <= s.issued
    && cast.gone <= s.issued && cast.gone !! s.mapped
    && cast.next <= |cast.list|
    && (cast.phase == Copying ==> cast.next == 0)
    && (cast.phase == Finished ==> cast.next == |cast.list|)
    && Ascending(got)
    && (forall x | x in got :: x in cast.list[..cast.next] && x !in cast.gone)
    && (forall j | 0 <= j < cast.next ::
         cast.list[j] in s.mapped && cast.list[j] !in s.released ==> cast.list[j] in got)
  }

  ghost predicate PcOk(s: State, t: nat, pc: Pc)
    requires InCast(pc) ==> pc.cast < |s.casts|
  {
    && (InCast(pc) ==>
      var cast := s.casts[pc.cast];
      && cast.thread == t
      && cast.phase == (if pc.CopyWait? || pc.CopyLoop? then Copying else Sending)
      && (pc.CopyWait? ==> cast.list == [])
      && (pc.CopyLoop? ==>
        && cast.snapshot == s.idSet
        && (forall y | y in s.idSet && cast.list != [] && y <= cast.list[|cast.list| - 1] :: y in cast.list))
      && (pc.Found? || pc.Cleared? ==> cast.next < |cast.list| && cast.list[cast.next] !in cast.gone))
    && (pc.EnterWait? || pc.EnterLocked? ==> pc.id in s.entered && pc.id !in s.inserted)
  }

  predicate HoldsLock(pc: Pc) {
    pc.EnterLocked? || pc.LeaveLocked? || pc.SetUpdated? || pc.CopyLoop?
  }

  predicate Entering(pc: Pc) {
    pc.EnterWait? || pc.EnterLocked?
  }

  ghost predicate SetsOk(s: State) {
    && s.mapped <= s.issued && s.inserted <= s.entered <= s.issued
    && s.cleared <= s.inserted && s.idSet == s.inserted - s.cleared
    && (forall t, u | 0 <= t < u < |s.threads| && Entering(s.threads[t]) && Entering(s.threads[u]) ::
         s.threads[t].id != s.threads[u].id)
  }

  ghost predicate LockOk(s: State) {
    forall t | 0 <= t < |s.threads| :: HoldsLock(s.threads[t]) <==> s.lock == Some(t)
  }

  /** Per broadcasting thread: calls in program order, ascending ids within a call. */
  ghost predicate InOrder(a: Delivery, b: Delivery) {
    a.cast < b.cast || (a.cast == b.cast && a.session < b.session)
  }

  ghost predicate OrderOk(s: State) {
    && (forall p | 0 <= p < |s.sent| :: s.sent[p].cast < |s.casts|)
    && (forall p, q | 0 <= p < q < |s.sent| && s.sent[p].cast < |s.casts| && s.sent[q].cast < |s.casts| ::
      s.casts[s.sent[p].cast].thread == s.casts[s.sent[q].cast].thread ==> InOrder(s.sent[p], s.sent[q]))
  }

  /** A thread's current call is its latest. */
  ghost predicate LatestOk(s: State)
    requires Typed(s)
  {
    forall t, c | 0 <= t < |s.threads| && InCast(s.threads[t]) && 0 <= c < |s.casts| && s.casts[c].thread == t ::
      c <= s.threads[t].cast
  }

  ghost predicate Inv(s: State) {
    && Typed(s) && SetsOk(s) && LockOk(s) && OrderOk(s) && LatestOk(s)
    && (forall c | 0 <= c < |s.casts| :: CastOk(s, c))
    && (forall t | 0 <= t < |s.threads| :: PcOk(s, t, s.threads[t]))
  }

  // ---------------------------------------------------------------- what a step leaves alone

  /** The world around the casts: ids are never reused and releases are final. */
  ghost predicate WorldGrows(s: State, n: State) {
    && s.issued <= n.issued && s.released <= n.released && n.mapped * s.issued <= s.mapped
  }

  lemma SameCastOk(s: State, n: State, c: nat)
    requires c < |s.casts| && c < |n.casts| && n.casts[c] == s.casts[c] && WorldGrows(s, n)
    requires CastOk(s, c) && Recipients(n.sent, c) == Recipients(s.sent, c)
    ensures CastOk(n, c)
  {
  }

  /** A step of thread `t` that changes no cast and sends nothing. */
  lemma KeepsCasts(s: State, n: State)
    requires Inv(s) && n.casts == s.casts && n.sent == s.sent && WorldGrows(s, n)
    ensures forall c | 0 <= c < |n.casts| :: CastOk(n, c)
  {
    forall c | 0 <= c < |n.casts| ensures CastOk(n, c) {
      assert CastOk(s, c);
      SameCastOk(s, n, c);
    }
  }

  /** Other threads do not notice a step that leaves the id set to its lock holder and other casts alone. */
  lemma KeepsPcs(s: State, n: State, t: nat)
    requires Inv(s) && Typed(n) && t < |s.threads| == |n.threads| && n.threads == s.threads[t := n.threads[t]]
    requires |s.casts| <= |n.casts|
    requires forall c | 0 <= c < |s.casts| && n.casts[c] != s.casts[c] :: s.casts[c].thread == t
    requires n.idSet == s.idSet || s.lock == Some(t)
    requires s.entered <= n.entered
    requires forall x | x in n.inserted && x !in s.inserted :: Entering(s.threads[t]) && s.threads[t].id == x
    requires PcOk(n, t, n.threads[t])
    ensures forall u | 0 <= u < |n.threads| :: PcOk(n, u, n.threads[u])
  {
    forall u | 0 <= u < |n.threads| ensures PcOk(n, u, n.threads[u]) {
      if u != t {
        assert PcOk(s, u, s.threads[u]);
        assert HoldsLock(s.threads[u]) ==> s.lock == Some(u);
      }
    }
  }

  /** Steps outside the send loop's bookkeeping: environment, set updates and locks. */
  lemma QuietKeeps(s: State, n: State, t: nat)
    requires Inv(s) && Typed(n) && t < |s.threads| == |n.threads| && n.threads == s.threads[t := n.threads[t]]
    requires n.casts == s.casts && n.sent == s.sent && WorldGrows(s, n) && SetsOk(n) && LockOk(n)
    requires n.idSet == s.idSet || s.lock == Some(t)
    requires s.entered <= n.entered
    requires forall x | x in n.inserted && x !in s.inserted :: Entering(s.threads[t]) && s.threads[t].id == x
    requires PcOk(n, t, n.threads[t])
    requires InCast(n.threads[t]) ==> InCast(s.threads[t]) && n.threads[t].cast == s.threads[t].cast
    ensures Inv(n)
  {
    KeepsCasts(s, n);
    KeepsPcs(s, n, t);
  }

  lemma WorldStepKeeps(s: State, t: nat, a: Action)
    requires Inv(s) && t < |s.threads| && Enabled(s, t, a)
    requires a.MapSession? || a.Unmap? || a.Release?
    ensures Inv(Step(s, t, a))
  {
    assert PcOk(s, t, s.threads[t]);
    QuietKeeps(s, Step(s, t, a), t);
  }

  lemma CallKeeps(s: State, t: nat, a: Action)
    requires Inv(s) && t < |s.threads| && Enabled(s, t, a)
    requires a.Enter? || a.Leave?
    ensures Inv(Step(s, t, a))
  {
    assert forall u | 0 <= u < |s.threads| :: PcOk(s, u, s.threads[u]);
    QuietKeeps(s, Step(s, t, a), t);
  }

  lemma UpdateKeeps(s: State, t: nat)
    requires Inv(s) && t < |s.threads| && Enabled(s, t, Update)
    ensures Inv(DoUpdate(s, t))
  {
    assert PcOk(s, t, s.threads[t]);
    QuietKeeps(s, DoUpdate(s, t), t);
  }

  /** A broadcaster's step changes its own call and may send one copy of it. */
  lemma OwnCastKeeps(s: State, n: State, t: nat, c: nat, more: seq<Delivery>)
    requires Inv(s) && Typed(n) && t < |s.threads| == |n.threads| && n.threads == s.threads[t := n.threads[t]]
    requires c < |s.casts| == |n.casts| && n.casts == s.casts[c := n.casts[c]]
    requires s.casts[c].thread == t && n.casts[c].thread == t
    requires WorldGrows(s, n) && n.idSet == s.idSet && n.entered == s.entered && n.inserted == s.inserted
    requires SetsOk(n) && LockOk(n)
    requires |more| <= 1 && n.sent == s.sent + more
    requires forall d | d in more ::
      && d.cast == c && InCast(s.threads[t]) && s.threads[t].cast == c
      && forall x | x in Recipients(s.sent, c) :: x < d.session
    requires CastOk(n, c) && PcOk(n, t, n.threads[t])
    requires InCast(n.threads[t]) ==> InCast(s.threads[t]) && n.threads[t].cast == s.threads[t].cast
    ensures Inv(n)
  {
    forall k | 0 <= k < |n.casts| ensures CastOk(n, k) {
      if k != c {
        assert CastOk(s, k);
        RecipientsConcat(s.sent, more, k);
        SameCastOk(s, n, k);
      }
    }
    KeepsPcs(s, n, t);
    SendKeepsOrder(s, n, t, c, more);
  }

  lemma RecipientsConcat(sent: seq<Delivery>, more: seq<Delivery>, c: nat)
    requires |more| <= 1
    ensures Recipients(sent + more, c) == Recipients(sent, c) + Recipients(more, c)
    ensures (forall d | d in more :: d.cast != c) ==> Recipients(more, c) == []
  {
    if more == [] {
      assert sent + more == sent;
    } else {
      assert (sent + more)[..|sent|] == sent;
      assert more == [more[0]] && more[0] in more;
    }
  }

  lemma {:induction false} SentIsReceived(sent: seq<Delivery>, p: nat)
    requires p < |sent|
    ensures sent[p].session in Recipients(sent, sent[p].cast)
  {
    if p < |sent| - 1 {
      SentIsReceived(sent[..|sent| - 1], p);
    }
  }

  lemma SendKeepsOrder(s: State, n: State, t: nat, c: nat, more: seq<Delivery>)
    requires Typed(s) && OrderOk(s) && LatestOk(s) && t < |s.threads|
    requires c < |s.casts| == |n.casts| && n.casts == s.casts[c := n.casts[c]]
    requires s.casts[c].thread == t && n.casts[c].thread == t
    requires |more| <= 1 && n.sent == s.sent + more
    requires forall d | d in more ::
      && d.cast == c && InCast(s.threads[t]) && s.threads[t].cast == c
      && forall x | x in Recipients(s.sent, c) :: x < d.session
    ensures OrderOk(n)
  {
    assert forall k | 0 <= k < |n.casts| :: n.casts[k].thread == s.casts[k].thread;
    forall p | 0 <= p < |n.sent| ensures n.sent[p].cast < |n.casts| {
      assert p < |s.sent| ==> n.sent[p] == s.sent[p];
      assert p >= |s.sent| ==> n.sent[p] in more;
    }
    forall p, q | 0 <= p < q < |n.sent| && n.casts[n.sent[p].cast].thread == n.casts[n.sent[q].cast].thread
      ensures InOrder(n.sent[p], n.sent[q])
    {
      assert n.sent[p] == s.sent[p];
      if q < |s.sent| {
        assert n.sent[q] == s.sent[q];
      } else {
        assert n.sent[q] in more;
        SentIsReceived(s.sent, p);
      }
    }
  }

  lemma BeginKeeps(s: State, t: nat)
    requires Inv(s) && t < |s.threads| && s.threads[t].Idle?
    ensures Inv(DoBegin(s, t))
  {
    var n := DoBegin(s, t);
    forall c | 0 <= c < |n.casts| ensures CastOk(n, c) {
      if c < |s.casts| {
        assert CastOk(s, c);
        SameCastOk(s, n, c);
      } else {
        NoRecipientsYet(s.sent, c);
      }
    }
    KeepsPcs(s, n, t);
  }

  lemma {:induction false} NoRecipientsYet(sent: seq<Delivery>, c: nat)
    requires forall p | 0 <= p < |sent| :: sent[p].cast < c
    ensures Recipients(sent, c) == []
  {
    if sent != [] {
      NoRecipientsYet(sent[..|sent| - 1], c);
    }
  }

  lemma LockKeeps(s: State, t: nat)
    requires Inv(s) && t < |s.threads| && Enabled(s, t, Lock)
    ensures Inv(DoLock(s, t))
  {
    var n := DoLock(s, t);
    assert PcOk(s, t, s.threads[t]);
    if s.threads[t].CopyWait? {
      var c := s.threads[t].cast;
      assert CastOk(s, c);
      OwnCastKeeps(s, n, t, c, []);
    } else {
      QuietKeeps(s, n, t);
    }
  }

  lemma UnlockKeeps(s: State, t: nat)
    requires Inv(s) && t < |s.threads| && Enabled(s, t, Unlock)
    ensures Inv(DoUnlock(s, t))
  {
    var n := DoUnlock(s, t);
    assert PcOk(s, t, s.threads[t]);
    if s.threads[t].CopyLoop? {
      var c := s.threads[t].cast;
      assert CastOk(s, c);
      OwnCastKeeps(s, n, t, c, []);
    } else {
      QuietKeeps(s, n, t);
    }
  }

  lemma CopyNextKeeps(s: State, t: nat, id: nat)
    requires Inv(s) && t < |s.threads| && Enabled(s, t, CopyNext(id))
    ensures Inv(DoCopyNext(s, t, id))
  {
    var c := s.threads[t].cast;
    assert PcOk(s, t, s.threads[t]) && CastOk(s, c);
    OwnCastKeeps(s, DoCopyNext(s, t, id), t, c, []);
  }

  lemma SkipCastOk(s: State, n: State, c: nat, cast: Cast)
    requires c < |s.casts| && c < |n.casts| && CastOk(s, c) && cast == s.casts[c]
    requires cast.phase == Sending && cast.next < |cast.list| && n.casts[c] == cast.(next := cast.next + 1)
    requires n.mapped == s.mapped && n.released == s.released && n.issued == s.issued
    requires Recipients(n.sent, c) == Recipients(s.sent, c)
    requires cast.list[cast.next] !in s.mapped || cast.list[cast.next] in s.released
    ensures CastOk(n, c)
  {
    assert cast.list[..cast.next + 1] == cast.list[..cast.next] + [cast.list[cast.next]];
  }

  lemma GetKeeps(s: State, t: nat)
    requires Inv(s) && t < |s.threads| && Enabled(s, t, Get)
    ensures Inv(DoGet(s, t))
  {
    var c := s.threads[t].cast;
    var n := DoGet(s, t);
    assert PcOk(s, t, s.threads[t]) && CastOk(s, c);
    if s.casts[c].list[s.casts[c].next] in s.mapped {
      QuietKeeps(s, n, t);
    } else {
      SkipCastOk(s, n, c, s.casts[c]);
      OwnCastKeeps(s, n, t, c, []);
    }
  }

  lemma CheckKeeps(s: State, t: nat)
    requires Inv(s) && t < |s.threads| && Enabled(s, t, Check)
    ensures Inv(DoCheck(s, t))
  {
    var c := s.threads[t].cast;
    var n := DoCheck(s, t);
    assert PcOk(s, t, s.threads[t]) && CastOk(s, c);
    if s.casts[c].list[s.casts[c].next] in s.released {
      SkipCastOk(s, n, c, s.casts[c]);
      OwnCastKeeps(s, n, t, c, []);
    } else {
      QuietKeeps(s, n, t);
    }
  }

  lemma SendCastOk(s: State, n: State, c: nat, cast: Cast, x: nat)
    requires c < |s.casts| && c < |n.casts| && CastOk(s, c) && cast == s.casts[c]
    requires cast.phase == Sending && cast.next < |cast.list| && n.casts[c] == cast.(next := cast.next + 1)
    requires n.mapped == s.mapped && n.released == s.released && n.issued == s.issued
    requires x == cast.list[cast.next] && x !in cast.gone
    requires Recipients(n.sent, c) == Recipients(s.sent, c) + [x]
    ensures CastOk(n, c)
    ensures forall y | y in Recipients(s.sent, c) :: y < x
  {
    assert cast.list[..cast.next + 1] == cast.list[..cast.next] + [x];
    EarlierIdsAreSmaller(cast.list, cast.next);
    AscendingAppend(Recipients(s.sent, c), x);
  }

  lemma AscendingAppend(ids: seq<nat>, x: nat)
    requires Ascending(ids) && forall y | y in ids :: y < x
    ensures Ascending(ids + [x])
  {
    assert forall i | 0 <= i < |ids| :: ids[i] in ids;
  }

  lemma SendKeeps(s: State, t: nat)
    requires Inv(s) && t < |s.threads| && Enabled(s, t, Send)
    ensures Inv(DoSend(s, t))
  {
    var c := s.threads[t].cast;
    SentCopyIsOk(s, t);
    OwnCastKeeps(s, DoSend(s, t), t, c, [Delivery(c, s.casts[c].list[s.casts[c].next])]);
  }

  /** The copy that is sent continues the call's ascending deliveries. */
  lemma SentCopyIsOk(s: State, t: nat)
    requires Inv(s) && t < |s.threads| && Enabled(s, t, Send)
    ensures var c := s.threads[t].cast;
      && s.casts[c].thread == t
      && CastOk(DoSend(s, t), c)
      && forall y | y in Recipients(s.sent, c) :: y < s.casts[c].list[s.casts[c].next]
  {
    var c := s.threads[t].cast;
    var x := s.casts[c].list[s.casts[c].next];
    var more := [Delivery(c, x)];
    assert PcOk(s, t, s.threads[t]) && CastOk(s, c);
    RecipientsConcat(s.sent, more, c);
    assert more[..0] == [];
    SendCastOk(s, DoSend(s, t), c, s.casts[c], x);
  }

  lemma EarlierIdsAreSmaller(ids: seq<nat>, i: nat)
    requires Ascending(ids) && i < |ids|
    ensures forall x | x in ids[..i] :: x < ids[i]
  {
  }

  lemma FinishKeeps(s: State, t: nat)
    requires Inv(s) && t < |s.threads| && Enabled(s, t, Finish)
    ensures Inv(DoFinish(s, t))
  {
    var c := s.threads[t].cast;
    assert PcOk(s, t, s.threads[t]) && CastOk(s, c);
    OwnCastKeeps(s, DoFinish(s, t), t, c, []);
  }

  lemma {:induction false} EveryRunKeepsInv(n: nat, schedule: seq<Move>, s: State)
    requires Run(n, schedule) == Some(s)
    ensures Inv(s)
    decreases |schedule|
  {
    if schedule != [] {
      var Move(t, a) := schedule[|schedule| - 1];
      var before := Run(n, schedule[..|schedule| - 1]).value;
      EveryRunKeepsInv(n, schedule[..|schedule| - 1], before);
      match a
      case MapSession(_) => WorldStepKeeps(before, t, a);
      case Unmap(_) => WorldStepKeeps(before, t, a);
      case Release(_) => WorldStepKeeps(before, t, a);
      case Enter(_) => CallKeeps(before, t, a);
      case Leave(_) => CallKeeps(before, t, a);
      case Lock => LockKeeps(before, t);
      case Update => UpdateKeeps(before, t);
      case Unlock => UnlockKeeps(before, t);
      case Begin => BeginKeeps(before, t);
      case CopyNext(id) => CopyNextKeeps(before, t, id);
      case Get => GetKeeps(before, t);
      case Check => CheckKeeps(before, t);
      case Send => SendKeeps(before, t);
      case Finish => FinishKeeps(before, t);
    }
  }

  // ---------------------------------------------------------------- what every run guarantees

  /** The copied list is the id set as it was when the lock was taken, in ascending order and without
      repetition, whatever the other threads were doing meanwhile. */
  lemma SnapshotIsAtomic(n: nat, schedule: seq<Move>, s: State, c: nat)
    requires Run(n, schedule) == Some(s) && c < |s.casts| && s.casts[c].phase != Copying
    ensures Ascending(s.casts[c].list)
    ensures forall x :: x in s.casts[c].list <==> x in s.casts[c].snapshot
  {
    EveryRunKeepsInv(n, schedule, s);
    assert CastOk(s, c);
  }

  function Copies(sent: seq<Delivery>, c: nat, x: nat): nat {
    multiset(Recipients(sent, c))[x]
  }

  /** With sessions entering, leaving and being released between any two steps: no session gets a
      broadcast twice; only members of the locked snapshot get it; nobody who was already unmapped when
      the call began gets it; and a member that is still mapped and unreleased at the end got exactly
      one copy. */
  lemma CopiesUnderChurn(n: nat, schedule: seq<Move>, s: State, c: nat, x: nat)
    requires Run(n, schedule) == Some(s) && c < |s.casts|
    ensures Copies(s.sent, c, x) <= 1
    ensures Copies(s.sent, c, x) == 1 ==> x in s.casts[c].snapshot && x !in s.casts[c].gone
    ensures s.casts[c].phase == Finished && x in s.casts[c].snapshot && x in s.mapped && x !in s.released ==>
      Copies(s.sent, c, x) == 1
  {
    EveryRunKeepsInv(n, schedule, s);
    assert CastOk(s, c);
    var cast := s.casts[c];
    AscendingIsDistinct(Recipients(s.sent, c), x);
    assert forall y | y in cast.list[..cast.next] :: y in cast.list;
  }

  lemma {:induction false} AscendingIsDistinct(ids: seq<nat>, x: nat)
    requires Ascending(ids)
    ensures multiset(ids)[x] == if x in ids then 1 else 0
  {
    if ids != [] {
      var n := |ids| - 1;
      AscendingIsDistinct(ids[..n], x);
      EarlierIdsAreSmaller(ids, n);
      assert ids == ids[..n] + [ids[n]];
    }
  }

  /** With several broadcasters at work: for each broadcasting thread the copies go out call by call in
      program order, and within a call in strictly ascending session id. In particular what one session
      receives from one thread is in that thread's order. */
  lemma BroadcastOrder(n: nat, schedule: seq<Move>, s: State, p: nat, q: nat)
    requires Run(n, schedule) == Some(s) && p < q < |s.sent|
    ensures s.sent[p].cast < |s.casts| && s.sent[q].cast < |s.casts|
    ensures s.casts[s.sent[p].cast].thread == s.casts[s.sent[q].cast].thread ==>
      && InOrder(s.sent[p], s.sent[q])
      && (s.sent[p].session == s.sent[q].session ==> s.sent[p].cast < s.sent[q].cast)
  {
    EveryRunKeepsInv(n, schedule, s);
    assert s.sent[p].cast < |s.casts| && s.sent[q].cast < |s.casts|;
  }

  /** The mutex is never asked for by its holder, and only its holder changes the id set. */
  lemma SetLockDiscipline(n: nat, schedule: seq<Move>, s: State, t: nat, a: Action)
    requires Run(n, schedule) == Some(s) && t < |s.threads|
    ensures WantsLock(s.threads[t]) ==> s.lock != Some(t)
    ensures Enabled(s, t, a) && Step(s, t, a).idSet != s.idSet ==> s.lock == Some(t)
  {
    EveryRunKeepsInv(n, schedule, s);
  }

  predicate IsLeast(ids: set<nat>, x: nat) {
    x in ids && forall y | y in ids :: x <= y
  }

  lemma {:induction false} LeastExists(ids: set<nat>)
    requires ids != {}
    ensures exists x :: IsLeast(ids, x)
    decreases |ids|
  {
    var x :| x in ids;
    if ids == {x} {
      assert IsLeast(ids, x);
    } else {
      var rest := ids - {x};
      LeastExists(rest);
      var least :| IsLeast(rest, least);
      assert ids == rest + {x};
      assert IsLeast(ids, if x < least then x else least);
    }
  }

  /** A move of the thread's own, not one of the sessions around it. */
  ghost predicate CanMove(s: State, t: nat)
    requires Typed(s) && t < |s.threads|
  {
    exists a :: Enabled(s, t, a) && !a.MapSession? && !a.Unmap? && !a.Release?
  }

  /** No deadlock: every broadcasting, entering or leaving thread can move, or it waits for the mutex
      another thread holds, and that thread can move. */
  lemma NoDeadlock(n: nat, schedule: seq<Move>, s: State, t: nat)
    requires Run(n, schedule) == Some(s) && t < n
    ensures CanMove(s, t)
      || (&& WantsLock(s.threads[t])
          && s.lock.Some? && s.lock.value < n && s.lock.value != t && CanMove(s, s.lock.value))
  {
    EveryRunKeepsInv(n, schedule, s);
    if WantsLock(s.threads[t]) && s.lock.Some? {
      LockHolderExists(n, schedule, s);
      var _ := MoveOf(s, s.lock.value);
    } else {
      var _ := MoveOf(s, t);
    }
  }

  lemma MoveOf(s: State, t: nat) returns (a: Action)
    requires Inv(s) && t < |s.threads|
    requires WantsLock(s.threads[t]) ==> s.lock.None?
    ensures Enabled(s, t, a) && !a.MapSession? && !a.Unmap? && !a.Release?
  {
    assert PcOk(s, t, s.threads[t]);
    match s.threads[t]
    case Idle => a := Begin;
    case EnterWait(_) => a := Lock;
    case LeaveWait(_) => a := Lock;
    case CopyWait(_) => a := Lock;
    case EnterLocked(_) => a := Update;
    case LeaveLocked(_) => a := Update;
    case SetUpdated => a := Unlock;
    case CopyLoop(c) =>
      if AllCopied(s.idSet, s.casts[c].list) {
        a := Unlock;
      } else {
        a := CopyNext(NextId(s.idSet, s.casts[c].list));
      }
    case SendLoop(c) => a := if s.casts[c].next < |s.casts[c].list| then Get else Finish;
    case Found(_) => a := Check;
    case Cleared(_) => a := Send;
  }

  /** The mutex is only ever held by one of the threads. */
  lemma {:induction false} LockHolderExists(n: nat, schedule: seq<Move>, s: State)
    requires Run(n, schedule) == Some(s)
    ensures s.lock.Some? ==> s.lock.value < n
    decreases |schedule|
  {
    if schedule != [] {
      var before := Run(n, schedule[..|schedule| - 1]).value;
      LockHolderExists(n, schedule[..|schedule| - 1], before);
    }
  }

  /** The element the copy loop visits next, while there is one. */
  ghost function NextId(ids: set<nat>, copied: seq<nat>): (x: nat)
    requires !AllCopied(ids, copied)
    ensures IsNext(ids, copied, x)
  {
    var rest := set y | y in ids && (copied != [] ==> copied[|copied| - 1] < y);
    assert rest != {} by {
      var y :| y in ids && !(copied != [] && y <= copied[|copied| - 1]);
      assert y in rest;
    }
    LeastExists(rest);
    var x :| IsLeast(rest, x);
    assert forall y | y in ids && (copied != [] ==> copied[|copied| - 1] < y) :: y in rest;
    x
  }

  // ---------------------------------------------------------------- does the set follow the sessions?

  /** An id is in the set exactly when it was inserted and not erased after that. */
  lemma SetIsInsertedNotCleared(n: nat, schedule: seq<Move>, s: State, x: nat)
    requires Run(n, schedule) == Some(s)
    ensures x in s.idSet <==> x in s.inserted && x !in s.cleared
  {
    EveryRunKeepsInv(n, schedule, s);
  }

  /** However the run goes on, the id is never in the set again. */
  ghost predicate StaysOut(n: nat, schedule: seq<Move>, x: nat) {
    forall more: seq<Move> ::
      Run(n, schedule + more).Some? ==> x !in Run(n, schedule + more).value.idSet
  }

  /** The documentation says a removed session is automatically no longer a broadcast target. When
      OnSessionLeaved is about to erase an id, that id stays out of the set for good, in every continuation
      of the run, exactly when OnSessionEntered has already inserted it. */
  lemma LeaverStaysOutExactly(n: nat, schedule: seq<Move>, s: State, t: nat, x: nat)
    requires Run(n, schedule) == Some(s) && t < n && s.threads[t] == LeaveLocked(x)
    ensures StaysOut(n, schedule + [Move(t, Update)], x) <==> x in s.inserted
  {
    var erased, after := Extend(n, schedule, s, t, Update);
    if x in s.inserted {
      forall more | Run(n, erased + more).Some? ensures x !in Run(n, erased + more).value.idSet {
        var z := Run(n, erased + more).value;
        ClearedStaysCleared(n, erased, more, after, z);
        SetIsInsertedNotCleared(n, erased + more, z, x);
      }
    } else {
      var more, z := IdReturns(n, schedule, s, t, x);
      assert Run(n, erased + more) == Some(z);
    }
  }

  lemma {:induction false} ClearedStaysCleared(n: nat, schedule: seq<Move>, more: seq<Move>, s: State, z: State)
    requires Run(n, schedule) == Some(s) && Run(n, schedule + more) == Some(z)
    ensures s.cleared <= z.cleared
    decreases |more|
  {
    if more == [] {
      assert schedule + more == schedule;
    } else {
      assert (schedule + more)[..|schedule + more| - 1] == schedule + more[..|more| - 1];
      ClearedStaysCleared(n, schedule, more[..|more| - 1], s, Run(n, schedule + more[..|more| - 1]).value);
    }
  }

  /** Where the property fails: the leaving thread itself may go on to enter the session, and when another
      thread is already entering it, that one only waits for the mutex. */
  lemma IdReturns(n: nat, schedule: seq<Move>, s: State, t: nat, x: nat) returns (more: seq<Move>, z: State)
    requires Run(n, schedule) == Some(s) && t < n && s.threads[t] == LeaveLocked(x) && x !in s.inserted
    ensures Run(n, schedule + [Move(t, Update)] + more) == Some(z) && x in z.idSet
  {
    EveryRunKeepsInv(n, schedule, s);
    EveryRunKeepsPending(n, schedule, s);
    assert Leaver(s.threads[t]);
    var erased, m := EraseRuns(n, schedule, s, t, x);
    var inserted;
    if x in s.entered {
      var u :| 0 <= u < |s.threads| && EntersAs(s.threads[u], x);
      assert HoldsLock(s.threads[t]) && !HoldsLock(s.threads[u]);
      inserted, z := InsertRuns(n, erased, m, u, x);
      more := [Move(t, Unlock)] + [Move(u, Lock), Move(u, Update)];
    } else {
      inserted, z := EnterRuns(n, erased, m, t, x);
      more := [Move(t, Unlock)] + [Move(t, Enter(x)), Move(t, Lock), Move(t, Update)];
    }
    assert inserted == schedule + [Move(t, Update)] + more;
  }

  lemma EnterRuns(n: nat, schedule: seq<Move>, s: State, t: nat, x: nat) returns (longer: seq<Move>, z: State)
    requires Run(n, schedule) == Some(s) && t < n && s.threads[t].Idle? && s.lock == None
    requires x in s.issued && x !in s.entered
    ensures longer == schedule + [Move(t, Enter(x))] + [Move(t, Lock)] + [Move(t, Update)]
    ensures Run(n, longer) == Some(z) && x in z.idSet
  {
    longer, z := Extend(n, schedule, s, t, Enter(x));
    longer, z := InsertRuns(n, longer, z, t, x);
  }

  /** A leaver with the mutex erases and leaves. */
  lemma EraseRuns(n: nat, schedule: seq<Move>, s: State, t: nat, x: nat) returns (longer: seq<Move>, z: State)
    requires Run(n, schedule) == Some(s) && t < n && s.threads[t] == LeaveLocked(x) && x !in s.inserted
    ensures longer == schedule + [Move(t, Update)] + [Move(t, Unlock)]
    ensures Run(n, longer) == Some(z) && z.threads == s.threads[t := Idle] && z.lock == None
    ensures z.mapped == s.mapped && z.issued == s.issued && z.entered == s.entered && z.early == s.early + {x}
  {
    longer, z := Extend(n, schedule, s, t, Update);
    longer, z := Extend(n, longer, z, t, Unlock);
    assert z.threads == s.threads[t := Idle];
  }

  /** An enterer that finds the mutex free inserts. */
  lemma InsertRuns(n: nat, schedule: seq<Move>, s: State, u: nat, x: nat) returns (longer: seq<Move>, z: State)
    requires Run(n, schedule) == Some(s) && u < n && s.threads[u] == EnterWait(x) && s.lock == None
    ensures longer == schedule + [Move(u, Lock)] + [Move(u, Update)]
    ensures Run(n, longer) == Some(z) && z.threads == s.threads[u := SetUpdated] && x in z.idSet
    ensures z.mapped == s.mapped && z.issued == s.issued && z.early == s.early
  {
    longer, z := Extend(n, schedule, s, u, Lock);
    longer, z := Extend(n, longer, z, u, Update);
    assert z.threads == s.threads[u := SetUpdated];
  }

  predicate EntersAs(pc: Pc, x: nat) {
    Entering(pc) && pc.id == x
  }

  predicate Leaver(pc: Pc) {
    pc.LeaveWait? || pc.LeaveLocked?
  }

  /** Who has been entered and not inserted is still being entered, and only known sessions leave. */
  ghost predicate PendingOk(s: State) {
    && (forall x | x in s.entered && x !in s.inserted :: exists u :: 0 <= u < |s.threads| && EntersAs(s.threads[u], x))
    && (forall u | 0 <= u < |s.threads| && Leaver(s.threads[u]) :: s.threads[u].id in s.issued)
  }

  lemma PendingKept(s: State, t: nat, a: Action)
    requires Typed(s) && PendingOk(s) && t < |s.threads| && Enabled(s, t, a)
    ensures PendingOk(Step(s, t, a))
  {
    var n := Step(s, t, a);
    forall x | x in n.entered && x !in n.inserted
      ensures exists u :: 0 <= u < |n.threads| && EntersAs(n.threads[u], x)
    {
      if x in s.entered {
        var u :| 0 <= u < |s.threads| && EntersAs(s.threads[u], x);
        assert EntersAs(n.threads[u], x);
      } else {
        assert EntersAs(n.threads[t], x);
      }
    }
  }

  lemma {:induction false} EveryRunKeepsPending(n: nat, schedule: seq<Move>, s: State)
    requires Run(n, schedule) == Some(s)
    ensures PendingOk(s)
    decreases |schedule|
  {
    if schedule != [] {
      var Move(t, a) := schedule[|schedule| - 1];
      var before := Run(n, schedule[..|schedule| - 1]).value;
      EveryRunKeepsPending(n, schedule[..|schedule| - 1], before);
      PendingKept(before, t, a);
    }
  }

  /** What staying out is good for: a session erased after its insertion is no target of any broadcast that
      had not copied its id by then, in any continuation. */
  lemma NoLongerATarget(n: nat, schedule: seq<Move>, s: State, t: nat, x: nat, more: seq<Move>, z: State, c: nat)
    requires Run(n, schedule) == Some(s) && t < n && s.threads[t] == LeaveLocked(x) && x in s.inserted
    requires Run(n, schedule + [Move(t, Update)] + more) == Some(z) && c < |z.casts|
    requires c < |s.casts| ==> x !in s.casts[c].snapshot
    ensures Copies(z.sent, c, x) == 0
  {
    var erased, after := Extend(n, schedule, s, t, Update);
    NotCopiedLater(n, erased, more, after, z, x, c);
    CopiesUnderChurn(n, erased + more, z, c, x);
  }

  lemma {:induction false} NotCopiedLater(
    n: nat, schedule: seq<Move>, more: seq<Move>, s: State, z: State, x: nat, c: nat)
    requires Run(n, schedule) == Some(s) && x in s.cleared && (c < |s.casts| ==> x !in s.casts[c].snapshot)
    requires Run(n, schedule + more) == Some(z) && c < |z.casts|
    ensures x !in z.casts[c].snapshot
    decreases |more|
  {
    if more == [] {
      assert schedule + more == schedule;
    } else {
      assert (schedule + more)[..|schedule + more| - 1] == schedule + more[..|more| - 1];
      var Move(t, a) := more[|more| - 1];
      var before := Run(n, schedule + more[..|more| - 1]).value;
      ClearedStaysCleared(n, schedule, more[..|more| - 1], s, before);
      EveryRunKeepsInv(n, schedule + more[..|more| - 1], before);
      if c < |before.casts| {
        NotCopiedLater(n, schedule, more[..|more| - 1], s, before, x, c);
      }
      SnapshotComesFromTheSet(before, t, a, c);
    }
  }

  /** A call's snapshot is empty at first and afterwards the id set it locked. */
  lemma SnapshotComesFromTheSet(s: State, t: nat, a: Action, c: nat)
    requires Typed(s) && t < |s.threads| && Enabled(s, t, a) && c < |Step(s, t, a).casts|
    ensures var snapshot := Step(s, t, a).casts[c].snapshot;
      snapshot == {} || snapshot == s.idSet || (c < |s.casts| && snapshot == s.casts[c].snapshot)
  {
  }

  /** And the failure is within the accepter's own order: it maps a session before it inserts the id. When
      the session's last I/O ends in between, the erasure finds nothing and the id stays behind, with every
      thread idle and the session gone. */
  lemma StaleId(n: nat, x: nat) returns (schedule: seq<Move>, s: State)
    requires n > 0
    ensures Run(n, schedule) == Some(s)
    ensures forall t | 0 <= t < |s.threads| :: s.threads[t].Idle?
    ensures x in s.issued && x !in s.mapped && x in s.early && x in s.idSet
  {
    schedule, s := LeavesFirst(n, x);
    schedule, s := Extend(n, schedule, s, 0, Unmap(x));
    schedule, s := Extend(n, schedule, s, 0, Enter(x));
    schedule, s := InsertRuns(n, schedule, s, 0, x);
    schedule, s := Extend(n, schedule, s, 0, Unlock);
  }

  lemma LeavesFirst(n: nat, x: nat) returns (schedule: seq<Move>, s: State)
    requires n > 0
    ensures Run(n, schedule) == Some(s) && s.threads == Init(n).threads && s.lock == None
    ensures x in s.mapped && x in s.issued && x !in s.entered && x in s.early
  {
    schedule, s := [], Init(n);
    schedule, s := Extend(n, schedule, s, 0, MapSession(x));
    schedule, s := Extend(n, schedule, s, 0, Leave(x));
    schedule, s := Extend(n, schedule, s, 0, Lock);
    assert s.threads == Init(n).threads[0 := LeaveLocked(x)];
    schedule, s := EraseRuns(n, schedule, s, 0, x);
    assert s.threads == Init(n).threads;
  }

  lemma Extend(n: nat, schedule: seq<Move>, s: State, t: nat, a: Action) returns (longer: seq<Move>, z: State)
    requires Run(n, schedule) == Some(s) && t < n && Enabled(s, t, a)
    ensures longer == schedule + [Move(t, a)]
    ensures Run(n, longer) == Some(z) && z == Step(s, t, a)
  {
    longer, z := schedule + [Move(t, a)], Step(s, t, a);
    assert longer[..|schedule|] == schedule;
  }
}
