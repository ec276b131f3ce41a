/** What a broadcast knew of a session when it sent it a copy, over every schedule. */
module BroadcastLookups {
  import opened Wrappers
  import opened BroadcastProtocol
  import opened BroadcastTheorems
  import opened BroadcastHistory

  /** The move `k` of the schedule is the lookup of session `x` by call `c`, and finds it mapped. */
  ghost predicate FoundMapped(n: nat, schedule: seq<Move>, k: nat, c: nat, x: nat) {
    && k < |schedule| && schedule[k].thread < n && schedule[k].action == Get && Run(n, schedule[..k]).Some?
    && var s := Run(n, schedule[..k]).value;
      && s.threads[schedule[k].thread] == SendLoop(c)
      && s.casts[c].next < |s.casts[c].list| && s.casts[c].list[s.casts[c].next] == x
      && StillMapped(schedule[..k], x)
  }

  /** The move `k` is the release check of session `x` by call `c`, and finds it unreleased. */
  ghost predicate FoundUnreleased(n: nat, schedule: seq<Move>, k: nat, c: nat, x: nat) {
    && k < |schedule| && schedule[k].thread < n && schedule[k].action == Check && Run(n, schedule[..k]).Some?
    && var s := Run(n, schedule[..k]).value;
      && s.threads[schedule[k].thread] == Found(c)
      && s.casts[c].next < |s.casts[c].list| && s.casts[c].list[s.casts[c].next] == x
      && !Happened(schedule[..k], Release(x))
  }

  ghost predicate WasMapped(n: nat, schedule: seq<Move>, c: nat, x: nat) {
    exists k :: FoundMapped(n, schedule, k, c, x)
  }

  /** A lookup that found the session, and after it a check that let it pass. */
  ghost predicate WasCleared(n: nat, schedule: seq<Move>, c: nat, x: nat) {
    exists j, k :: j < k && FoundMapped(n, schedule, j, c, x) && FoundUnreleased(n, schedule, k, c, x)
  }

  ghost predicate LookupsOk(n: nat, schedule: seq<Move>, s: State)
    requires Typed(s)
  {
    && (forall t | 0 <= t < |s.threads| :: LookupOk(n, schedule, s, s.threads[t]))
    && (forall p | 0 <= p < |s.sent| :: WasCleared(n, schedule, s.sent[p].cast, s.sent[p].session))
  }

  ghost predicate LookupOk(n: nat, schedule: seq<Move>, s: State, pc: Pc)
    requires InCast(pc) ==> pc.cast < |s.casts|
  {
    pc.Found? || pc.Cleared? ==>
      var cast := s.casts[pc.cast];
      && cast.next < |cast.list|
      && (pc.Found? ==> WasMapped(n, schedule, pc.cast, cast.list[cast.next]))
      && (pc.Cleared? ==> WasCleared(n, schedule, pc.cast, cast.list[cast.next]))
  }

  /** What happened in a run stays true of every longer one. */
  lemma LookupsStay(n: nat, schedule: seq<Move>, move: Move, c: nat, x: nat)
    ensures WasMapped(n, schedule, c, x) ==> WasMapped(n, schedule + [move], c, x)
    ensures WasCleared(n, schedule, c, x) ==> WasCleared(n, schedule + [move], c, x)
  {
    forall k: nat | k < |schedule|
      ensures FoundMapped(n, schedule, k, c, x) ==> FoundMapped(n, schedule + [move], k, c, x)
      ensures FoundUnreleased(n, schedule, k, c, x) ==> FoundUnreleased(n, schedule + [move], k, c, x)
    {
      assert (schedule + [move])[..k] == schedule[..k];
    }
  }

  /** A copy goes only to a session that the same call had found mapped in its own lookup of it, and
      unreleased in its check after that. */
  lemma SentAsLookedUp(n: nat, schedule: seq<Move>, s: State, p: nat)
    requires Run(n, schedule) == Some(s) && p < |s.sent|
    ensures WasCleared(n, schedule, s.sent[p].cast, s.sent[p].session)
  {
    EveryRunKeepsLookups(n, schedule, s);
  }

  lemma {:induction false} EveryRunKeepsLookups(n: nat, schedule: seq<Move>, s: State)
    requires Run(n, schedule) == Some(s)
    ensures LookupsOk(n, schedule, s)
    decreases |schedule|
  {
    if schedule != [] {
      var m := |schedule| - 1;
      var before := Run(n, schedule[..m]).value;
      EveryRunKeepsLookups(n, schedule[..m], before);
      EveryRunKeepsInv(n, schedule[..m], before);
      LookupsKept(n, schedule[..m], before, schedule[m].thread, schedule[m].action);
      assert schedule[..m] + [schedule[m]] == schedule;
    }
  }

  lemma LookupsKept(n: nat, schedule: seq<Move>, s: State, t: nat, a: Action)
    requires Run(n, schedule) == Some(s) && Inv(s) && LookupsOk(n, schedule, s) && t < n && Enabled(s, t, a)
    ensures LookupsOk(n, schedule + [Move(t, a)], Step(s, t, a))
  {
    var z, longer := Step(s, t, a), schedule + [Move(t, a)];
    OwnLookupKept(n, schedule, s, t, a);
    forall u | 0 <= u < |z.threads| ensures LookupOk(n, longer, z, z.threads[u]) {
      if u != t {
        assert PcOk(s, u, s.threads[u]) && LookupOk(n, schedule, s, s.threads[u]);
        OtherCastSame(s, t, a, u);
        if s.threads[u].Found? || s.threads[u].Cleared? {
          var cast := s.casts[s.threads[u].cast];
          LookupsStay(n, schedule, Move(t, a), s.threads[u].cast, cast.list[cast.next]);
        }
      }
    }
    forall p | 0 <= p < |z.sent| ensures WasCleared(n, longer, z.sent[p].cast, z.sent[p].session) {
      LookupsStay(n, schedule, Move(t, a), z.sent[p].cast, z.sent[p].session);
      SentGrows(s, t, a);
      if p == |s.sent| {
        assert LookupOk(n, schedule, s, s.threads[t]);
      }
    }
  }

  lemma SentGrows(s: State, t: nat, a: Action)
    requires Typed(s) && t < |s.threads| && Enabled(s, t, a)
    ensures a.Send? ==> Step(s, t, a) == DoSend(s, t)
    ensures !a.Send? ==> Step(s, t, a).sent == s.sent
  {
  }

  /** A thread changes no call but its own. */
  lemma OtherCastSame(s: State, t: nat, a: Action, u: nat)
    requires Inv(s) && t < |s.threads| && Enabled(s, t, a) && u < |s.threads| && u != t
    ensures var z := Step(s, t, a);
      && z.threads[u] == s.threads[u]
      && (InCast(s.threads[u]) ==> z.casts[s.threads[u].cast] == s.casts[s.threads[u].cast])
  {
    assert PcOk(s, t, s.threads[t]) && PcOk(s, u, s.threads[u]);
  }

  lemma OwnLookupKept(n: nat, schedule: seq<Move>, s: State, t: nat, a: Action)
    requires Run(n, schedule) == Some(s) && Inv(s) && LookupsOk(n, schedule, s) && t < n && Enabled(s, t, a)
    ensures LookupOk(n, schedule + [Move(t, a)], Step(s, t, a), Step(s, t, a).threads[t])
  {
    assert LookupOk(n, schedule, s, s.threads[t]);
    if a.Get? {
      GetFindsMapped(n, schedule, s, t);
    } else if a.Check? {
      CheckFindsUnreleased(n, schedule, s, t);
    } else if s.threads[t].Found? || s.threads[t].Cleared? {
      OthersLeaveLookups(s, t, a);
      var cast := s.casts[s.threads[t].cast];
      LookupsStay(n, schedule, Move(t, a), s.threads[t].cast, cast.list[cast.next]);
    } else {
      OthersLeaveLookups(s, t, a);
    }
  }

  /** Between its lookup and its send a thread only looks on or sends. */
  lemma OthersLeaveLookups(s: State, t: nat, a: Action)
    requires Typed(s) && t < |s.threads| && Enabled(s, t, a) && !a.Get? && !a.Check?
    ensures var z := Step(s, t, a); var pc := z.threads[t];
      (pc.Found? || pc.Cleared?) ==> pc == s.threads[t] && z.casts == s.casts
  {
  }

  lemma GetFindsMapped(n: nat, schedule: seq<Move>, s: State, t: nat)
    requires Run(n, schedule) == Some(s) && t < n && Enabled(s, t, Get)
    ensures LookupOk(n, schedule + [Move(t, Get)], DoGet(s, t), DoGet(s, t).threads[t])
  {
    var c, longer := s.threads[t].cast, schedule + [Move(t, Get)];
    var x := s.casts[c].list[s.casts[c].next];
    assert longer[..|schedule|] == schedule;
    WorldFollowsSchedule(n, schedule, s, x);
    assert x in s.mapped ==> FoundMapped(n, longer, |schedule|, c, x);
  }

  lemma CheckFindsUnreleased(n: nat, schedule: seq<Move>, s: State, t: nat)
    requires Run(n, schedule) == Some(s) && t < n && Enabled(s, t, Check) && LookupOk(n, schedule, s, s.threads[t])
    ensures LookupOk(n, schedule + [Move(t, Check)], DoCheck(s, t), DoCheck(s, t).threads[t])
  {
    var c, longer := s.threads[t].cast, schedule + [Move(t, Check)];
    var x := s.casts[c].list[s.casts[c].next];
    assert longer[..|schedule|] == schedule;
    WorldFollowsSchedule(n, schedule, s, x);
    var j: nat :| FoundMapped(n, schedule, j, c, x);
    assert longer[..j] == schedule[..j];
    assert FoundMapped(n, longer, j, c, x);
    assert x !in s.released ==> FoundUnreleased(n, longer, |schedule|, c, x);
  }

  lemma {:induction false} ReceivedWasSent(sent: seq<Delivery>, c: nat, x: nat) returns (p: nat)
    requires x in Recipients(sent, c)
    ensures p < |sent| && sent[p] == Delivery(c, x)
  {
    p := |sent| - 1;
    if sent[p] != Delivery(c, x) {
      p := ReceivedWasSent(sent[..p], c, x);
    }
  }

  /** With sessions entering, leaving and being released between any two steps: no session gets a broadcast
      twice; only members of the locked snapshot get it, and of these only those the call found mapped in
      its own lookup and then unreleased in its check; and a member that no move has unmapped since it was
      mapped, and none has released, got exactly one copy once the call is over. */
  lemma BroadcastUnderChurn(n: nat, schedule: seq<Move>, s: State, c: nat, x: nat)
    requires Run(n, schedule) == Some(s) && c < |s.casts|
    ensures Copies(s.sent, c, x) <= 1
    ensures Copies(s.sent, c, x) == 1 ==>
      x in s.casts[c].snapshot && x !in s.casts[c].gone && WasCleared(n, schedule, c, x)
    ensures && s.casts[c].phase == Finished && x in s.casts[c].snapshot
            && StillMapped(schedule, x) && !Happened(schedule, Release(x)) ==>
      Copies(s.sent, c, x) == 1
  {
    CopiesUnderChurn(n, schedule, s, c, x);
    WorldFollowsSchedule(n, schedule, s, x);
    if Copies(s.sent, c, x) == 1 {
      var p := ReceivedWasSent(s.sent, c, x);
      SentAsLookedUp(n, schedule, s, p);
    }
  }

  ghost predicate NoReleases(schedule: seq<Move>) {
    forall k | 0 <= k < |schedule| :: !schedule[k].action.Release?
  }

  /** The code as written never sets the release flag: then every member of the locked snapshot that was
      not unmapped got exactly one copy. */
  lemma AsWrittenTheMappedGetOne(n: nat, schedule: seq<Move>, s: State, c: nat, x: nat)
    requires Run(n, schedule) == Some(s) && NoReleases(schedule)
    requires c < |s.casts| && s.casts[c].phase == Finished && x in s.casts[c].snapshot && StillMapped(schedule, x)
    ensures Copies(s.sent, c, x) == 1
  {
    assert !Happened(schedule, Release(x));
    BroadcastUnderChurn(n, schedule, s, c, x);
  }

  /** No more than that: a session may leave the map between its lookup and the send, and still gets its
      copy. */
  lemma SentAfterUnmap(n: nat, x: nat) returns (schedule: seq<Move>, s: State)
    requires n > 0
    ensures Run(n, schedule) == Some(s) && s.sent == [Delivery(0, x)] && x !in s.mapped
    ensures |schedule| > 0 && schedule[|schedule| - 1].action == Send
  {
    schedule, s := CopiedOne(n, x);
    schedule, s := Extend(n, schedule, s, 0, Unlock);
    schedule, s := Extend(n, schedule, s, 0, Get);
    schedule, s := Extend(n, schedule, s, 0, Unmap(x));
    schedule, s := Extend(n, schedule, s, 0, Check);
    schedule, s := Extend(n, schedule, s, 0, Send);
  }

  lemma EnteredOne(n: nat, x: nat) returns (schedule: seq<Move>, s: State)
    requires n > 0
    ensures Run(n, schedule) == Some(s) && s.threads[0] == Idle && s.lock == None
    ensures s.idSet == {x} && s.mapped == {x} && s.released == {} && s.casts == [] && s.sent == []
  {
    schedule, s := [], Init(n);
    schedule, s := Extend(n, schedule, s, 0, MapSession(x));
    schedule, s := Extend(n, schedule, s, 0, Enter(x));
    schedule, s := Extend(n, schedule, s, 0, Lock);
    schedule, s := Extend(n, schedule, s, 0, Update);
    schedule, s := Extend(n, schedule, s, 0, Unlock);
  }

  lemma CopiedOne(n: nat, x: nat) returns (schedule: seq<Move>, s: State)
    requires n > 0
    ensures Run(n, schedule) == Some(s) && s.threads[0] == CopyLoop(0) && s.idSet == {x} && s.mapped == {x}
    ensures s.released == {} && s.sent == [] && |s.casts| == 1 && s.casts[0].list == [x] && s.casts[0].next == 0
  {
    schedule, s := EnteredOne(n, x);
    schedule, s := Extend(n, schedule, s, 0, Begin);
    schedule, s := Extend(n, schedule, s, 0, Lock);
    schedule, s := Extend(n, schedule, s, 0, CopyNext(x));
  }
}
