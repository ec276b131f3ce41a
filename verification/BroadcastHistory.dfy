/** What the broadcast state says in terms of the moves that led to it. */
module BroadcastHistory {
  import opened Wrappers
  import opened BroadcastProtocol
  import opened BroadcastTheorems

  // ---------------------------------------------------------------- the sessions

  predicate Happened(schedule: seq<Move>, a: Action) {
    exists k :: 0 <= k < |schedule| && schedule[k].action == a
  }

  /** Session `x` was mapped and not unmapped since. */
  predicate StillMapped(schedule: seq<Move>, x: nat) {
    exists k :: 0 <= k < |schedule| && schedule[k].action == MapSession(x)
             && forall j | k < j < |schedule| :: schedule[j].action != Unmap(x)
  }

  lemma HappenedNext(schedule: seq<Move>, move: Move, a: Action)
    ensures Happened(schedule + [move], a) <==> Happened(schedule, a) || move.action == a
  {
    var longer := schedule + [move];
    assert longer[|schedule|] == move;
    if Happened(schedule, a) {
      var k :| 0 <= k < |schedule| && schedule[k].action == a;
      assert longer[k].action == a;
    }
  }

  lemma StillMappedNext(schedule: seq<Move>, move: Move, x: nat)
    ensures StillMapped(schedule + [move], x) <==>
      move.action == MapSession(x) || (StillMapped(schedule, x) && move.action != Unmap(x))
  {
    var longer := schedule + [move];
    assert longer[|schedule|] == move;
    if StillMapped(schedule, x) && move.action != Unmap(x) {
      var k :| 0 <= k < |schedule| && schedule[k].action == MapSession(x)
            && forall j | k < j < |schedule| :: schedule[j].action != Unmap(x);
      assert longer[k].action == MapSession(x);
    }
    if StillMapped(longer, x) && move.action != MapSession(x) {
      var k :| 0 <= k < |longer| && longer[k].action == MapSession(x)
            && forall j | k < j < |longer| :: longer[j].action != Unmap(x);
      assert schedule[k].action == MapSession(x);
      assert forall j | k < j < |schedule| :: schedule[j] == longer[j];
    }
  }

  lemma WorldAfterStep(s: State, t: nat, a: Action, x: nat)
    requires Typed(s) && t < |s.threads| && Enabled(s, t, a)
    ensures var n := Step(s, t, a);
      && (x in n.mapped <==> a == MapSession(x) || (x in s.mapped && a != Unmap(x)))
      && (x in n.released <==> a == Release(x) || x in s.released)
      && (x in n.issued <==> a == MapSession(x) || x in s.issued)
      && (x in n.entered <==> a == Enter(x) || x in s.entered)
  {
  }

  /** A session is mapped exactly when a MapSession of its id has no later Unmap of the same id; released,
      issued and entered exactly when that happened to this id. */
  lemma {:induction false} WorldFollowsSchedule(n: nat, schedule: seq<Move>, s: State, x: nat)
    requires Run(n, schedule) == Some(s)
    ensures x in s.mapped <==> StillMapped(schedule, x)
    ensures x in s.released <==> Happened(schedule, Release(x))
    ensures x in s.issued <==> Happened(schedule, MapSession(x))
    ensures x in s.entered <==> Happened(schedule, Enter(x))
    decreases |schedule|
  {
    if schedule != [] {
      var m := |schedule| - 1;
      var before := Run(n, schedule[..m]).value;
      WorldFollowsSchedule(n, schedule[..m], before, x);
      WorldAfterStep(before, schedule[m].thread, schedule[m].action, x);
      StillMappedNext(schedule[..m], schedule[m], x);
      HappenedNext(schedule[..m], schedule[m], Release(x));
      HappenedNext(schedule[..m], schedule[m], MapSession(x));
      HappenedNext(schedule[..m], schedule[m], Enter(x));
      assert schedule[..m] + [schedule[m]] == schedule;
    }
  }

  // ---------------------------------------------------------------- the id set

  predicate IsCall(a: Action) {
    a.Enter? || a.Leave? || a.Begin?
  }

  /** What thread `t` called last: OnSessionEntered, OnSessionLeaved or a broadcast. */
  function LatestCall(schedule: seq<Move>, t: nat): Option<Action> {
    if schedule == [] then None
    else
      var last := schedule[|schedule| - 1];
      if last.thread == t && IsCall(last.action) then Some(last.action)
      else LatestCall(schedule[..|schedule| - 1], t)
  }

  /** The thread is where its latest call put it. */
  ghost predicate CallOk(schedule: seq<Move>, t: nat, pc: Pc) {
    && (Entering(pc) ==> LatestCall(schedule, t) == Some(Enter(pc.id)))
    && (Leaver(pc) ==> LatestCall(schedule, t) == Some(Leave(pc.id)))
  }

  lemma {:induction false} CallsAreFollowed(n: nat, schedule: seq<Move>, s: State)
    requires Run(n, schedule) == Some(s)
    ensures forall t | 0 <= t < n :: CallOk(schedule, t, s.threads[t])
    decreases |schedule|
  {
    if schedule != [] {
      var m := |schedule| - 1;
      var before := Run(n, schedule[..m]).value;
      CallsAreFollowed(n, schedule[..m], before);
      forall t | 0 <= t < n ensures CallOk(schedule, t, s.threads[t]) {
        assert CallOk(schedule[..m], t, before.threads[t]);
        ThreadAfterStep(before, schedule[m].thread, schedule[m].action, t);
      }
    }
  }

  lemma ThreadAfterStep(s: State, t: nat, a: Action, u: nat)
    requires Typed(s) && t < |s.threads| && u < |s.threads| && Enabled(s, t, a)
    ensures var pc := Step(s, t, a).threads[u];
      && (u != t ==> pc == s.threads[u])
      && (u == t && IsCall(a) && Entering(pc) ==> a == Enter(pc.id))
      && (u == t && IsCall(a) && Leaver(pc) ==> a == Leave(pc.id))
      && (u == t && !IsCall(a) && Entering(pc) ==> Entering(s.threads[t]) && s.threads[t].id == pc.id)
      && (u == t && !IsCall(a) && Leaver(pc) ==> Leaver(s.threads[t]) && s.threads[t].id == pc.id)
  {
  }

  /** The move `k` is the insertion, or the erasure, of id `x`. */
  predicate Inserts(schedule: seq<Move>, k: nat, x: nat) {
    k < |schedule| && schedule[k].action == Update && LatestCall(schedule[..k], schedule[k].thread) == Some(Enter(x))
  }

  predicate Erases(schedule: seq<Move>, k: nat, x: nat) {
    k < |schedule| && schedule[k].action == Update && LatestCall(schedule[..k], schedule[k].thread) == Some(Leave(x))
  }

  ghost predicate StillInSet(schedule: seq<Move>, x: nat) {
    exists k: nat :: Inserts(schedule, k, x) && forall j: nat | k < j < |schedule| :: !Erases(schedule, j, x)
  }

  lemma EarlierUpdates(schedule: seq<Move>, move: Move, k: nat, x: nat)
    requires k < |schedule|
    ensures Inserts(schedule + [move], k, x) <==> Inserts(schedule, k, x)
    ensures Erases(schedule + [move], k, x) <==> Erases(schedule, k, x)
  {
    assert (schedule + [move])[..k] == schedule[..k];
  }

  lemma StillInSetNext(schedule: seq<Move>, move: Move, x: nat)
    ensures var longer := schedule + [move];
      StillInSet(longer, x) <==>
        Inserts(longer, |schedule|, x) || (StillInSet(schedule, x) && !Erases(longer, |schedule|, x))
  {
    var longer := schedule + [move];
    forall k | 0 <= k < |schedule|
      ensures Inserts(longer, k, x) <==> Inserts(schedule, k, x)
      ensures Erases(longer, k, x) <==> Erases(schedule, k, x)
    {
      EarlierUpdates(schedule, move, k, x);
    }
    if StillInSet(schedule, x) && !Erases(longer, |schedule|, x) {
      var k: nat :| Inserts(schedule, k, x) && forall j: nat | k < j < |schedule| :: !Erases(schedule, j, x);
      assert Inserts(longer, k, x);
    }
    if StillInSet(longer, x) && !Inserts(longer, |schedule|, x) {
      var k: nat :| Inserts(longer, k, x) && forall j: nat | k < j < |longer| :: !Erases(longer, j, x);
      assert Inserts(schedule, k, x);
      assert !Erases(longer, |schedule|, x);
    }
  }

  lemma SetAfterStep(s: State, t: nat, a: Action, x: nat)
    requires Typed(s) && t < |s.threads| && Enabled(s, t, a)
    ensures x in Step(s, t, a).idSet <==>
      || (a == Update && s.threads[t] == EnterLocked(x))
      || (x in s.idSet && !(a == Update && s.threads[t] == LeaveLocked(x)))
  {
  }

  /** An id is in the set exactly when the update of a thread that called OnSessionEntered for it has no
      later update of a thread that called OnSessionLeaved for it. */
  lemma {:induction false} SetFollowsSchedule(n: nat, schedule: seq<Move>, s: State, x: nat)
    requires Run(n, schedule) == Some(s)
    ensures x in s.idSet <==> StillInSet(schedule, x)
    decreases |schedule|
  {
    if schedule == [] {
      assert !StillInSet(schedule, x);
    } else {
      var m := |schedule| - 1;
      var before := Run(n, schedule[..m]).value;
      SetFollowsSchedule(n, schedule[..m], before, x);
      SetAfterStep(before, schedule[m].thread, schedule[m].action, x);
      UpdatesAreCalls(n, schedule, x);
      StillInSetNext(schedule[..m], schedule[m], x);
      assert schedule[..m] + [schedule[m]] == schedule;
    }
  }

  lemma UpdatesAreCalls(n: nat, schedule: seq<Move>, x: nat)
    requires schedule != [] && Run(n, schedule).Some?
    ensures var m := |schedule| - 1; var pc := Run(n, schedule[..m]).value.threads[schedule[m].thread];
      && (Inserts(schedule, m, x) <==> schedule[m].action == Update && pc == EnterLocked(x))
      && (Erases(schedule, m, x) <==> schedule[m].action == Update && pc == LeaveLocked(x))
  {
    var m := |schedule| - 1;
    var before := Run(n, schedule[..m]).value;
    CallsAreFollowed(n, schedule[..m], before);
    assert CallOk(schedule[..m], schedule[m].thread, before.threads[schedule[m].thread]);
  }

  // ---------------------------------------------------------------- the snapshot

  /** The move `k` is call `c`'s locking of the mutex, and the id set was `ids` at that moment. */
  ghost predicate LockedWith(n: nat, schedule: seq<Move>, k: nat, c: nat, ids: set<nat>) {
    && k < |schedule| && schedule[k].thread < n && schedule[k].action == Lock && Run(n, schedule[..k]).Some?
    && Run(n, schedule[..k]).value.threads[schedule[k].thread] == CopyWait(c)
    && Run(n, schedule[..k]).value.idSet == ids
  }

  ghost predicate SnapshotOk(n: nat, schedule: seq<Move>, s: State, c: nat)
    requires c < |s.casts|
  {
    || (exists u :: 0 <= u < |s.threads| && s.threads[u] == CopyWait(c))
    || (exists k :: LockedWith(n, schedule, k, c, s.casts[c].snapshot))
  }

  lemma {:induction false} EveryRunKeepsSnapshots(n: nat, schedule: seq<Move>, s: State)
    requires Run(n, schedule) == Some(s)
    ensures forall c | 0 <= c < |s.casts| :: SnapshotOk(n, schedule, s, c)
    decreases |schedule|
  {
    if schedule != [] {
      var m := |schedule| - 1;
      var before := Run(n, schedule[..m]).value;
      EveryRunKeepsSnapshots(n, schedule[..m], before);
      EveryRunKeepsInv(n, schedule[..m], before);
      SnapshotsKept(n, schedule[..m], before, schedule[m].thread, schedule[m].action);
      assert schedule[..m] + [schedule[m]] == schedule;
    }
  }

  lemma SnapshotsKept(n: nat, schedule: seq<Move>, s: State, t: nat, a: Action)
    requires Run(n, schedule) == Some(s) && Inv(s) && t < n && Enabled(s, t, a)
    requires forall c | 0 <= c < |s.casts| :: SnapshotOk(n, schedule, s, c)
    ensures var z := Step(s, t, a);
      forall c | 0 <= c < |z.casts| :: SnapshotOk(n, schedule + [Move(t, a)], z, c)
  {
    forall c | 0 <= c < |Step(s, t, a).casts| ensures SnapshotOk(n, schedule + [Move(t, a)], Step(s, t, a), c) {
      assert c < |s.casts| ==> SnapshotOk(n, schedule, s, c);
      SnapshotAfterStep(n, schedule, s, t, a, c);
    }
  }

  lemma SnapshotAfterStep(n: nat, schedule: seq<Move>, s: State, t: nat, a: Action, c: nat)
    requires Run(n, schedule) == Some(s) && Inv(s) && t < n && Enabled(s, t, a) && c < |Step(s, t, a).casts|
    requires c < |s.casts| ==> SnapshotOk(n, schedule, s, c)
    ensures SnapshotOk(n, schedule + [Move(t, a)], Step(s, t, a), c)
  {
    var z, longer := Step(s, t, a), schedule + [Move(t, a)];
    assert longer[..|schedule|] == schedule;
    CastAfterStep(s, t, a, c);
    if c >= |s.casts| {
      assert z.threads[t] == CopyWait(c);
    } else if a == Lock && s.threads[t] == CopyWait(c) {
      assert LockedWith(n, longer, |schedule|, c, z.casts[c].snapshot);
    } else if u :| 0 <= u < |s.threads| && s.threads[u] == CopyWait(c) {
      assert z.threads[u] == CopyWait(c);
    } else {
      var k: nat :| LockedWith(n, schedule, k, c, s.casts[c].snapshot);
      assert longer[..k] == schedule[..k];
      assert LockedWith(n, longer, k, c, z.casts[c].snapshot);
    }
  }

  lemma CastAfterStep(s: State, t: nat, a: Action, c: nat)
    requires Inv(s) && t < |s.threads| && Enabled(s, t, a) && c < |Step(s, t, a).casts|
    ensures var z := Step(s, t, a);
      && (c >= |s.casts| ==> z.threads[t] == CopyWait(c))
      && (c < |s.casts| && a == Lock && s.threads[t] == CopyWait(c) ==> z.casts[c].snapshot == s.idSet)
      && (c < |s.casts| && !(a == Lock && s.threads[t] == CopyWait(c)) ==> z.casts[c].snapshot == s.casts[c].snapshot)
      && (forall u | 0 <= u < |s.threads| && s.threads[u] == CopyWait(c) && !(a == Lock && u == t) ::
            z.threads[u] == CopyWait(c))
  {
  }

  /** What a call copies is the id set at the move in which it took the mutex, in ascending order and once
      each. With `SetFollowsSchedule` this says which ids are in it by the schedule alone. */
  lemma SnapshotIsTheLockedSet(n: nat, schedule: seq<Move>, s: State, c: nat) returns (k: nat, ids: set<nat>)
    requires Run(n, schedule) == Some(s) && c < |s.casts| && s.casts[c].phase != Copying
    ensures LockedWith(n, schedule, k, c, ids) && s.casts[c].snapshot == ids
    ensures Ascending(s.casts[c].list) && forall x :: x in s.casts[c].list <==> x in ids
  {
    EveryRunKeepsSnapshots(n, schedule, s);
    EveryRunKeepsInv(n, schedule, s);
    SnapshotIsAtomic(n, schedule, s, c);
    forall u | 0 <= u < |s.threads| ensures s.threads[u] != CopyWait(c) {
      assert PcOk(s, u, s.threads[u]);
    }
    assert SnapshotOk(n, schedule, s, c);
    ids := s.casts[c].snapshot;
    k :| LockedWith(n, schedule, k, c, ids);
  }
}
