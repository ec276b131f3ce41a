/** Broadcasting while sessions come and go, as a step relation over any number of threads.

    A broadcaster copies the id set under the mutex, one element at a time, and then sends with no lock:
    for each copied id it looks the session up, checks the release flag and sends, each in its own step.
    In between, sessions are mapped, unmapped and released, and other threads insert and erase ids. */
module BroadcastProtocol {
  import opened Wrappers

  datatype Phase = Copying | Sending | Finished

  /** One BroadcastToAllSession call. `list` is what the loop has copied and `next` how far the send loop
      got. `snapshot` (the id set when the lock was taken) and `gone` (the sessions already unmapped when
      the call began) are history. */
  datatype Cast = Cast(thread: nat, phase: Phase, list: seq<nat>, next: nat, snapshot: set<nat>, gone: set<nat>)

  /** One `session->SendPacket(*buffer)`. */
  datatype Delivery = Delivery(cast: nat, session: nat)

  datatype Pc =
    | Idle
    | EnterWait(id: nat) | EnterLocked(id: nat)
    | LeaveWait(id: nat) | LeaveLocked(id: nat)
    | SetUpdated
    | CopyWait(cast: nat) | CopyLoop(cast: nat)
    | SendLoop(cast: nat) | Found(cast: nat) | Cleared(cast: nat)

  /** `issued` are the ids ever given to a session. `inserted` are those OnSessionEntered has inserted;
      OnSessionLeaved has erased `cleared` after that and `early` before it. These three are history and
      decide nothing else. */
  datatype State = State(
    mapped: set<nat>,
    released: set<nat>,
    issued: set<nat>,
    entered: set<nat>,
    idSet: set<nat>,
    inserted: set<nat>,
    cleared: set<nat>,
    early: set<nat>,
    lock: Option<nat>,
    threads: seq<Pc>,
    casts: seq<Cast>,
    sent: seq<Delivery>
  ) {
    function At(t: nat, pc: Pc): State
      requires t < |threads|
    {
      this.(threads := threads[t := pc])
    }

    function With(c: nat, cast: Cast): State
      requires c < |casts|
    {
      this.(casts := casts[c := cast])
    }
  }

  datatype Action =
    | MapSession(id: nat) | Unmap(id: nat) | Release(id: nat)
    | Enter(id: nat) | Leave(id: nat) | Lock | Update | Unlock
    | Begin | CopyNext(id: nat) | Get | Check | Send | Finish

  predicate InCast(pc: Pc) {
    pc.CopyWait? || pc.CopyLoop? || pc.SendLoop? || pc.Found? || pc.Cleared?
  }

  ghost predicate Typed(s: State) {
    forall t | 0 <= t < |s.threads| && InCast(s.threads[t]) :: s.threads[t].cast < |s.casts|
  }

  /** The element `std::set` iteration visits after those copied so far. */
  ghost predicate IsNext(ids: set<nat>, copied: seq<nat>, x: nat) {
    && x in ids
    && (copied != [] ==> copied[|copied| - 1] < x)
    && (forall y | y in ids && (copied != [] ==> copied[|copied| - 1] < y) :: x <= y)
  }

  ghost predicate AllCopied(ids: set<nat>, copied: seq<nat>) {
    forall y | y in ids :: copied != [] && y <= copied[|copied| - 1]
  }

  predicate WantsLock(pc: Pc) {
    pc.EnterWait? || pc.LeaveWait? || pc.CopyWait?
  }

  ghost predicate Enabled(s: State, t: nat, a: Action)
    requires Typed(s) && t < |s.threads|
  {
    var pc := s.threads[t];
    match a
    // ids are never reused
    case MapSession(id) => id !in s.issued
    case Unmap(id) => id in s.mapped
    // the flag is only ever read in the source; a schedule without this action is the code as written
    case Release(id) => id in s.issued
    // the accepter enters a session once, after mapping it; leaving may come at any time after mapping
    case Enter(id) => pc.Idle? && id in s.issued && id !in s.entered
    case Leave(id) => pc.Idle? && id in s.issued
    case Lock => WantsLock(pc) && s.lock.None?
    case Update => pc.EnterLocked? || pc.LeaveLocked?
    case Unlock => pc.SetUpdated? || (pc.CopyLoop? && AllCopied(s.idSet, s.casts[pc.cast].list))
    case Begin => pc.Idle?
    case CopyNext(id) => pc.CopyLoop? && IsNext(s.idSet, s.casts[pc.cast].list, id)
    case Get => pc.SendLoop? && s.casts[pc.cast].next < |s.casts[pc.cast].list|
    case Check => pc.Found?
    case Send => pc.Cleared? && s.casts[pc.cast].next < |s.casts[pc.cast].list|
    case Finish => pc.SendLoop? && s.casts[pc.cast].next >= |s.casts[pc.cast].list|
  }

  function DoLock(s: State, t: nat): State
    requires t < |s.threads| && WantsLock(s.threads[t]) && (s.threads[t].CopyWait? ==> s.threads[t].cast < |s.casts|)
  {
    var n := s.(lock := Some(t));
    match s.threads[t]
    case EnterWait(id) => n.At(t, EnterLocked(id))
    case LeaveWait(id) => n.At(t, LeaveLocked(id))
    case CopyWait(c) => n.With(c, s.casts[c].(snapshot := s.idSet)).At(t, CopyLoop(c))
  }

  /** `sessionIdSet.insert` or `sessionIdSet.erase`. */
  function DoUpdate(s: State, t: nat): State
    requires t < |s.threads| && (s.threads[t].EnterLocked? || s.threads[t].LeaveLocked?)
  {
    var id := s.threads[t].id;
    if s.threads[t].EnterLocked?
    then s.(idSet := s.idSet + {id}, inserted := s.inserted + {id}).At(t, SetUpdated)
    else
      s.(idSet := s.idSet - {id},
         cleared := if id in s.inserted then s.cleared + {id} else s.cleared,
         early := if id in s.inserted then s.early else s.early + {id}).At(t, SetUpdated)
  }

  function DoUnlock(s: State, t: nat): State
    requires t < |s.threads| && (s.threads[t].SetUpdated? || (s.threads[t].CopyLoop? && s.threads[t].cast < |s.casts|))
  {
    var n := s.(lock := None);
    match s.threads[t]
    case SetUpdated => n.At(t, Idle)
    case CopyLoop(c) => n.With(c, s.casts[c].(phase := Sending)).At(t, SendLoop(c))
  }

  function DoBegin(s: State, t: nat): State
    requires t < |s.threads|
  {
    s.(casts := s.casts + [Cast(t, Copying, [], 0, {}, s.issued - s.mapped)]).At(t, CopyWait(|s.casts|))
  }

  function DoCopyNext(s: State, t: nat, id: nat): State
    requires t < |s.threads| && s.threads[t].CopyLoop? && s.threads[t].cast < |s.casts|
  {
    var c := s.threads[t].cast;
    s.With(c, s.casts[c].(list := s.casts[c].list + [id]))
  }

  /** The loop moves on to the next id. */
  function Skip(s: State, t: nat, c: nat): State
    requires t < |s.threads| && c < |s.casts|
  {
    s.With(c, s.casts[c].(next := s.casts[c].next + 1)).At(t, SendLoop(c))
  }

  /** GetSession: null when the session is not mapped. */
  function DoGet(s: State, t: nat): State
    requires t < |s.threads| && s.threads[t].SendLoop? && s.threads[t].cast < |s.casts|
    requires s.casts[s.threads[t].cast].next < |s.casts[s.threads[t].cast].list|
  {
    var c := s.threads[t].cast;
    if s.casts[c].list[s.casts[c].next] in s.mapped then s.At(t, Found(c)) else Skip(s, t, c)
  }

  /** IsReleasedSession. */
  function DoCheck(s: State, t: nat): State
    requires t < |s.threads| && s.threads[t].Found? && s.threads[t].cast < |s.casts|
  {
    var c := s.threads[t].cast;
    if s.casts[c].next < |s.casts[c].list| && s.casts[c].list[s.casts[c].next] in s.released
    then Skip(s, t, c) else s.At(t, Cleared(c))
  }

  function DoSend(s: State, t: nat): State
    requires t < |s.threads| && s.threads[t].Cleared? && s.threads[t].cast < |s.casts|
    requires s.casts[s.threads[t].cast].next < |s.casts[s.threads[t].cast].list|
  {
    var c := s.threads[t].cast;
    Skip(s.(sent := s.sent + [Delivery(c, s.casts[c].list[s.casts[c].next])]), t, c)
  }

  function DoFinish(s: State, t: nat): State
    requires t < |s.threads| && s.threads[t].SendLoop? && s.threads[t].cast < |s.casts|
  {
    var c := s.threads[t].cast;
    s.With(c, s.casts[c].(phase := Finished)).At(t, Idle)
  }

  ghost function Step(s: State, t: nat, a: Action): (n: State)
    requires Typed(s) && t < |s.threads| && Enabled(s, t, a)
    ensures Typed(n) && |n.threads| == |s.threads|
  {
    match a
    case MapSession(id) => s.(mapped := s.mapped + {id}, issued := s.issued + {id})
    case Unmap(id) => s.(mapped := s.mapped - {id})
    case Release(id) => s.(released := s.released + {id})
    case Enter(id) => s.(entered := s.entered + {id}).At(t, EnterWait(id))
    case Leave(id) => s.At(t, LeaveWait(id))
    case Lock => DoLock(s, t)
    case Update => DoUpdate(s, t)
    case Unlock => DoUnlock(s, t)
    case Begin => DoBegin(s, t)
    case CopyNext(id) => DoCopyNext(s, t, id)
    case Get => DoGet(s, t)
    case Check => DoCheck(s, t)
    case Send => DoSend(s, t)
    case Finish => DoFinish(s, t)
  }

  function Init(n: nat): State {
    State({}, {}, {}, {}, {}, {}, {}, {}, None, seq(n, _ => Idle), [], [])
  }

  datatype Move = Move(thread: nat, action: Action)

  ghost function Run(n: nat, schedule: seq<Move>): (r: Option<State>)
    ensures r.Some? ==> Typed(r.value) && |r.value.threads| == n
  {
    if schedule == [] then Some(Init(n))
    else
      var Move(t, a) := schedule[|schedule| - 1];
      var before := Run(n, schedule[..|schedule| - 1]);
      if before.None? || t >= n || !Enabled(before.value, t, a) then None
      else Some(Step(before.value, t, a))
  }
}
