/** The broadcaster's own methods, run by one thread at a time. */
module Broadcaster {
  import opened Bytes
  import opened PacketDispatch
  import BroadcastTheorems

  class Session {
    const sessionId: nat
    var isReleasedSession: bool
    var sendQueue: seq<seq<byte>>

    constructor (id: nat)
      ensures sessionId == id && !isReleasedSession && sendQueue == []
    {
      sessionId := id;
      isReleasedSession := false;
      sendQueue := [];
    }

    method SendPacket(buffer: seq<byte>)
      modifies `sendQueue
      ensures sendQueue == old(sendQueue) + [buffer]
    {
      sendQueue := sendQueue + [buffer];
    }
  }

  class Server {
    var sessionMap: map<nat, Session>

    constructor ()
      ensures Valid() && sessionMap == map[]
    {
      sessionMap := map[];
    }

    ghost predicate Valid()
      reads this
    {
      forall id | id in sessionMap :: sessionMap[id].sessionId == id
    }

    ghost function Sessions(): set<Session>
      reads this
    {
      sessionMap.Values
    }

    method GetSession(id: nat) returns (session: Session?)
      ensures id in sessionMap ==> session == sessionMap[id]
      ensures id !in sessionMap ==> session == null
    {
      session := if id in sessionMap then sessionMap[id] else null;
    }
  }

  class SessionBroadcaster {
    var sessionIdSet: set<nat>

    constructor ()
      ensures sessionIdSet == {}
    {
      sessionIdSet := {};
    }

    method OnSessionEntered(id: nat)
      modifies this
      ensures sessionIdSet == old(sessionIdSet) + {id}
    {
      sessionIdSet := sessionIdSet + {id};
    }

    method OnSessionLeaved(id: nat)
      modifies this
      ensures sessionIdSet == old(sessionIdSet) - {id}
    {
      sessionIdSet := sessionIdSet - {id};
    }

    /** The copy loop: the set's elements, in the order a sorted set is iterated. */
    method CopyIds() returns (ids: seq<nat>)
      ensures BroadcastTheorems.Ascending(ids)
      ensures forall x :: x in ids <==> x in sessionIdSet
    {
      var remaining := sessionIdSet;
      ids := [];
      while remaining != {}
        invariant remaining <= sessionIdSet
        invariant BroadcastTheorems.Ascending(ids)
        invariant forall x :: x in ids <==> x in sessionIdSet - remaining
        invariant forall x, y | x in ids && y in remaining :: x < y
        decreases |remaining|
      {
        BroadcastTheorems.LeastExists(remaining);
        var next :| next in remaining && BroadcastTheorems.IsLeast(remaining, next);
        BroadcastTheorems.AscendingAppend(ids, next);
        ids := ids + [next];
        remaining := remaining - {next};
      }
    }

    /** Every mapped, unreleased session whose id is in the set gets the packet once; nobody else gets
        anything; the id set and the session map stay as they are. */
    method BroadcastToAllSession(server: Server, packet: Packet)
      requires server.Valid() && Sendable(packet)
      modifies server.Sessions()`sendQueue
      ensures forall id | id in server.sessionMap ::
        server.sessionMap[id].sendQueue == old(server.sessionMap[id].sendQueue) +
          if id in sessionIdSet && !server.sessionMap[id].isReleasedSession then [PacketBytes(packet)] else []
    {
      var buffer := SendPacket(packet);
      var ids := CopyIds();
      for i := 0 to |ids|
        invariant buffer.Valid() && buffer.Unread() == PacketBytes(packet)
        invariant forall id | id in server.sessionMap ::
          server.sessionMap[id].sendQueue == old(server.sessionMap[id].sendQueue) +
            if id in ids[..i] && !server.sessionMap[id].isReleasedSession then [PacketBytes(packet)] else []
      {
        BroadcastTheorems.EarlierIdsAreSmaller(ids, i);
        assert ids[..i + 1] == ids[..i] + [ids[i]];
        var session := server.GetSession(ids[i]);
        if session == null {
          continue;
        } else if session.isReleasedSession {
          continue;
        }
        session.SendPacket(buffer.bytes[buffer.readPos..]);
      }
      assert ids[..|ids|] == ids;
    }
  }
}
