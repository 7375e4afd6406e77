/** The merchant push endpoint `/ws/admin/{adminId}` (`AdminWebSocket`). */
module AdminSocket {
  import opened Wrappers
  import opened Envelopes
  import opened Sessions

  function NewOrderMessage(orderData: Payload, now: int): (e: Envelope)
    ensures e.kind == NewOrder && e.data == Some(orderData) && e.timestamp == now
    ensures e.message == Some("您有新的订单")
  {
    Envelope(NewOrder, Some(orderData), now, Some("您有新的订单"))
  }

  /** The process-wide `adminSessions` registry and the operations on it. */
  class AdminWebSocket {
    var adminSessions: Registry

    constructor ()
      ensures adminSessions == map[]
    {
      adminSessions := map[];
    }

    /** Register (replacing any earlier session of the merchant), then acknowledge with CONNECTED. */
    method OnOpen(session: Session, adminId: int, now: int)
      modifies this
      ensures adminSessions == Deliver(old(adminSessions)[adminId := session], adminId, ConnectedMessage(now))
      ensures adminId in adminSessions && adminSessions[adminId].open == session.open
      ensures forall k :: k in old(adminSessions) && k != adminId ==> k in adminSessions && adminSessions[k] == old(adminSessions)[k]
    {
      adminSessions := adminSessions[adminId := session];
      SendToAdmin(adminId, ConnectedMessage(now));
    }

    method OnClose(adminId: int)
      modifies this
      ensures adminSessions == old(adminSessions) - {adminId}
    {
      adminSessions := adminSessions - {adminId};
    }

    /** A `"ping"` text is answered with one PONG; any other text sends nothing. */
    method OnMessage(message: string, adminId: int, now: int)
      modifies this
      ensures message == PING ==> adminSessions == Deliver(old(adminSessions), adminId, PongMessage(now))
      ensures message != PING ==> adminSessions == old(adminSessions)
    {
      if message == PING {
        SendToAdmin(adminId, PongMessage(now));
      }
    }

    /** Write to the merchant's session when it is present and open; a failing write is swallowed. */
    method SendToAdmin(adminId: int, message: Envelope)
      modifies this
      ensures adminSessions == Deliver(old(adminSessions), adminId, message)
    {
      if adminId in adminSessions && adminSessions[adminId].open {
        var session := adminSessions[adminId];
        if !session.broken {
          adminSessions := adminSessions[adminId := session.(outbox := session.outbox + [message])];
        }
      }
    }

    /**
     * Serialise one NEW_ORDER message and write it to every registered open session,
     * skipping closed ones and going on past a session whose write fails.
     */
    method SendNewOrder(orderData: Payload, now: int)
      modifies this
      ensures adminSessions == Broadcast(old(adminSessions), NewOrderMessage(orderData, now))
    {
      var message := NewOrderMessage(orderData, now);
      ghost var before := adminSessions;
      var pending := adminSessions.Keys;
      while pending != {}
        invariant pending <= before.Keys
        invariant adminSessions.Keys == before.Keys
        invariant forall k :: k in before && k !in pending ==> adminSessions[k] == Written(before[k], message)
        invariant forall k :: k in pending ==> adminSessions[k] == before[k]
        decreases pending
      {
        NonEmptyHasMember(pending);
        var adminId :| adminId in pending;
        var session := adminSessions[adminId];
        if session.open && !session.broken {
          adminSessions := adminSessions[adminId := session.(outbox := session.outbox + [message])];
        }
        pending := pending - {adminId};
      }
      assert forall k :: k in before ==> adminSessions[k] == Broadcast(before, message)[k];
    }

    /** Online means registered with an open session. */
    function IsOnline(adminId: int): (r: bool)
      reads this
      ensures r <==> adminId in adminSessions && adminSessions[adminId].open
    {
      Online(adminSessions, adminId)
    }

    /** The number of registered merchants, closed sessions included. */
    function GetOnlineCount(): (r: int)
      reads this
      ensures r == |adminSessions.Keys|
    {
      |adminSessions|
    }
  }
}
