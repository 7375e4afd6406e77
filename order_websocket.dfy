/** The customer push endpoint `/ws/order/{userId}` (`OrderWebSocket`). */
module OrderSocket {
  import opened Wrappers
  import opened Envelopes
  import opened Sessions

  function PaymentSuccessMessage(orderData: Payload, now: int): (e: Envelope)
    ensures e.kind == PaymentSuccess && e.data == Some(orderData) && e.timestamp == now
    ensures e.message == Some("支付成功")
  {
    Envelope(PaymentSuccess, Some(orderData), now, Some("支付成功"))
  }

  function OrderStatusChangeMessage(orderData: Payload, now: int): (e: Envelope)
    ensures e.kind == OrderStatusChange && e.data == Some(orderData) && e.timestamp == now
    ensures e.message == Some("订单状态已更新")
  {
    Envelope(OrderStatusChange, Some(orderData), now, Some("订单状态已更新"))
  }

  function OrderCancelMessage(orderData: Payload, now: int): (e: Envelope)
    ensures e.kind == OrderCancel && e.data == Some(orderData) && e.timestamp == now
    ensures e.message == Some("订单已取消")
  {
    Envelope(OrderCancel, Some(orderData), now, Some("订单已取消"))
  }

  /** The process-wide `userSessions` registry and the operations on it. */
  class OrderWebSocket {
    var userSessions: Registry

    constructor ()
      ensures userSessions == map[]
    {
      userSessions := map[];
    }

    /** Register (replacing any earlier session of the user), then acknowledge with CONNECTED. */
    method OnOpen(session: Session, userId: int, now: int)
      modifies this
      ensures userSessions == Deliver(old(userSessions)[userId := session], userId, ConnectedMessage(now))
      ensures userId in userSessions && userSessions[userId].open == session.open
      ensures forall k :: k in old(userSessions) && k != userId ==> k in userSessions && userSessions[k] == old(userSessions)[k]
    {
      userSessions := userSessions[userId := session];
      SendToUser(userId, ConnectedMessage(now));
    }

    method OnClose(userId: int)
      modifies this
      ensures userSessions == old(userSessions) - {userId}
    {
      userSessions := userSessions - {userId};
    }

    /** A `"ping"` text is answered with one PONG; any other text sends nothing. */
    method OnMessage(message: string, userId: int, now: int)
      modifies this
      ensures message == PING ==> userSessions == Deliver(old(userSessions), userId, PongMessage(now))
      ensures message != PING ==> userSessions == old(userSessions)
    {
      if message == PING {
        SendToUser(userId, PongMessage(now));
      }
    }

    /** Write to the user's session when it is present and open; a failing write is swallowed. */
    method SendToUser(userId: int, message: Envelope)
      modifies this
      ensures userSessions == Deliver(old(userSessions), userId, message)
    {
      if userId in userSessions && userSessions[userId].open {
        var session := userSessions[userId];
        if !session.broken {
          userSessions := userSessions[userId := session.(outbox := session.outbox + [message])];
        }
      }
    }

    method SendPaymentSuccess(userId: int, orderNumber: string, orderData: Payload, now: int)
      modifies this
      ensures userSessions == Deliver(old(userSessions), userId, PaymentSuccessMessage(orderData, now))
    {
      SendToUser(userId, PaymentSuccessMessage(orderData, now));
    }

    method SendOrderStatusChange(userId: int, orderData: Payload, now: int)
      modifies this
      ensures userSessions == Deliver(old(userSessions), userId, OrderStatusChangeMessage(orderData, now))
    {
      SendToUser(userId, OrderStatusChangeMessage(orderData, now));
    }

    method SendOrderCancel(userId: int, orderData: Payload, now: int)
      modifies this
      ensures userSessions == Deliver(old(userSessions), userId, OrderCancelMessage(orderData, now))
    {
      SendToUser(userId, OrderCancelMessage(orderData, now));
    }

    /** Online means registered with an open session. */
    function IsOnline(userId: int): (r: bool)
      reads this
      ensures r <==> userId in userSessions && userSessions[userId].open
    {
      Online(userSessions, userId)
    }

    /** The number of registered users, closed sessions included. */
    function GetOnlineCount(): (r: int)
      reads this
      ensures r == |userSessions.Keys|
    {
      |userSessions|
    }
  }
}
