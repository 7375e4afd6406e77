/** The push message shape shared by the customer and merchant channels (`WebSocketMessage`). */
module Envelopes {
  import opened Wrappers

  /** The six message kinds; `TypeTag` gives the string each carries in its `type` field. */
  datatype MessageType = Connected | PaymentSuccess | OrderStatusChange | NewOrder | OrderCancel | Pong

  function TypeTag(t: MessageType): string {
    match t
    case Connected => "CONNECTED"
    case PaymentSuccess => "PAYMENT_SUCCESS"
    case OrderStatusChange => "ORDER_STATUS_CHANGE"
    case NewOrder => "NEW_ORDER"
    case OrderCancel => "ORDER_CANCEL"
    case Pong => "PONG"
  }

  /** The type tags are pairwise distinct, so a client can tell every kind apart. */
  lemma TypeTagInjective(a: MessageType, b: MessageType)
    requires TypeTag(a) == TypeTag(b)
    ensures a == b
  {
  }

  /** A value placed in a notification's data map (ids, order numbers, amounts, times). */
  datatype Value = Num(n: int) | Text(s: string) | Amount(cents: int) | Time(t: int)

  type Payload = map<string, Value>

  /** One message: `type`, optional `data`, `timestamp` and optional human-readable `message`. */
  datatype Envelope = Envelope(kind: MessageType, data: Option<Payload>, timestamp: int, message: Option<string>)

  /** The acknowledgement both endpoints send on open. */
  function ConnectedMessage(now: int): (e: Envelope)
    ensures e.kind == Connected && e.data == None && e.timestamp == now
    ensures e.message == Some("连接成功")
  {
    Envelope(Connected, None, now, Some("连接成功"))
  }

  /** The heartbeat answer: no data and no message text. */
  function PongMessage(now: int): (e: Envelope)
    ensures e.kind == Pong && e.data == None && e.message == None && e.timestamp == now
  {
    Envelope(Pong, None, now, None)
  }

  /** The heartbeat request text both endpoints recognise. */
  const PING: string := "ping"
}
