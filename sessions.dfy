/**
 * The registry map shared in shape by both push endpoints: party id -> session.
 * A session is open or closed, may fail on write (`broken`: `sendText` throws),
 * and records in `outbox` every message written to it.
 */
module Sessions {
  import opened Envelopes

  datatype Session = Session(open: bool, broken: bool, outbox: seq<Envelope>)

  type Registry = map<int, Session>

  /** `session != null && session.isOpen()`. */
  predicate Online(m: Registry, id: int) {
    id in m && m[id].open
  }

  /** A write to this session reaches its outbox (it is open and does not throw). */
  predicate Writable(s: Session) {
    s.open && !s.broken
  }

  function Written(s: Session, e: Envelope): Session {
    if Writable(s) then s.(outbox := s.outbox + [e]) else s
  }

  /**
   * Unicast: look the party up; if its session is open, write `e`, swallowing a write failure.
   * Absent, closed or failing sessions leave everything as it was.
   */
  function Deliver(m: Registry, id: int, e: Envelope): (r: Registry)
    ensures r.Keys == m.Keys
    ensures forall k :: k in m && k != id ==> r[k] == m[k]
    ensures id in m ==> r[id].open == m[id].open && r[id].broken == m[id].broken
    ensures id in m && Writable(m[id]) ==> r[id].outbox == m[id].outbox + [e]
    ensures !(id in m && Writable(m[id])) ==> r == m
  {
    if id in m then m[id := Written(m[id], e)] else m
  }

  /** Broadcast: every open session gets `e` once, closed ones are skipped, a failing one does not stop the rest. */
  function Broadcast(m: Registry, e: Envelope): (r: Registry)
    ensures r.Keys == m.Keys
    ensures forall k :: k in m ==> r[k].open == m[k].open && r[k].broken == m[k].broken
    ensures forall k :: k in m && Writable(m[k]) ==> r[k].outbox == m[k].outbox + [e]
    ensures forall k :: k in m && !Writable(m[k]) ==> r[k] == m[k]
  {
    map k | k in m :: Written(m[k], e)
  }

  lemma NonEmptyHasMember(s: set<int>)
    requires s != {}
    ensures exists k :: k in s
  {
    if forall k :: k !in s {
      assert false;
    }
  }

  /** A unicast message addressed to a party. */
  datatype Notice = Notice(to: int, envelope: Envelope)

  /** The registry after sending the notices in order. */
  function DeliverAll(m: Registry, ns: seq<Notice>): (r: Registry)
    ensures r.Keys == m.Keys
    decreases |ns|
  {
    if ns == [] then m
    else Deliver(DeliverAll(m, ns[..|ns| - 1]), ns[|ns| - 1].to, ns[|ns| - 1].envelope)
  }

  /** Only the messages addressed to a party reach it: its outbox grows by exactly those, in order. */
  function AddressedTo(ns: seq<Notice>, id: int): (r: seq<Envelope>)
    ensures |r| <= |ns|
    decreases |ns|
  {
    if ns == [] then []
    else AddressedTo(ns[..|ns| - 1], id) + (if ns[|ns| - 1].to == id then [ns[|ns| - 1].envelope] else [])
  }

  lemma {:induction false} DeliverAllOutbox(m: Registry, ns: seq<Notice>, id: int)
    requires id in m
    ensures DeliverAll(m, ns)[id].open == m[id].open && DeliverAll(m, ns)[id].broken == m[id].broken
    ensures DeliverAll(m, ns)[id].outbox
         == m[id].outbox + (if Writable(m[id]) then AddressedTo(ns, id) else [])
    decreases |ns|
  {
    if ns != [] {
      var init := ns[..|ns| - 1];
      DeliverAllOutbox(m, init, id);
    }
  }

  /** Sending never changes which parties are registered, nor any session's open/failing state. */
  lemma {:induction false} DeliverAllKeepsRegistry(m: Registry, ns: seq<Notice>)
    ensures forall k :: k in m ==>
      DeliverAll(m, ns)[k].open == m[k].open && DeliverAll(m, ns)[k].broken == m[k].broken
  {
    forall k | k in m
      ensures DeliverAll(m, ns)[k].open == m[k].open && DeliverAll(m, ns)[k].broken == m[k].broken
    {
      DeliverAllOutbox(m, ns, k);
    }
  }

  /** Registering replaces whatever session the party had; it is then online iff the new one is open. */
  lemma RegisterReplaces(m: Registry, id: int, s: Session)
    ensures Online(m[id := s], id) <==> s.open
    ensures forall k :: k != id ==> (Online(m[id := s], k) <==> Online(m, k))
  {
  }

  /** Removing a party takes it offline, leaves every other party as it was, and shrinks the count by one iff it was registered. */
  lemma UnregisterRemoves(m: Registry, id: int)
    ensures !Online(m - {id}, id)
    ensures forall k :: k != id ==> (Online(m - {id}, k) <==> Online(m, k))
    ensures |m - {id}| == if id in m then |m| - 1 else |m|
  {
    if id in m {
      assert (m - {id}).Keys + {id} == m.Keys;
    } else {
      assert m - {id} == m;
    }
  }
}
