/**
 * `OrderTask.processTimeoutOrder`: the once-a-minute sweep that cancels every order still
 * PENDING_PAYMENT fifteen minutes after it was placed and tells its owner.
 */
module OrderTasks {
  import opened Wrappers
  import opened Orders
  import opened Persistence
  import opened Envelopes
  import opened Sessions
  import OrderSocket

  /** The reason written on, and pushed with, every order the sweep cancels. */
  const TIMEOUT_REASON: string := "订单超时，自动取消"
  /** Fifteen minutes. */
  const TIMEOUT_MILLIS: int := 15 * 60 * 1000

  /** The update the sweep writes for one order: status, reason and time, nothing else. */
  function CancelledOrder(o: Order, now: Millis): (c: Order)
    ensures c.status == Cancelled && c.cancelReason == Some(TIMEOUT_REASON) && c.cancelTime == Some(now)
    ensures c.(status := o.status, cancelReason := o.cancelReason, cancelTime := o.cancelTime) == o
  {
    o.(status := Cancelled, cancelReason := Some(TIMEOUT_REASON), cancelTime := Some(now))
  }

  /** The data pushed to the owner of a cancelled order. */
  function CancelData(o: Order): Payload {
    map["orderId" := Num(o.id), "orderNumber" := Text(o.number), "cancelReason" := Text(TIMEOUT_REASON)]
  }

  lemma CancelDataFields(o: Order)
    ensures var d := CancelData(o);
      && d.Keys == {"orderId", "orderNumber", "cancelReason"}
      && d["orderId"] == Num(o.id) && d["orderNumber"] == Text(o.number) && d["cancelReason"] == Text(TIMEOUT_REASON)
  {
  }

  /** Ids the sweep selects at `now`: pending orders placed strictly before the cut-off, ascending. */
  function TimedOut(orders: map<int, Order>, nextId: int, now: Millis): (ids: seq<int>)
    ensures forall id :: id in ids <==>
      1 <= id < nextId && id in orders && orders[id].status == PendingPayment && orders[id].orderTime < now - TIMEOUT_MILLIS
    ensures forall i, j :: 0 <= i < j < |ids| ==> ids[i] < ids[j]
  {
    IdsByStatusBefore(orders, PendingPayment, now - TIMEOUT_MILLIS, nextId)
  }

  /** The order table after cancelling the snapshot orders with the given ids. */
  function SweepTable(orders: map<int, Order>, ids: seq<int>, now: Millis): (r: map<int, Order>)
    ensures r.Keys == orders.Keys
  {
    map id | id in orders :: if id in ids then CancelledOrder(orders[id], now) else orders[id]
  }

  /** The notifications the sweep sends, one per selected order, in selection order. */
  function CancelNotices(orders: map<int, Order>, ids: seq<int>, now: Millis): (ns: seq<Notice>)
    requires forall i :: 0 <= i < |ids| ==> ids[i] in orders
    ensures |ns| == |ids|
    ensures forall i :: 0 <= i < |ids| ==>
      ns[i] == Notice(orders[ids[i]].userId, OrderSocket.OrderCancelMessage(CancelData(orders[ids[i]]), now))
  {
    seq(|ids|, i requires 0 <= i < |ids| =>
      Notice(orders[ids[i]].userId, OrderSocket.OrderCancelMessage(CancelData(orders[ids[i]]), now)))
  }

  /**
   * One sweep cancels exactly the orders that were pending and placed before the cut-off, keeping
   * their pay status and every other field, and leaves every other order as it was.
   */
  lemma SweepCancelsExactlyTimedOut(orders: map<int, Order>, index: map<string, int>, nextId: int, now: Millis)
    requires TableValid(orders, index, nextId)
    ensures var r := SweepTable(orders, TimedOut(orders, nextId, now), now);
      forall id :: id in orders ==>
        if orders[id].status == PendingPayment && orders[id].orderTime < now - TIMEOUT_MILLIS
        then r[id] == CancelledOrder(orders[id], now) && r[id].payStatus == orders[id].payStatus
        else r[id] == orders[id]
  {
    var ids := TimedOut(orders, nextId, now);
    forall id | id in orders
      ensures id in ids <==> orders[id].status == PendingPayment && orders[id].orderTime < now - TIMEOUT_MILLIS
    {
      assert id < nextId;
    }
  }

  /** After a sweep no order is left that the same sweep, or one at an earlier time, would select. */
  lemma NoStaleOrderAfterSweep(orders: map<int, Order>, index: map<string, int>, nextId: int, now: Millis, later: Millis)
    requires TableValid(orders, index, nextId)
    requires later <= now
    ensures TimedOut(SweepTable(orders, TimedOut(orders, nextId, now), now), nextId, later) == []
  {
    var r := SweepTable(orders, TimedOut(orders, nextId, now), now);
    SweepCancelsExactlyTimedOut(orders, index, nextId, now);
    SweepKeepsTableValid(orders, index, nextId, now);
    forall id | id in r
      ensures !(r[id].status == PendingPayment && r[id].orderTime < later - TIMEOUT_MILLIS)
    {
    }
    NothingSelected(r, PendingPayment, later - TIMEOUT_MILLIS, nextId);
  }

  /** A sweep that finds nothing changes nothing: running it twice in the same minute is running it once. */
  lemma SecondSweepIsNoop(orders: map<int, Order>, index: map<string, int>, nextId: int, now: Millis)
    requires TableValid(orders, index, nextId)
    ensures var once := SweepTable(orders, TimedOut(orders, nextId, now), now);
      SweepTable(once, TimedOut(once, nextId, now), now) == once
  {
    var once := SweepTable(orders, TimedOut(orders, nextId, now), now);
    NoStaleOrderAfterSweep(orders, index, nextId, now, now);
    SweepEmptyIsNoop(once, now);
  }

  /** Cancelling no ids gives back the table. */
  lemma SweepEmptyIsNoop(orders: map<int, Order>, now: Millis)
    ensures SweepTable(orders, [], now) == orders
  {
  }

  /** A sweep keeps the order table well formed; in particular no paid order is pending afterwards. */
  lemma SweepKeepsTableValid(orders: map<int, Order>, index: map<string, int>, nextId: int, now: Millis)
    requires TableValid(orders, index, nextId)
    ensures TableValid(SweepTable(orders, TimedOut(orders, nextId, now), now), index, nextId)
  {
  }

  /**
   * What one user receives from a sweep: a cancel message carrying an order's id, number and the
   * timeout reason, for every selected order of theirs and nothing else.
   */
  lemma {:induction false} CancelNoticesFor(orders: map<int, Order>, ids: seq<int>, now: Millis, u: int)
    requires forall i :: 0 <= i < |ids| ==> ids[i] in orders
    ensures forall e :: e in AddressedTo(CancelNotices(orders, ids, now), u) <==>
      exists i :: 0 <= i < |ids| && orders[ids[i]].userId == u &&
        e == OrderSocket.OrderCancelMessage(CancelData(orders[ids[i]]), now)
    decreases |ids|
  {
    var ns := CancelNotices(orders, ids, now);
    if ids != [] {
      var init := ids[..|ids| - 1];
      assert ns[..|ns| - 1] == CancelNotices(orders, init, now);
      CancelNoticesFor(orders, init, now, u);
      forall e
        ensures e in AddressedTo(ns, u) <==>
          exists i :: 0 <= i < |ids| && orders[ids[i]].userId == u &&
            e == OrderSocket.OrderCancelMessage(CancelData(orders[ids[i]]), now)
      {
        if e in AddressedTo(ns, u) && e !in AddressedTo(ns[..|ns| - 1], u) {
          var i := |ids| - 1;
          assert orders[ids[i]].userId == u && e == OrderSocket.OrderCancelMessage(CancelData(orders[ids[i]]), now);
        }
        if exists i :: 0 <= i < |ids| && orders[ids[i]].userId == u &&
             e == OrderSocket.OrderCancelMessage(CancelData(orders[ids[i]]), now) {
          var i :| 0 <= i < |ids| && orders[ids[i]].userId == u &&
            e == OrderSocket.OrderCancelMessage(CancelData(orders[ids[i]]), now);
          if i < |init| {
            assert init[i] == ids[i];
          }
        }
      }
    }
  }

  /** Sweeping one more id: the table gains that one cancelled snapshot order. */
  lemma SweepStep(orders: map<int, Order>, ids: seq<int>, k: nat, now: Millis)
    requires k < |ids| && ids[k] in orders
    ensures SweepTable(orders, ids[..k + 1], now)
         == SweepTable(orders, ids[..k], now)[ids[k] := CancelledOrder(orders[ids[k]], now)]
  {
    assert ids[..k + 1] == ids[..k] + [ids[k]];
  }

  /** Sending the notice of one more selected order. */
  lemma NoticeStep(m: Registry, orders: map<int, Order>, ids: seq<int>, k: nat, now: Millis)
    requires forall i :: 0 <= i < |ids| ==> ids[i] in orders
    requires k < |ids|
    ensures DeliverAll(m, CancelNotices(orders, ids[..k + 1], now))
         == Deliver(DeliverAll(m, CancelNotices(orders, ids[..k], now)),
                    orders[ids[k]].userId, OrderSocket.OrderCancelMessage(CancelData(orders[ids[k]]), now))
  {
    var ns := CancelNotices(orders, ids[..k + 1], now);
    assert ns[..k] == CancelNotices(orders, ids[..k], now);
  }

  class OrderTask {
    const db: Database
    const userWs: OrderSocket.OrderWebSocket

    constructor (db: Database, userWs: OrderSocket.OrderWebSocket)
      ensures this.db == db && this.userWs == userWs
    {
      this.db, this.userWs := db, userWs;
    }

    /** One iteration of the sweep: write the order back cancelled, then tell its owner. */
    method CancelAndNotify(order: Order, now: Millis)
      modifies db, userWs
      ensures db.orders == old(db.orders)[order.id := CancelledOrder(order, now)]
      ensures db.State() == old(db.State()).(orders := db.orders)
      ensures userWs.userSessions ==
        Deliver(old(userWs.userSessions), order.userId, OrderSocket.OrderCancelMessage(CancelData(order), now))
    {
      var cancelled := order.(status := Cancelled, cancelReason := Some(TIMEOUT_REASON), cancelTime := Some(now));
      db.orders := db.orders[cancelled.id := cancelled];

      var orderData := map["orderId" := Num(cancelled.id), "orderNumber" := Text(cancelled.number),
                           "cancelReason" := Text(TIMEOUT_REASON)];
      assert orderData == CancelData(order);
      userWs.SendOrderCancel(cancelled.userId, orderData, now);
    }

    /** The loop over the selected orders: each is cancelled from its snapshot and its owner told, in order. */
    method CancelEach(timeoutOrders: seq<Order>, ghost snapshot: map<int, Order>, ghost ids: seq<int>, now: Millis)
      requires |timeoutOrders| == |ids|
      requires forall i :: 0 <= i < |ids| ==> ids[i] in snapshot && timeoutOrders[i] == snapshot[ids[i]] && snapshot[ids[i]].id == ids[i]
      requires db.orders == snapshot
      modifies db, userWs
      ensures db.orders == SweepTable(snapshot, ids, now)
      ensures db.State() == old(db.State()).(orders := db.orders)
      ensures userWs.userSessions == DeliverAll(old(userWs.userSessions), CancelNotices(snapshot, ids, now))
    {
      ghost var sessions := userWs.userSessions;
      SweepEmptyIsNoop(snapshot, now);
      assert ids[..0] == [];
      var k := 0;
      while k < |timeoutOrders|
        invariant 0 <= k <= |ids|
        invariant db.orders == SweepTable(snapshot, ids[..k], now)
        invariant db.State() == old(db.State()).(orders := db.orders)
        invariant userWs.userSessions == DeliverAll(sessions, CancelNotices(snapshot, ids[..k], now))
      {
        var order := timeoutOrders[k];
        SweepStep(snapshot, ids, k, now);
        NoticeStep(sessions, snapshot, ids, k, now);
        CancelAndNotify(order, now);
        k := k + 1;
      }
      assert ids[..k] == ids;
    }

    /**
     * `processTimeoutOrder` at clock `now`: the selected orders are written back cancelled one by
     * one, each followed by a cancel message to its owner; nothing else in the tables changes.
     */
    method ProcessTimeoutOrder(now: Millis)
      requires db.Valid()
      modifies db, userWs
      ensures db.Valid()
      ensures db.orders == SweepTable(old(db.orders), TimedOut(old(db.orders), old(db.nextId), now), now)
      ensures db.State() == old(db.State()).(orders := db.orders)
      ensures userWs.userSessions ==
        DeliverAll(old(userWs.userSessions), CancelNotices(old(db.orders), TimedOut(old(db.orders), old(db.nextId), now), now))
    {
      var snapshot := db.orders;
      var time := now - TIMEOUT_MILLIS;
      var ids := IdsByStatusBefore(snapshot, PendingPayment, time, db.nextId);
      var timeoutOrders := seq(|ids|, i requires 0 <= i < |ids| => snapshot[ids[i]]);
      SweepKeepsTableValid(snapshot, db.numberIndex, db.nextId, now);

      if |timeoutOrders| > 0 {
        CancelEach(timeoutOrders, snapshot, ids, now);
      } else {
        SweepEmptyIsNoop(snapshot, now);
      }
    }
  }
}
