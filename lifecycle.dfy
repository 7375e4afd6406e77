/**
 * How the three order transitions interact: submission, payment completion and the timeout
 * sweep, each given by its table function.
 */
module Lifecycle {
  import opened Wrappers
  import opened Decimal
  import opened Orders
  import opened Persistence
  import opened OrderServiceImpl
  import opened OrderTasks

  /** A paid order is never selected by the sweep: it comes out of it unchanged. */
  lemma PaidNeverSwept(orders: map<int, Order>, index: map<string, int>, nextId: int, now: Millis, id: int)
    requires TableValid(orders, index, nextId)
    requires id in orders && orders[id].payStatus == Paid
    ensures SweepTable(orders, TimedOut(orders, nextId, now), now)[id] == orders[id]
  {
    SweepCancelsExactlyTimedOut(orders, index, nextId, now);
  }

  /** Once a payment is completed, a later sweep leaves that order TO_BE_CONFIRMED/PAID. */
  lemma PaymentThenSweep(orders: map<int, Order>, index: map<string, int>, nextId: int, n: string, paidAt: Millis, now: Millis)
    requires TableValid(orders, index, nextId)
    requires PaySuccessApplies(orders, index, n)
    ensures var paid := PaySuccessTable(orders, index, n, paidAt);
      var swept := SweepTable(paid, TimedOut(paid, nextId, now), now);
      swept[index[n]].status == ToBeConfirmed && swept[index[n]].payStatus == Paid
  {
    var paid := PaySuccessTable(orders, index, n, paidAt);
    PaySuccessKeepsTableValid(orders, index, nextId, n, paidAt);
    PaidNeverSwept(paid, index, nextId, now, index[n]);
  }

  /**
   * The completion checks only the pay status, so a confirmation that arrives after the sweep
   * cancelled the order still makes it TO_BE_CONFIRMED/PAID; the cancel reason and time stay set.
   */
  lemma SweepThenLatePayment(orders: map<int, Order>, index: map<string, int>, nextId: int, n: string, now: Millis, paidAt: Millis)
    requires TableValid(orders, index, nextId)
    requires n in index && orders[index[n]].status == PendingPayment && orders[index[n]].payStatus == UnPaid
    requires orders[index[n]].orderTime < now - TIMEOUT_MILLIS
    ensures var swept := SweepTable(orders, TimedOut(orders, nextId, now), now);
      var revived := PaySuccessTable(swept, index, n, paidAt)[index[n]];
      && swept[index[n]].status == Cancelled
      && revived.status == ToBeConfirmed && revived.payStatus == Paid
      && revived.cancelReason == Some(TIMEOUT_REASON) && revived.cancelTime == Some(now)
  {
    SweepCancelsExactlyTimedOut(orders, index, nextId, now);
    var swept := SweepTable(orders, TimedOut(orders, nextId, now), now);
    assert PaySuccessApplies(swept, index, n);
  }

  /** A submitted order, paid through its own number, becomes TO_BE_CONFIRMED/PAID with the checkout time. */
  lemma SubmitThenPay(t: Tables, userId: int, req: SubmitRequest, now: nat, paidAt: Millis)
    requires TablesValid(t)
    requires Submit(t, userId, req, now).0.Success?
    ensures var (r, t') := Submit(t, userId, req, now);
      var paid := PaySuccessTable(t'.orders, t'.numberIndex, r.value.orderNumber, paidAt);
      && paid[r.value.id].status == ToBeConfirmed && paid[r.value.id].payStatus == Paid
      && paid[r.value.id].checkoutTime == Some(paidAt)
  {
    SubmitCreatesOrder(t, userId, req, now);
  }

  /** An order submitted at `now` is swept exactly when the sweep runs more than fifteen minutes later and it is still unpaid. */
  lemma SubmitThenSweep(t: Tables, userId: int, req: SubmitRequest, placed: nat, now: Millis)
    requires TablesValid(t)
    requires Submit(t, userId, req, placed).0.Success?
    ensures var (r, t') := Submit(t, userId, req, placed);
      var swept := SweepTable(t'.orders, TimedOut(t'.orders, t'.nextId, now), now);
      (swept[r.value.id].status == Cancelled <==> placed < now - TIMEOUT_MILLIS)
  {
    var (r, t') := Submit(t, userId, req, placed);
    SubmitCreatesOrder(t, userId, req, placed);
    SubmitKeepsTablesValid(t, userId, req, placed);
    SweepCancelsExactlyTimedOut(t'.orders, t'.numberIndex, t'.nextId, now);
  }

  /** Three pending orders placed 20, 10 and 0 minutes before `now`: only the first is swept. */
  lemma SweepSelectivity(base: Order, now: Millis)
    ensures var minute := 60 * 1000;
      var orders := map[
        1 := base.(id := 1, status := PendingPayment, orderTime := now - 20 * minute),
        2 := base.(id := 2, status := PendingPayment, orderTime := now - 10 * minute),
        3 := base.(id := 3, status := PendingPayment, orderTime := now)];
      TimedOut(orders, 4, now) == [1]
  {
    var minute := 60 * 1000;
    var orders := map[
      1 := base.(id := 1, status := PendingPayment, orderTime := now - 20 * minute),
      2 := base.(id := 2, status := PendingPayment, orderTime := now - 10 * minute),
      3 := base.(id := 3, status := PendingPayment, orderTime := now)];
    assert IdsByStatusBefore(orders, PendingPayment, now - TIMEOUT_MILLIS, 1) == [];
    assert IdsByStatusBefore(orders, PendingPayment, now - TIMEOUT_MILLIS, 2) == [1];
    assert IdsByStatusBefore(orders, PendingPayment, now - TIMEOUT_MILLIS, 3) == [1];
  }
}
