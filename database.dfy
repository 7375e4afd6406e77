/**
 * The stored tables behind the mappers the order core calls (`OrderMapper`,
 * `OrderDetailMapper`, `ShoppingCartMapper`, `AddressBookMapper`, `UserMapper`),
 * as an in-memory table of orders keyed by id with a number -> id index.
 */
module Persistence {
  import opened Wrappers
  import opened Orders

  /** Well-formed order table: ids are the generated keys below `nextId`, the index points at orders bearing that number. */
  predicate TableValid(orders: map<int, Order>, index: map<string, int>, nextId: int) {
    && nextId >= 1
    && (forall id :: id in orders ==> 1 <= id < nextId && orders[id].id == id)
    && (forall n :: n in index ==> index[n] in orders && orders[index[n]].number == n)
    && PaidNotPending(orders)
  }

  /** `orderMapper.getByNumber`: the order the number index points at, or null. */
  function LookupByNumber(orders: map<int, Order>, index: map<string, int>, n: string): (r: Option<Order>)
    ensures r.Some? <==> n in index && index[n] in orders
    ensures r.Some? ==> r.value == orders[index[n]]
  {
    if n in index && index[n] in orders then Some(orders[index[n]]) else None
  }

  /** `orderMapper.getByStatusAndOrderTimeLT`: ids of the orders below `hi` in that status created strictly before `time`, ascending. */
  function IdsByStatusBefore(orders: map<int, Order>, status: Status, time: Millis, hi: int): (ids: seq<int>)
    ensures forall id :: id in ids <==> 1 <= id < hi && id in orders && orders[id].status == status && orders[id].orderTime < time
    ensures forall i, j :: 0 <= i < j < |ids| ==> ids[i] < ids[j]
    decreases hi
  {
    if hi <= 1 then []
    else
      var lower := IdsByStatusBefore(orders, status, time, hi - 1);
      var id := hi - 1;
      assert forall i :: 0 <= i < |lower| ==> lower[i] in lower;
      if id in orders && orders[id].status == status && orders[id].orderTime < time then lower + [id] else lower
  }

  /** The query finds nothing when no order below `hi` matches. */
  lemma {:induction false} NothingSelected(orders: map<int, Order>, status: Status, time: Millis, hi: int)
    requires forall id :: id in orders && 1 <= id < hi ==> !(orders[id].status == status && orders[id].orderTime < time)
    ensures IdsByStatusBefore(orders, status, time, hi) == []
    decreases hi
  {
    if hi > 1 {
      NothingSelected(orders, status, time, hi - 1);
    }
  }

  /** `orderDetailMapper.getByOrderId`: the stored lines of one order, in insertion order. */
  function DetailsOf(details: seq<OrderDetail>, orderId: int): (r: seq<OrderDetail>)
    ensures forall d :: d in r <==> d in details && d.orderId == orderId
    decreases |details|
  {
    if details == [] then []
    else
      var last := details[|details| - 1];
      DetailsOf(details[..|details| - 1], orderId) + (if last.orderId == orderId then [last] else [])
  }

  lemma {:induction false} DetailsOfAppend(a: seq<OrderDetail>, b: seq<OrderDetail>, orderId: int)
    ensures DetailsOf(a + b, orderId) == DetailsOf(a, orderId) + DetailsOf(b, orderId)
    decreases |b|
  {
    if b == [] {
      assert a + b == a;
    } else {
      var init := b[..|b| - 1];
      assert (a + b)[..|a + b| - 1] == a + init;
      DetailsOfAppend(a, init, orderId);
    }
  }

  lemma {:induction false} DetailsOfAll(b: seq<OrderDetail>, orderId: int)
    requires forall i :: 0 <= i < |b| ==> b[i].orderId == orderId
    ensures DetailsOf(b, orderId) == b
    decreases |b|
  {
    if b != [] {
      var init, last := b[..|b| - 1], b[|b| - 1];
      DetailsOfAll(init, orderId);
      assert DetailsOf(b, orderId) == DetailsOf(init, orderId) + [last];
      assert init + [last] == b;
    }
  }

  lemma {:induction false} DetailsOfNone(a: seq<OrderDetail>, orderId: int)
    requires forall i :: 0 <= i < |a| ==> a[i].orderId != orderId
    ensures DetailsOf(a, orderId) == []
    decreases |a|
  {
    if a != [] {
      DetailsOfNone(a[..|a| - 1], orderId);
    }
  }

  /** Appending the lines of a fresh order: that order's lines are exactly the appended ones. */
  lemma DetailsOfFresh(a: seq<OrderDetail>, b: seq<OrderDetail>, orderId: int)
    requires forall i :: 0 <= i < |a| ==> a[i].orderId != orderId
    requires forall i :: 0 <= i < |b| ==> b[i].orderId == orderId
    ensures DetailsOf(a + b, orderId) == b
  {
    DetailsOfAppend(a, b, orderId);
    DetailsOfNone(a, orderId);
    DetailsOfAll(b, orderId);
  }

  /** `shoppingCartMapper.list` for one user: an empty list when the user has no cart. */
  function CartOf(carts: map<int, seq<ShoppingCart>>, userId: int): seq<ShoppingCart> {
    if userId in carts then carts[userId] else []
  }

  /** The contents of all the tables at one moment. */
  datatype Tables = Tables(
    orders: map<int, Order>,
    numberIndex: map<string, int>,
    nextId: int,
    details: seq<OrderDetail>,
    carts: map<int, seq<ShoppingCart>>,
    addressBooks: map<int, AddressBook>,
    users: map<int, User>)

  /** Well-formed tables: a well-formed order table, and every stored line belongs to an inserted order. */
  predicate TablesValid(t: Tables) {
    && TableValid(t.orders, t.numberIndex, t.nextId)
    && (forall i :: 0 <= i < |t.details| ==> 1 <= t.details[i].orderId < t.nextId)
  }

  class Database {
    var orders: map<int, Order>
    var numberIndex: map<string, int>
    var nextId: int
    var details: seq<OrderDetail>
    var carts: map<int, seq<ShoppingCart>>
    var addressBooks: map<int, AddressBook>
    var users: map<int, User>

    function State(): Tables
      reads this
    {
      Tables(orders, numberIndex, nextId, details, carts, addressBooks, users)
    }

    ghost predicate Valid()
      reads this
    {
      TablesValid(State())
    }

    constructor (carts: map<int, seq<ShoppingCart>>, addressBooks: map<int, AddressBook>, users: map<int, User>)
      ensures Valid()
      ensures orders == map[] && numberIndex == map[] && nextId == 1 && details == []
      ensures this.carts == carts && this.addressBooks == addressBooks && this.users == users
    {
      orders, numberIndex, nextId, details := map[], map[], 1, [];
      this.carts, this.addressBooks, this.users := carts, addressBooks, users;
    }
  }
}
