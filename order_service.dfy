/**
 * Order submission, payment and payment completion (`OrderServiceImpl`).
 * The current user id (`BaseContext.getCurrentId()`) and the clock are parameters.
 */
module OrderServiceImpl {
  import opened Wrappers
  import opened Decimal
  import opened Envelopes
  import opened Sessions
  import opened Orders
  import opened Persistence
  import OrderSocket
  import AdminSocket
  import MockPay

  /** The business exceptions (and the null dereferences) the operations end with. */
  datatype OrderError =
    | AddressBookIsNull      // AddressBookBusinessException(ADDRESS_BOOK_IS_NULL)
    | ShoppingCartIsNull     // ShoppingCartBusinessException(SHOPPING_CART_IS_NULL)
    | OrderPaid              // OrderBusinessException("该订单已支付")
    | UserNotFound           // the current user has no row: user.getOpenid() dereferences null
    | OrderNotFound          // no order with that id: orders.getId() dereferences null

  /** The client's submission (`OrdersSubmitDTO`); `amount` and the delivery time may be left out. */
  datatype SubmitRequest = SubmitRequest(
    addressBookId: int,
    payMethod: int,
    remark: string,
    estimatedDeliveryTime: Option<Millis>,
    packAmount: Option<int>,
    amount: Option<Money>)

  datatype OrderSubmitVO = OrderSubmitVO(id: int, orderNumber: string, orderAmount: Money, orderTime: Millis)

  datatype OrderPaymentVO = OrderPaymentVO(
    nonceStr: Option<string>,
    paySign: Option<string>,
    timeStamp: Option<string>,
    signType: Option<string>,
    packageStr: Option<string>)

  datatype OrderVO = OrderVO(order: Order, orderDetailList: seq<OrderDetail>)

  const ONE_HOUR: int := 60 * 60 * 1000

  // ---------------------------------------------------------------- submission

  /** One cart line's share: unit price times quantity, so one item costs its price and none costs nothing. */
  function LineAmount(c: ShoppingCart): (a: Money)
    ensures c.number == 0 ==> a == 0
    ensures c.number == 1 ==> a == c.amount
    ensures c.amount >= 0 ==> a >= 0
  {
    c.amount * c.number
  }

  /** Sum over the cart of unit price times quantity: nothing for an empty cart, never negative with non-negative prices. */
  function CartSum(cart: seq<ShoppingCart>): (total: Money)
    ensures cart == [] ==> total == 0
    ensures (forall i :: 0 <= i < |cart| ==> cart[i].amount >= 0) ==> total >= 0
    decreases |cart|
  {
    if cart == [] then 0 else CartSum(cart[..|cart| - 1]) + LineAmount(cart[|cart| - 1])
  }

  lemma {:induction false} CartSumAppend(a: seq<ShoppingCart>, b: seq<ShoppingCart>)
    ensures CartSum(a + b) == CartSum(a) + CartSum(b)
    decreases |b|
  {
    if b == [] {
      assert a + b == a;
    } else {
      assert (a + b)[..|a + b| - 1] == a + b[..|b| - 1];
      assert (a + b)[|a + b| - 1] == b[|b| - 1];
      CartSumAppend(a, b[..|b| - 1]);
    }
  }

  /** Two lines (10.00 x 2) and (5.50 x 1) total 25.50. */
  lemma CartSumExample()
    ensures CartSum([ShoppingCart("a", "", Some(1), None, None, 2, 1000),
                     ShoppingCart("b", "", Some(2), None, None, 1, 550)]) == 2550
  {
    var a := ShoppingCart("a", "", Some(1), None, None, 2, 1000);
    var b := ShoppingCart("b", "", Some(2), None, None, 1, 550);
    assert [a, b][..1] == [a];
    assert [a][..0] == [];
  }

  /** The server-side total: the loop at the heart of `submitOrder`. */
  method ComputeAmount(cart: seq<ShoppingCart>) returns (totalAmount: Money)
    ensures totalAmount == CartSum(cart)
  {
    totalAmount := 0;
    var i := 0;
    while i < |cart|
      invariant 0 <= i <= |cart|
      invariant totalAmount == CartSum(cart[..i])
    {
      assert cart[..i + 1][..i] == cart[..i];
      totalAmount := totalAmount + cart[i].amount * cart[i].number;
      i := i + 1;
    }
    assert cart[..i] == cart;
  }

  /** `BeanUtils.copyProperties(cart, orderDetail)` plus the new order's id. */
  function DetailOf(c: ShoppingCart, orderId: int): (d: OrderDetail)
    ensures d.orderId == orderId && d.number == c.number && d.amount == c.amount && d.name == c.name
  {
    OrderDetail(orderId, c.name, c.image, c.dishId, c.setmealId, c.dishFlavor, c.number, c.amount)
  }

  /** One detail row per cart line, in cart order, each pointing at the order. */
  method BuildDetails(cart: seq<ShoppingCart>, orderId: int) returns (orderDetailList: seq<OrderDetail>)
    ensures |orderDetailList| == |cart|
    ensures forall i :: 0 <= i < |cart| ==> orderDetailList[i] == DetailOf(cart[i], orderId)
  {
    orderDetailList := [];
    var i := 0;
    while i < |cart|
      invariant 0 <= i <= |cart|
      invariant |orderDetailList| == i
      invariant forall j :: 0 <= j < i ==> orderDetailList[j] == DetailOf(cart[j], orderId)
    {
      orderDetailList := orderDetailList + [DetailOf(cart[i], orderId)];
      i := i + 1;
    }
  }

  /** The order row `submitOrder` inserts for `userId` at clock `now`. */
  function SubmittedOrder(req: SubmitRequest, book: AddressBook, userId: int, id: int, amount: Money, now: nat): (o: Order)
    ensures o.id == id && o.userId == userId && o.amount == amount && o.orderTime == now
    ensures o.status == PendingPayment && o.payStatus == UnPaid
    ensures o.number == NatToDecimal(now) && AllDigits(o.number)
    ensures o.consignee == book.consignee && o.phone == book.phone && o.address == book.detail
    ensures o.addressBookId == req.addressBookId && o.payMethod == req.payMethod && o.remark == req.remark
    ensures o.packAmount == req.packAmount
    ensures o.estimatedDeliveryTime == if req.estimatedDeliveryTime.Some? then req.estimatedDeliveryTime.value else now + ONE_HOUR
    ensures o.checkoutTime == None && o.cancelReason == None && o.cancelTime == None
  {
    Order(
      id := id,
      number := NatToDecimal(now),
      status := PendingPayment,
      payStatus := UnPaid,
      userId := userId,
      addressBookId := req.addressBookId,
      payMethod := req.payMethod,
      remark := req.remark,
      amount := amount,
      packAmount := req.packAmount,
      phone := book.phone,
      address := book.detail,
      consignee := book.consignee,
      orderTime := now,
      estimatedDeliveryTime := req.estimatedDeliveryTime.GetOr(now + ONE_HOUR),
      checkoutTime := None,
      cancelReason := None,
      cancelTime := None)
  }

  /** The amount charged: the client's own when it sent one, otherwise the cart total; the packing fee is never added. */
  function OrderAmount(req: SubmitRequest, cart: seq<ShoppingCart>): (a: Money)
    ensures req.amount.Some? ==> a == req.amount.value
    ensures req.amount.None? ==> a == CartSum(cart)
  {
    match req.amount
    case Some(given) => given
    case None => CartSum(cart)
  }

  /** The packing fee has no effect on the amount. */
  lemma PackAmountIgnored(req: SubmitRequest, cart: seq<ShoppingCart>, p: Option<int>)
    ensures OrderAmount(req.(packAmount := p), cart) == OrderAmount(req, cart)
  {
  }

  /** The lines `submitOrder` stores for a cart. */
  function DetailsFor(cart: seq<ShoppingCart>, orderId: int): (ds: seq<OrderDetail>)
    ensures |ds| == |cart|
    ensures forall i :: 0 <= i < |cart| ==> ds[i] == DetailOf(cart[i], orderId)
  {
    seq(|cart|, i requires 0 <= i < |cart| => DetailOf(cart[i], orderId))
  }

  /**
   * What `submitOrder` returns and leaves in the tables. A missing address book entry, and then
   * an empty cart, end the call before anything is written.
   */
  function Submit(t: Tables, userId: int, req: SubmitRequest, now: nat): (res: (Result<OrderSubmitVO, OrderError>, Tables))
    ensures res.0.Failure? ==> res.1 == t
    ensures res.0 == Failure(AddressBookIsNull) <==> req.addressBookId !in t.addressBooks
    ensures res.0 == Failure(ShoppingCartIsNull) <==>
      req.addressBookId in t.addressBooks && CartOf(t.carts, userId) == []
    ensures res.0.Success? || res.0.error == AddressBookIsNull || res.0.error == ShoppingCartIsNull
  {
    if req.addressBookId !in t.addressBooks then (Failure(AddressBookIsNull), t)
    else
      var cart := CartOf(t.carts, userId);
      if cart == [] then (Failure(ShoppingCartIsNull), t)
      else
        var id := t.nextId;
        var order := SubmittedOrder(req, t.addressBooks[req.addressBookId], userId, id, OrderAmount(req, cart), now);
        (Success(OrderSubmitVO(id, order.number, order.amount, order.orderTime)),
         t.(orders := t.orders[id := order],
            numberIndex := t.numberIndex[order.number := id],
            nextId := id + 1,
            details := t.details + DetailsFor(cart, id),
            carts := t.carts - {userId}))
  }

  /**
   * A successful submission inserts one PENDING_PAYMENT/UN_PAID order of the user under the next id,
   * numbered with the decimal clock value, and returns its id, number, amount and time.
   */
  lemma SubmitCreatesOrder(t: Tables, userId: int, req: SubmitRequest, now: nat)
    requires Submit(t, userId, req, now).0.Success?
    ensures var (r, t') := Submit(t, userId, req, now);
      var id := t.nextId;
      && t'.orders.Keys == t.orders.Keys + {id}
      && (forall k :: k in t.orders && k != id ==> t'.orders[k] == t.orders[k])
      && t'.orders[id].status == PendingPayment && t'.orders[id].payStatus == UnPaid
      && t'.orders[id].userId == userId
      && t'.orders[id].number == NatToDecimal(now)
      && t'.orders[id].orderTime == now
      && t'.orders[id].amount == OrderAmount(req, CartOf(t.carts, userId))
      && LookupByNumber(t'.orders, t'.numberIndex, NatToDecimal(now)) == Some(t'.orders[id])
      && r.value == OrderSubmitVO(id, t'.orders[id].number, t'.orders[id].amount, t'.orders[id].orderTime)
  {
  }

  /**
   * A successful submission stores exactly one line per cart line, each pointing at the new order,
   * keeps the lines already stored, and empties that user's cart and no other.
   */
  lemma SubmitWritesDetailsAndClearsCart(t: Tables, userId: int, req: SubmitRequest, now: nat)
    requires TablesValid(t)
    requires Submit(t, userId, req, now).0.Success?
    ensures var t' := Submit(t, userId, req, now).1;
      var cart := CartOf(t.carts, userId);
      && t'.details[..|t.details|] == t.details
      && DetailsOf(t'.details, t.nextId) == DetailsFor(cart, t.nextId)
      && |DetailsOf(t'.details, t.nextId)| == |cart|
      && CartOf(t'.carts, userId) == []
      && (forall u :: u != userId ==> CartOf(t'.carts, u) == CartOf(t.carts, u))
  {
    var t' := Submit(t, userId, req, now).1;
    var cart := CartOf(t.carts, userId);
    assert t'.details == t.details + DetailsFor(cart, t.nextId);
    DetailsOfFresh(t.details, DetailsFor(cart, t.nextId), t.nextId);
  }

  /** Submission keeps every table well formed. */
  lemma SubmitKeepsTablesValid(t: Tables, userId: int, req: SubmitRequest, now: nat)
    requires TablesValid(t)
    ensures TablesValid(Submit(t, userId, req, now).1)
  {
    var (r, t') := Submit(t, userId, req, now);
    if r.Success? {
      var cart := CartOf(t.carts, userId);
      var id := t.nextId;
      var order := t'.orders[id];
      InsertKeepsTableValid(t.orders, t.numberIndex, id, order);
      var ds := DetailsFor(cart, id);
      assert t'.details == t.details + ds;
      forall i | 0 <= i < |t'.details|
        ensures 1 <= t'.details[i].orderId < t'.nextId
      {
        if i >= |t.details| {
          assert t'.details[i] == ds[i - |t.details|];
        }
      }
    }
  }

  /** `orderDetail`: the order with its stored lines; an unknown id fails (the source dereferences null). */
  function GetOrderDetail(t: Tables, id: int): (r: Result<OrderVO, OrderError>)
    ensures r.Success? <==> id in t.orders
    ensures r.Failure? ==> r.error == OrderNotFound
    ensures r.Success? ==> r.value.order == t.orders[id]
    ensures r.Success? ==> forall d :: d in r.value.orderDetailList <==> d in t.details && d.orderId == id
  {
    if id in t.orders then Success(OrderVO(t.orders[id], DetailsOf(t.details, id))) else Failure(OrderNotFound)
  }

  /** Right after a submission, looking the new order up gives that order with exactly the submitted lines. */
  lemma SubmitThenOrderDetail(t: Tables, userId: int, req: SubmitRequest, now: nat)
    requires TablesValid(t)
    requires Submit(t, userId, req, now).0.Success?
    ensures var (r, t') := Submit(t, userId, req, now);
      GetOrderDetail(t', r.value.id) == Success(OrderVO(t'.orders[t.nextId], DetailsFor(CartOf(t.carts, userId), t.nextId)))
  {
    SubmitWritesDetailsAndClearsCart(t, userId, req, now);
  }

  // ---------------------------------------------------------------- payment

  /** Map the provider's JSON answer: fail on `code == "ORDERPAID"`, otherwise copy its fields. */
  function PaymentResult(json: map<string, string>): (r: Result<OrderPaymentVO, OrderError>)
    ensures r.Failure? <==> "code" in json && json["code"] == "ORDERPAID"
    ensures r.Failure? ==> r.error == OrderPaid
    ensures r.Success? ==> r.value.packageStr == Get(json, "package")
    ensures r.Success? ==> r.value.paySign == Get(json, "paySign") && r.value.nonceStr == Get(json, "nonceStr")
  {
    if "code" in json && json["code"] == "ORDERPAID" then Failure(OrderPaid)
    else Success(OrderPaymentVO(Get(json, "nonceStr"), Get(json, "paySign"), Get(json, "timeStamp"),
                                Get(json, "signType"), Get(json, "package")))
  }

  /** On the simulated provider path payment never reports "already paid", and the package is the intent's. */
  lemma MockPaymentSucceeds(intent: MockPay.PayIntent)
    ensures PaymentResult(MockPay.IntentJson(intent)).Success?
    ensures PaymentResult(MockPay.IntentJson(intent)).value.packageStr == Some(intent.packageStr)
  {
  }

  // ---------------------------------------------------------------- completion

  /** `paySuccess` acts on the order the number names only when its pay status is not PAID. */
  predicate PaySuccessApplies(orders: map<int, Order>, index: map<string, int>, n: string)
    ensures PaySuccessApplies(orders, index, n) <==>
      n in index && index[n] in orders && orders[index[n]].payStatus != Paid
  {
    var found := LookupByNumber(orders, index, n);
    found.Some? && found.value.payStatus != Paid
  }

  /** The update `paySuccess` writes: status, pay status and checkout time, nothing else. */
  function PaidOrder(o: Order, now: Millis): (p: Order)
    ensures p.status == ToBeConfirmed && p.payStatus == Paid && p.checkoutTime == Some(now)
    ensures p.(status := o.status, payStatus := o.payStatus, checkoutTime := o.checkoutTime) == o
  {
    o.(status := ToBeConfirmed, payStatus := Paid, checkoutTime := Some(now))
  }

  /** The order table after `paySuccess(n)`. */
  function PaySuccessTable(orders: map<int, Order>, index: map<string, int>, n: string, now: Millis): (r: map<int, Order>)
    ensures r.Keys == orders.Keys
    ensures !PaySuccessApplies(orders, index, n) ==> r == orders
    ensures PaySuccessApplies(orders, index, n) ==>
      r == orders[index[n] := PaidOrder(orders[index[n]], now)]
  {
    if PaySuccessApplies(orders, index, n) then orders[index[n] := PaidOrder(orders[index[n]], now)] else orders
  }

  /** The data pushed to the owner: the order's id, its number, its amount and the time of payment. */
  function UserPaymentData(o: Order, n: string, now: Millis): Payload {
    map["orderId" := Num(o.id), "orderNumber" := Text(n), "amount" := Amount(o.amount), "payTime" := Time(now)]
  }

  lemma UserPaymentDataFields(o: Order, n: string, now: Millis)
    ensures var d := UserPaymentData(o, n, now);
      && d.Keys == {"orderId", "orderNumber", "amount", "payTime"}
      && d["orderId"] == Num(o.id) && d["orderNumber"] == Text(n)
      && d["amount"] == Amount(o.amount) && d["payTime"] == Time(now)
  {
  }

  /** The data broadcast to the merchants: the order's id, number and amount, who receives it and where, and when it was placed. */
  function MerchantOrderData(o: Order, n: string): Payload {
    map["orderId" := Num(o.id), "orderNumber" := Text(n), "amount" := Amount(o.amount),
        "consignee" := Text(o.consignee), "phone" := Text(o.phone), "address" := Text(o.address),
        "orderTime" := Time(o.orderTime)]
  }

  lemma MerchantOrderDataFields(o: Order, n: string)
    ensures var d := MerchantOrderData(o, n);
      && d.Keys == {"orderId", "orderNumber", "amount", "consignee", "phone", "address", "orderTime"}
      && d["orderId"] == Num(o.id) && d["orderNumber"] == Text(n) && d["amount"] == Amount(o.amount)
      && d["consignee"] == Text(o.consignee) && d["phone"] == Text(o.phone) && d["address"] == Text(o.address)
      && d["orderTime"] == Time(o.orderTime)
  {
  }

  /** An unknown number changes no order. */
  lemma PaySuccessUnknownIsNoop(orders: map<int, Order>, index: map<string, int>, n: string, now: Millis)
    requires n !in index
    ensures PaySuccessTable(orders, index, n, now) == orders
    ensures !PaySuccessApplies(orders, index, n)
  {
  }

  /** A second completion finds the order PAID: it changes nothing and notifies no one, so two calls equal one. */
  lemma PaySuccessIdempotent(orders: map<int, Order>, index: map<string, int>, n: string, now1: Millis, now2: Millis)
    ensures var once := PaySuccessTable(orders, index, n, now1);
      && !PaySuccessApplies(once, index, n)
      && PaySuccessTable(once, index, n, now2) == once
  {
    var once := PaySuccessTable(orders, index, n, now1);
    if PaySuccessApplies(orders, index, n) {
      assert once[index[n]].payStatus == Paid;
    }
  }

  /** Only the pay status is checked: a cancelled, unpaid order is still turned into TO_BE_CONFIRMED/PAID. */
  lemma PaySuccessRevivesCancelled(orders: map<int, Order>, index: map<string, int>, n: string, now: Millis)
    requires n in index && index[n] in orders
    requires orders[index[n]].status == Cancelled && orders[index[n]].payStatus == UnPaid
    ensures PaySuccessApplies(orders, index, n)
    ensures PaySuccessTable(orders, index, n, now)[index[n]].status == ToBeConfirmed
    ensures PaySuccessTable(orders, index, n, now)[index[n]].payStatus == Paid
  {
  }

  /** Completing a payment keeps the table well formed and no paid order pending. */
  lemma PaySuccessKeepsTableValid(orders: map<int, Order>, index: map<string, int>, nextId: int, n: string, now: Millis)
    requires TableValid(orders, index, nextId)
    ensures TableValid(PaySuccessTable(orders, index, n, now), index, nextId)
  {
  }

  /** Inserting a new unpaid order under the next generated key keeps the table well formed. */
  lemma InsertKeepsTableValid(orders: map<int, Order>, index: map<string, int>, nextId: int, order: Order)
    requires TableValid(orders, index, nextId)
    requires order.id == nextId && order.payStatus == UnPaid
    ensures TableValid(orders[nextId := order], index[order.number := nextId], nextId + 1)
  {
  }

  // ---------------------------------------------------------------- the service

  class OrderService {
    const db: Database
    const userWs: OrderSocket.OrderWebSocket
    const adminWs: AdminSocket.AdminWebSocket
    /** Order numbers whose simulated payment confirmation is scheduled but has not run yet. */
    var pendingCallbacks: seq<string>

    constructor (db: Database, userWs: OrderSocket.OrderWebSocket, adminWs: AdminSocket.AdminWebSocket)
      ensures this.db == db && this.userWs == userWs && this.adminWs == adminWs
      ensures pendingCallbacks == []
    {
      this.db, this.userWs, this.adminWs := db, userWs, adminWs;
      pendingCallbacks := [];
    }

    /** `submitOrder`, checked against `Submit`: the result and the new table contents are the ones it gives. */
    method SubmitOrder(userId: int, req: SubmitRequest, now: nat) returns (r: Result<OrderSubmitVO, OrderError>)
      requires db.Valid()
      modifies db
      ensures db.Valid()
      ensures (r, db.State()) == Submit(old(db.State()), userId, req, now)
    {
      ghost var t := db.State();
      if req.addressBookId !in db.addressBooks {
        return Failure(AddressBookIsNull);
      }
      var addressBook := db.addressBooks[req.addressBookId];
      var shoppingCartList := CartOf(db.carts, userId);
      if |shoppingCartList| == 0 {
        return Failure(ShoppingCartIsNull);
      }

      var amount;
      if req.amount.None? {
        amount := ComputeAmount(shoppingCartList);
      } else {
        amount := req.amount.value;
      }
      var id := db.nextId;
      var order := SubmittedOrder(req, addressBook, userId, id, amount, now);

      // orderMapper.insert: the generated key becomes the order's id
      db.orders := db.orders[id := order];
      db.numberIndex := db.numberIndex[order.number := id];
      db.nextId := id + 1;

      var orderDetailList := BuildDetails(shoppingCartList, id);
      assert orderDetailList == DetailsFor(shoppingCartList, id);
      db.details := db.details + orderDetailList;

      db.carts := db.carts - {userId};
      r := Success(OrderSubmitVO(id, order.number, order.amount, order.orderTime));
      SubmitKeepsTablesValid(t, userId, req, now);
    }

    /**
     * `payment` on the simulated provider: build the intent, schedule the delayed confirmation
     * (here: queue the order number), then map the answer. The order itself is not looked up.
     */
    method Payment(userId: int, orderNumber: string, idMillis: nat, stampMillis: nat, randomDigits: string, nonce: string)
      returns (r: Result<OrderPaymentVO, OrderError>)
      requires |randomDigits| == 10 && AllDigits(randomDigits)
      requires |nonce| == 32 && MockPay.AllAlphanumeric(nonce)
      modifies this
      ensures userId !in db.users ==> r == Failure(UserNotFound) && pendingCallbacks == old(pendingCallbacks)
      ensures userId in db.users ==>
        && pendingCallbacks == old(pendingCallbacks) + [orderNumber]
        && r == PaymentResult(MockPay.IntentJson(MockPay.Pay(idMillis, stampMillis, randomDigits, nonce)))
    {
      if userId !in db.users {
        return Failure(UserNotFound);
      }
      var intent := MockPay.Pay(idMillis, stampMillis, randomDigits, nonce);
      var jsonObject := MockPay.IntentJson(intent);
      pendingCallbacks := pendingCallbacks + [orderNumber];
      r := PaymentResult(jsonObject);
    }

    /**
     * `paySuccess`: an unknown number or an order already PAID is ignored; otherwise the order
     * becomes TO_BE_CONFIRMED/PAID with a checkout time, then the owner gets one PAYMENT_SUCCESS
     * and every merchant one NEW_ORDER.
     */
    method PaySuccess(outTradeNo: string, now: Millis)
      requires db.Valid()
      modifies db, userWs, adminWs
      ensures db.Valid()
      ensures db.orders == PaySuccessTable(old(db.orders), old(db.numberIndex), outTradeNo, now)
      ensures db.numberIndex == old(db.numberIndex) && db.nextId == old(db.nextId) && db.details == old(db.details)
      ensures db.carts == old(db.carts) && db.addressBooks == old(db.addressBooks) && db.users == old(db.users)
      ensures !PaySuccessApplies(old(db.orders), old(db.numberIndex), outTradeNo) ==>
        userWs.userSessions == old(userWs.userSessions) && adminWs.adminSessions == old(adminWs.adminSessions)
      ensures PaySuccessApplies(old(db.orders), old(db.numberIndex), outTradeNo) ==>
        var o := old(db.orders)[old(db.numberIndex)[outTradeNo]];
        && userWs.userSessions == Deliver(old(userWs.userSessions), o.userId,
             OrderSocket.PaymentSuccessMessage(UserPaymentData(o, outTradeNo, now), now))
        && adminWs.adminSessions == Broadcast(old(adminWs.adminSessions),
             AdminSocket.NewOrderMessage(MerchantOrderData(o, outTradeNo), now))
    {
      var found := LookupByNumber(db.orders, db.numberIndex, outTradeNo);
      if found.None? {
        return;
      }
      var ordersDB := found.value;
      if ordersDB.payStatus == Paid {
        return;
      }
      assert ordersDB.id == db.numberIndex[outTradeNo];
      PaySuccessKeepsTableValid(db.orders, db.numberIndex, db.nextId, outTradeNo, now);
      db.orders := db.orders[ordersDB.id := PaidOrder(ordersDB, now)];

      userWs.SendPaymentSuccess(ordersDB.userId, outTradeNo, UserPaymentData(ordersDB, outTradeNo, now), now);
      adminWs.SendNewOrder(MerchantOrderData(ordersDB, outTradeNo), now);
    }

    /** The delayed simulated confirmation fires: it enters through `paySuccess`, like a provider callback. */
    method RunPendingCallback(now: Millis)
      requires db.Valid()
      modifies this, db, userWs, adminWs
      ensures db.Valid()
      ensures old(pendingCallbacks) == [] ==> pendingCallbacks == [] && unchanged(db, userWs, adminWs)
      ensures old(pendingCallbacks) != [] ==>
        var n := old(pendingCallbacks)[0];
        && pendingCallbacks == old(pendingCallbacks)[1..]
        && db.orders == PaySuccessTable(old(db.orders), old(db.numberIndex), n, now)
        && db.numberIndex == old(db.numberIndex) && db.nextId == old(db.nextId) && db.details == old(db.details)
        && db.carts == old(db.carts) && db.addressBooks == old(db.addressBooks) && db.users == old(db.users)
        && (!PaySuccessApplies(old(db.orders), old(db.numberIndex), n) ==>
              userWs.userSessions == old(userWs.userSessions) && adminWs.adminSessions == old(adminWs.adminSessions))
        && (PaySuccessApplies(old(db.orders), old(db.numberIndex), n) ==>
              var o := old(db.orders)[old(db.numberIndex)[n]];
              && userWs.userSessions == Deliver(old(userWs.userSessions), o.userId,
                   OrderSocket.PaymentSuccessMessage(UserPaymentData(o, n, now), now))
              && adminWs.adminSessions == Broadcast(old(adminWs.adminSessions),
                   AdminSocket.NewOrderMessage(MerchantOrderData(o, n), now)))
    {
      if pendingCallbacks != [] {
        var orderNumber := pendingCallbacks[0];
        pendingCallbacks := pendingCallbacks[1..];
        PaySuccess(orderNumber, now);
      }
    }
  }
}
