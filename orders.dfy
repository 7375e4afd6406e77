/** The stored records the order core reads and writes (`Orders`, `OrderDetail`, `ShoppingCart`, `AddressBook`, `User`). */
module Orders {
  import opened Wrappers

  /** `Orders.status` codes 1..6. */
  datatype Status = PendingPayment | ToBeConfirmed | Confirmed | DeliveryInProgress | Completed | Cancelled

  /** `Orders.payStatus` codes 0..2. */
  datatype PayStatus = UnPaid | Paid | Refund

  /** Amounts are fixed-point decimals with two places, held as a whole number of hundredths. */
  type Money = int

  /** Times are milliseconds of the server clock. */
  type Millis = int

  datatype Order = Order(
    id: int,
    number: string,
    status: Status,
    payStatus: PayStatus,
    userId: int,
    addressBookId: int,
    payMethod: int,
    remark: string,
    amount: Money,
    packAmount: Option<int>,
    phone: string,
    address: string,
    consignee: string,
    orderTime: Millis,
    estimatedDeliveryTime: Millis,
    checkoutTime: Option<Millis>,
    cancelReason: Option<string>,
    cancelTime: Option<Millis>)

  /** One line of a user's cart: a dish or set meal, its unit price and quantity. */
  datatype ShoppingCart = ShoppingCart(
    name: string,
    image: string,
    dishId: Option<int>,
    setmealId: Option<int>,
    dishFlavor: Option<string>,
    number: nat,
    amount: Money)

  /** One stored line of an order, copied from a cart line. */
  datatype OrderDetail = OrderDetail(
    orderId: int,
    name: string,
    image: string,
    dishId: Option<int>,
    setmealId: Option<int>,
    dishFlavor: Option<string>,
    number: nat,
    amount: Money)

  datatype AddressBook = AddressBook(consignee: string, phone: string, detail: string)

  datatype User = User(openid: string)

  /** No paid order is still waiting for payment. */
  predicate PaidNotPending(orders: map<int, Order>) {
    forall id :: id in orders && orders[id].payStatus == Paid ==> orders[id].status != PendingPayment
  }
}
