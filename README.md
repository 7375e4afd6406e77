# sky-take-out order core in Dafny

A model of the order core of the sky-take-out food-ordering back end, with proofs about it:

- **Submitting an order** (`OrderServiceImpl.submitOrder`): a customer's shopping cart becomes an order and its order-detail lines.
- **Paying for it** (`payment`, and `paySuccess` as the payment callback).
- **Viewing it** (`orderDetail`).
- **Cancelling unpaid orders**: every minute the `OrderTask.processTimeoutOrder` job cancels orders still unpaid fifteen minutes after they were placed, and tells the customer.
- **Notifying over WebSockets**: one endpoint for customers (`OrderWebSocket`) and one for merchants (`AdminWebSocket`). Each keeps a registry of sessions, sends the connect acknowledgement, answers heartbeats, and sends order notices.
- **Simulating the payment provider** (`MockWeChatPayUtil`): it builds the prepay intent, signs it with standard Base64 (section 4 of RFC 4648), and produces the asynchronous success callback.
- **Guarding admin URLs** (`PermissionAspect`): it builds the request path from the controller's mapping annotations and lets through only allow-listed paths.
- **Uploading images** (`CommonController.upload`): it names the stored file after a UUID plus the original extension.

Files and modules:

| file | module | contents |
|---|---|---|
| `wrappers.dfy` | `Wrappers` | `Option`, `Result`, map lookup |
| `decimal.dfy` | `Decimal` | decimal printing of the clock used in order numbers and ids |
| `orders.dfy` | `Orders` | the entities: order, cart line, detail line, address book, user |
| `database.dfy` | `Persistence` | the mapper queries as functions over the stored tables, plus the `Database` class holding them |
| `envelope.dfy` | `Envelopes` | the WebSocket message envelope and its type tags |
| `sessions.dfy` | `Sessions` | the session registry, unicast and broadcast, as functions over values |
| `order_websocket.dfy` | `OrderSocket` | the customer endpoint as a class |
| `admin_websocket.dfy` | `AdminSocket` | the merchant endpoint as a class |
| `order_service.dfy` | `OrderServiceImpl` | the order service as table functions, plus the `OrderService` class |
| `order_task.dfy` | `OrderTasks` | the timeout sweep as table functions, plus the `OrderTask` class |
| `lifecycle.dfy` | `Lifecycle` | how submission, payment and the sweep interact |
| `mock_pay.dfy` | `MockPay` | the simulated provider |
| `base64.dfy` | `Base64` | the encoder, a decoder used as its partner, and the round trip |
| `permission.dfy` | `Permission` | the path building and the allow-list check |
| `upload.dfy` | `Upload` | the extension split, the UUID stem and the upload controller |

How the model is built:

- **Service state.** The service, the task and the endpoints are classes whose fields the methods update. Each method's `ensures` ties the new state to a function of the old state. Those functions (`Submit`, `PaySuccessTable`, `SweepTable`, `Deliver`, `Broadcast`, …) carry the lemmas about what the code promises.
- **Outside inputs.** The clock, the random digits and nonce, the UUID, the current user id and the outcome of a file write come in as parameters. Whether a socket write throws is a property of the session (`Session.broken`), not of the call.

Behaviour of the code worth knowing:

- **`paySuccess` and cancelled orders.** It checks only the pay status, so a confirmation for an order the sweep has already cancelled turns it back into TO_BE_CONFIRMED/PAID. The model keeps this behaviour (`OrderServiceImpl.PaySuccessRevivesCancelled`, `Lifecycle.SweepThenLatePayment`).
- **The extension is the second piece, not the last.** The upload takes the second piece of the name split at dots, so `a.tar.gz` is stored with `.tar`, and a name with no second piece throws.
- **The packing fee is ignored.** It is not added to the order amount.

## Model

| member | source | states |
|---|---|---|
| Decimal.NatToDecimal | sky-server/src/main/java/com/sky/service/impl/OrderServiceImpl.java:91 | the order number printed from the clock has at least one digit, only digits, and no leading zero unless it is "0" |
| Decimal.DecimalRoundTrip | sky-server/src/main/java/com/sky/service/impl/OrderServiceImpl.java:91 | reading the printed digits back gives the clock value printed |
| Decimal.DecimalInjective | sky-server/src/main/java/com/sky/service/impl/OrderServiceImpl.java:91 | distinct clock values give distinct order numbers |
| Envelopes.TypeTagInjective | sky-server/src/main/java/com/sky/websocket/WebSocketMessage.java:45-50 | the six message-type strings are pairwise distinct |
| Envelopes.ConnectedMessage | sky-server/src/main/java/com/sky/websocket/OrderWebSocket.java:38-42 | the connect acknowledgement is CONNECTED with text "连接成功", no data, stamped with the clock |
| Envelopes.PongMessage | sky-server/src/main/java/com/sky/websocket/OrderWebSocket.java:67-70 | the heartbeat answer is PONG with no data and no text, stamped with the clock |
| Sessions.Deliver | sky-server/src/main/java/com/sky/websocket/OrderWebSocket.java:90-103 | a unicast changes only the addressed session, and appends the message to its outbox exactly when it is registered, open and its write does not throw; otherwise the registry is unchanged |
| Sessions.Broadcast | sky-server/src/main/java/com/sky/websocket/AdminWebSocket.java:110-119 | every registered session that is open and does not throw gets the message once; closed or failing ones are left as they were and the rest still get it |
| Sessions.DeliverAll | sky-server/src/main/java/com/sky/task/OrderTask.java:45-62 | a run of sends never adds or removes a registered party |
| Sessions.DeliverAllOutbox | sky-server/src/main/java/com/sky/websocket/OrderWebSocket.java:90-103 | after a run of sends a party's outbox has grown by exactly the messages addressed to it, in order, if its session is writable, and by nothing otherwise |
| Sessions.DeliverAllKeepsRegistry | sky-server/src/main/java/com/sky/websocket/OrderWebSocket.java:90-103 | sending never changes whether a session is open or failing |
| Sessions.RegisterReplaces | sky-server/src/main/java/com/sky/websocket/OrderWebSocket.java:34 | registering replaces the party's earlier session; the party is then online iff the new session is open, and no other party's status changes |
| Sessions.UnregisterRemoves | sky-server/src/main/java/com/sky/websocket/OrderWebSocket.java:52 | removing a party takes it offline, leaves every other party as it was, and lowers the count by one iff it was registered |
| OrderSocket.PaymentSuccessMessage | sky-server/src/main/java/com/sky/websocket/OrderWebSocket.java:111-117 | PAYMENT_SUCCESS carrying the order data, text "支付成功", stamped with the clock |
| OrderSocket.OrderStatusChangeMessage | sky-server/src/main/java/com/sky/websocket/OrderWebSocket.java:127-133 | ORDER_STATUS_CHANGE carrying the order data, text "订单状态已更新" |
| OrderSocket.OrderCancelMessage | sky-server/src/main/java/com/sky/websocket/OrderWebSocket.java:142-148 | ORDER_CANCEL carrying the order data, text "订单已取消" |
| OrderSocket.OrderWebSocket.constructor | sky-server/src/main/java/com/sky/websocket/OrderWebSocket.java:25 | the registry starts empty |
| OrderSocket.OrderWebSocket.OnOpen | sky-server/src/main/java/com/sky/websocket/OrderWebSocket.java:33-44 | the session replaces any earlier one of the user, other users are untouched, then one CONNECTED is sent to it |
| OrderSocket.OrderWebSocket.OnClose | sky-server/src/main/java/com/sky/websocket/OrderWebSocket.java:51-54 | the user is removed from the registry and nothing else changes |
| OrderSocket.OrderWebSocket.OnMessage | sky-server/src/main/java/com/sky/websocket/OrderWebSocket.java:62-73 | "ping" is answered with exactly one PONG to the sender; any other text sends nothing |
| OrderSocket.OrderWebSocket.SendToUser | sky-server/src/main/java/com/sky/websocket/OrderWebSocket.java:90-103 | the registry afterwards is `Deliver` of the message: written only to an open, registered session, a failing write swallowed |
| OrderSocket.OrderWebSocket.SendPaymentSuccess | sky-server/src/main/java/com/sky/websocket/OrderWebSocket.java:111-120 | delivers one PAYMENT_SUCCESS to the user |
| OrderSocket.OrderWebSocket.SendOrderStatusChange | sky-server/src/main/java/com/sky/websocket/OrderWebSocket.java:127-135 | delivers one ORDER_STATUS_CHANGE to the user |
| OrderSocket.OrderWebSocket.SendOrderCancel | sky-server/src/main/java/com/sky/websocket/OrderWebSocket.java:142-150 | delivers one ORDER_CANCEL to the user |
| OrderSocket.OrderWebSocket.IsOnline | sky-server/src/main/java/com/sky/websocket/OrderWebSocket.java:157-160 | online iff registered and the session is open |
| OrderSocket.OrderWebSocket.GetOnlineCount | sky-server/src/main/java/com/sky/websocket/OrderWebSocket.java:166-168 | the number of registered users, closed sessions included |
| AdminSocket.NewOrderMessage | sky-server/src/main/java/com/sky/websocket/AdminWebSocket.java:100-105 | NEW_ORDER carrying the order data, text "您有新的订单" |
| AdminSocket.AdminWebSocket.constructor | sky-server/src/main/java/com/sky/websocket/AdminWebSocket.java:24 | the registry starts empty |
| AdminSocket.AdminWebSocket.OnOpen | sky-server/src/main/java/com/sky/websocket/AdminWebSocket.java:30-41 | the session replaces any earlier one of the merchant, other merchants are untouched, then one CONNECTED is sent to it |
| AdminSocket.AdminWebSocket.OnClose | sky-server/src/main/java/com/sky/websocket/AdminWebSocket.java:47-50 | the merchant is removed from the registry and nothing else changes |
| AdminSocket.AdminWebSocket.OnMessage | sky-server/src/main/java/com/sky/websocket/AdminWebSocket.java:56-67 | "ping" is answered with exactly one PONG; any other text sends nothing |
| AdminSocket.AdminWebSocket.SendToAdmin | sky-server/src/main/java/com/sky/websocket/AdminWebSocket.java:80-93 | the registry afterwards is `Deliver` of the message to that merchant |
| AdminSocket.AdminWebSocket.SendNewOrder | sky-server/src/main/java/com/sky/websocket/AdminWebSocket.java:99-120 | the loop over the registry leaves it equal to `Broadcast` of one NEW_ORDER: each open, non-failing session gets it once, whatever the visiting order |
| AdminSocket.AdminWebSocket.IsOnline | sky-server/src/main/java/com/sky/websocket/AdminWebSocket.java:125-128 | online iff registered and the session is open |
| AdminSocket.AdminWebSocket.GetOnlineCount | sky-server/src/main/java/com/sky/websocket/AdminWebSocket.java:133-135 | the number of registered merchants, closed sessions included |
| Persistence.LookupByNumber | sky-server/src/main/java/com/sky/service/impl/OrderServiceImpl.java:225-230 | `getByNumber` finds an order iff the number is indexed, and then it is the indexed order |
| Persistence.IdsByStatusBefore | sky-server/src/main/java/com/sky/task/OrderTask.java:39-40 | the query returns exactly the ids of orders in the given status placed strictly before the cut-off, each once, ascending |
| Persistence.NothingSelected | sky-server/src/main/java/com/sky/task/OrderTask.java:39-40 | when no stored order matches, the query is empty |
| Persistence.DetailsOf | sky-server/src/main/java/com/sky/mapper/OrderDetailMapper.java:17-18 | `getByOrderId` returns exactly the stored lines whose order id matches |
| Persistence.DetailsOfAppend | sky-server/src/main/java/com/sky/mapper/OrderDetailMapper.java:17-18 | the query over two batches of lines is the query over each, in order |
| Persistence.DetailsOfAll | sky-server/src/main/java/com/sky/mapper/OrderDetailMapper.java:17-18 | a batch whose lines all name the order is returned whole, in order |
| Persistence.DetailsOfNone | sky-server/src/main/java/com/sky/mapper/OrderDetailMapper.java:17-18 | a batch with no line of the order contributes nothing |
| Persistence.DetailsOfFresh | sky-server/src/main/java/com/sky/service/impl/OrderServiceImpl.java:136 | after appending the lines of a new order id, that order's query gives exactly the appended lines |
| OrderServiceImpl.CartSumAppend | sky-server/src/main/java/com/sky/service/impl/OrderServiceImpl.java:108-111 | the cart total of two line lists is the sum of their totals |
| OrderServiceImpl.LineAmount | sky-server/src/main/java/com/sky/service/impl/OrderServiceImpl.java:108 | a line costs its unit price times its quantity: one item costs its price, none costs nothing, and a non-negative price never gives a negative share |
| OrderServiceImpl.CartSum | sky-server/src/main/java/com/sky/service/impl/OrderServiceImpl.java:104-111 | the cart total is 0 for an empty cart and never negative when every price is non-negative (proved through the recursive calls) |
| OrderServiceImpl.CartSumExample | sky-server/src/main/java/com/sky/service/impl/OrderServiceImpl.java:108-111 | 10.00 x 2 plus 5.50 x 1 totals 25.50 |
| OrderServiceImpl.ComputeAmount | sky-server/src/main/java/com/sky/service/impl/OrderServiceImpl.java:104-111 | the loop's total is the sum over the cart of price times quantity |
| OrderServiceImpl.DetailOf | sky-server/src/main/java/com/sky/service/impl/OrderServiceImpl.java:129-131 | a line copies the cart line's name, quantity and price and points at the order |
| OrderServiceImpl.BuildDetails | sky-server/src/main/java/com/sky/service/impl/OrderServiceImpl.java:127-133 | one line per cart line, in cart order, each the copy of its cart line for the order |
| OrderServiceImpl.SubmittedOrder | sky-server/src/main/java/com/sky/service/impl/OrderServiceImpl.java:85-99 | the inserted order has the given id, user and amount, is PENDING_PAYMENT/UN_PAID, is numbered with the clock (digits only), takes consignee, phone and address from the address book and the remaining fields from the request, is delivered at the requested time or an hour after the clock, and has no checkout, cancel reason or cancel time |
| OrderServiceImpl.OrderAmount | sky-server/src/main/java/com/sky/service/impl/OrderServiceImpl.java:86-121 | the amount is the client's when it sent one, otherwise the cart total |
| OrderServiceImpl.PackAmountIgnored | sky-server/src/main/java/com/sky/service/impl/OrderServiceImpl.java:113-117 | the packing fee never changes the amount |
| OrderServiceImpl.DetailsFor | sky-server/src/main/java/com/sky/service/impl/OrderServiceImpl.java:127-133 | the lines stored for a cart: one per cart line, in order |
| OrderServiceImpl.Submit | sky-server/src/main/java/com/sky/service/impl/OrderServiceImpl.java:68-150 | fails with ADDRESS_BOOK_IS_NULL iff the address book entry is missing, else with SHOPPING_CART_IS_NULL iff the cart is empty, in both cases writing nothing; no other error |
| OrderServiceImpl.SubmitCreatesOrder | sky-server/src/main/java/com/sky/service/impl/OrderServiceImpl.java:86-149 | a successful submission inserts exactly one order under the next id, PENDING_PAYMENT/UN_PAID, owned by the user, numbered with the clock, with the computed amount, findable by its number, and returns its id, number, amount and time; other orders untouched |
| OrderServiceImpl.SubmitWritesDetailsAndClearsCart | sky-server/src/main/java/com/sky/service/impl/OrderServiceImpl.java:127-139 | existing lines are kept, the new order's lines are exactly one per cart line, and that user's cart is emptied while every other cart is kept |
| OrderServiceImpl.SubmitKeepsTablesValid | sky-server/src/main/java/com/sky/service/impl/OrderServiceImpl.java:124-139 | submission keeps ids below the generated key, the number index pointing at matching orders, no paid order pending, and every line pointing at an inserted order |
| OrderServiceImpl.GetOrderDetail | sky-server/src/main/java/com/sky/service/impl/OrderServiceImpl.java:286-299 | succeeds iff the id is stored (else fails like the null dereference), with that order and exactly its stored lines |
| OrderServiceImpl.SubmitThenOrderDetail | sky-server/src/main/java/com/sky/service/impl/OrderServiceImpl.java:286-299 | right after a submission, the detail of the new order is that order with exactly the submitted lines |
| OrderServiceImpl.PaymentResult | sky-server/src/main/java/com/sky/service/impl/OrderServiceImpl.java:205-212 | fails with "该订单已支付" iff the answer's code is ORDERPAID; otherwise the fields, and the package under "package", are copied |
| OrderServiceImpl.MockPaymentSucceeds | sky-server/src/main/java/com/sky/service/impl/OrderServiceImpl.java:174-212 | with the simulated provider payment never reports "already paid" and returns the intent's package string |
| OrderServiceImpl.PaySuccessApplies | sky-server/src/main/java/com/sky/service/impl/OrderServiceImpl.java:225-236 | the completion acts exactly when the number is indexed, names a stored order, and that order is not PAID |
| OrderServiceImpl.PaidOrder | sky-server/src/main/java/com/sky/service/impl/OrderServiceImpl.java:239-246 | the update sets TO_BE_CONFIRMED, PAID and the checkout time, and no other field |
| OrderServiceImpl.PaySuccessTable | sky-server/src/main/java/com/sky/service/impl/OrderServiceImpl.java:225-246 | an unknown number or an already PAID order leaves the table as it was; otherwise exactly that order is updated |
| OrderServiceImpl.UserPaymentDataFields | sky-server/src/main/java/com/sky/service/impl/OrderServiceImpl.java:253-257 | the data pushed to the owner has exactly the keys orderId, orderNumber, amount and payTime, holding the order id, the number, the amount and the completion time |
| OrderServiceImpl.MerchantOrderDataFields | sky-server/src/main/java/com/sky/service/impl/OrderServiceImpl.java:264-271 | the data broadcast to the merchants has exactly seven keys: the order id, number and amount, the consignee, phone and address, and the order time |
| OrderServiceImpl.PaySuccessUnknownIsNoop | sky-server/src/main/java/com/sky/service/impl/OrderServiceImpl.java:227-230 | an unknown order number changes nothing |
| OrderServiceImpl.PaySuccessIdempotent | sky-server/src/main/java/com/sky/service/impl/OrderServiceImpl.java:232-236 | a repeated completion changes nothing and notifies no one: two calls equal one |
| OrderServiceImpl.PaySuccessRevivesCancelled | sky-server/src/main/java/com/sky/service/impl/OrderServiceImpl.java:232-246 | only the pay status is checked, so a CANCELLED, unpaid order is still turned into TO_BE_CONFIRMED/PAID |
| OrderServiceImpl.PaySuccessKeepsTableValid | sky-server/src/main/java/com/sky/service/impl/OrderServiceImpl.java:239-246 | completing a payment keeps the order table well formed, no paid order pending |
| OrderServiceImpl.InsertKeepsTableValid | sky-server/src/main/java/com/sky/service/impl/OrderServiceImpl.java:124 | inserting an unpaid order under the next generated key keeps the order table well formed |
| OrderServiceImpl.OrderService.SubmitOrder | sky-server/src/main/java/com/sky/service/impl/OrderServiceImpl.java:68-150 | the result and the new tables are exactly those of `Submit`, and the tables stay well formed |
| OrderServiceImpl.OrderService.Payment | sky-server/src/main/java/com/sky/service/impl/OrderServiceImpl.java:158-213 | a missing user fails (the source dereferences null) with nothing scheduled; otherwise one delayed confirmation is queued for the order number and the result is the mapped simulated answer |
| OrderServiceImpl.OrderService.PaySuccess | sky-server/src/main/java/com/sky/service/impl/OrderServiceImpl.java:220-278 | the order table becomes `PaySuccessTable`, no other table changes; when it applies, the owner gets one PAYMENT_SUCCESS and every merchant one NEW_ORDER, otherwise no one is notified |
| OrderServiceImpl.OrderService.RunPendingCallback | sky-server/src/main/java/com/sky/service/impl/OrderServiceImpl.java:181-192 | an empty queue changes nothing; otherwise the oldest queued number is removed and completed exactly as `PaySuccess` does: the order table becomes `PaySuccessTable`, every other table is kept, and the owner gets one PAYMENT_SUCCESS and every merchant one NEW_ORDER when it applies, no one otherwise |
| OrderTasks.CancelledOrder | sky-server/src/main/java/com/sky/task/OrderTask.java:47-49 | the sweep sets CANCELLED, the reason "订单超时，自动取消" and the cancel time, and no other field |
| OrderTasks.CancelDataFields | sky-server/src/main/java/com/sky/task/OrderTask.java:55-58 | the data pushed with a timeout cancellation has exactly the keys orderId, orderNumber and cancelReason, holding the order id, its number and "订单超时，自动取消" |
| OrderTasks.TimedOut | sky-server/src/main/java/com/sky/task/OrderTask.java:36-40 | an id is selected iff its order is PENDING_PAYMENT and was placed strictly before fifteen minutes ago; ascending |
| OrderTasks.SweepTable | sky-server/src/main/java/com/sky/task/OrderTask.java:45-50 | the sweep never adds or removes an order |
| OrderTasks.CancelNotices | sky-server/src/main/java/com/sky/task/OrderTask.java:54-60 | one ORDER_CANCEL per selected order, to its owner, with its id, number and the reason, in selection order |
| OrderTasks.SweepCancelsExactlyTimedOut | sky-server/src/main/java/com/sky/task/OrderTask.java:36-50 | a sweep cancels exactly the pending orders placed before the cut-off, pay status kept, and leaves every other order as it was |
| OrderTasks.NoStaleOrderAfterSweep | sky-server/src/main/java/com/sky/task/OrderTask.java:36-50 | after a sweep, no order is left that the same sweep or an earlier one would select |
| OrderTasks.SecondSweepIsNoop | sky-server/src/main/java/com/sky/task/OrderTask.java:31-50 | a second sweep at the same time changes nothing |
| OrderTasks.SweepEmptyIsNoop | sky-server/src/main/java/com/sky/task/OrderTask.java:42 | with nothing selected the table is unchanged |
| OrderTasks.SweepKeepsTableValid | sky-server/src/main/java/com/sky/task/OrderTask.java:45-50 | a sweep keeps the order table well formed, no paid order pending |
| OrderTasks.CancelNoticesFor | sky-server/src/main/java/com/sky/task/OrderTask.java:54-60 | a user receives a cancel message for each of their selected orders and nothing else |
| OrderTasks.SweepStep | sky-server/src/main/java/com/sky/task/OrderTask.java:45-50 | cancelling one more selected order updates just that order |
| OrderTasks.NoticeStep | sky-server/src/main/java/com/sky/task/OrderTask.java:54-60 | notifying one more selected order is one more unicast to its owner |
| OrderTasks.OrderTask.CancelAndNotify | sky-server/src/main/java/com/sky/task/OrderTask.java:46-61 | one loop iteration: the order is written back cancelled, nothing else in the tables changes, and its owner gets one ORDER_CANCEL |
| OrderTasks.OrderTask.CancelEach | sky-server/src/main/java/com/sky/task/OrderTask.java:45-62 | the loop leaves the table equal to `SweepTable` of the selected ids and the registry equal to delivering `CancelNotices` in order |
| OrderTasks.OrderTask.ProcessTimeoutOrder | sky-server/src/main/java/com/sky/task/OrderTask.java:32-70 | the order table becomes the sweep of the timed-out ids, no other table changes, the tables stay well formed, and the owners get the cancel messages in order |
| Lifecycle.PaidNeverSwept | sky-server/src/main/java/com/sky/task/OrderTask.java:39-40 | a paid order is never cancelled by the sweep |
| Lifecycle.PaymentThenSweep | sky-server/src/main/java/com/sky/service/impl/OrderServiceImpl.java:239-246 | once paid, an order stays TO_BE_CONFIRMED/PAID through any later sweep |
| Lifecycle.SweepThenLatePayment | sky-server/src/main/java/com/sky/service/impl/OrderServiceImpl.java:232-246 | a confirmation after the sweep cancelled the order still makes it TO_BE_CONFIRMED/PAID, with the cancel reason and time left set |
| Lifecycle.SubmitThenPay | sky-server/src/main/java/com/sky/service/impl/OrderServiceImpl.java:220-246 | a submitted order paid through its own number becomes TO_BE_CONFIRMED/PAID with the checkout time |
| Lifecycle.SubmitThenSweep | sky-server/src/main/java/com/sky/task/OrderTask.java:36-50 | a fresh order is cancelled by a sweep iff the sweep runs more than fifteen minutes after it was placed |
| Lifecycle.SweepSelectivity | sky-server/src/main/java/com/sky/task/OrderTask.java:36-40 | of orders placed 20, 10 and 0 minutes ago only the first is selected |
| MockPay.AsciiBytes | sky-common/src/main/java/com/sky/utils/MockWeChatPayUtil.java:48 | `getBytes` on ASCII text gives one byte per character, its code |
| MockPay.SignDataPieces | sky-common/src/main/java/com/sky/utils/MockWeChatPayUtil.java:47 | the signed text is the timestamp, then the nonce, then the package, and splits back into them |
| MockPay.Pay | sky-common/src/main/java/com/sky/utils/MockWeChatPayUtil.java:29-63 | the signed text is ASCII, and `paySign` is the signature of timeStamp + nonceStr + package |
| MockPay.Sign | sky-common/src/main/java/com/sky/utils/MockWeChatPayUtil.java:47-48 | the signature has 4 * ceil(n / 3) characters, all from the Base64 alphabet or the pad |
| MockPay.SignDecodes | sky-common/src/main/java/com/sky/utils/MockWeChatPayUtil.java:48 | the signature decodes back to the bytes of the signed text |
| MockPay.PayFields | sky-common/src/main/java/com/sky/utils/MockWeChatPayUtil.java:38-44 | the prepay id is "wx", the clock in decimal, then the ten random digits; the timestamp is the clock in seconds; the nonce has 32 alphanumerics; the package is "prepay_id=" + the prepay id; the sign type is RSA |
| MockPay.IntentJson | sky-common/src/main/java/com/sky/utils/MockWeChatPayUtil.java:51-57 | the answer has no "code" entry and carries the package under "package" |
| MockPay.MockPayCallback | sky-common/src/main/java/com/sky/utils/MockWeChatPayUtil.java:71-81 | the callback names the order, has state SUCCESS and the success time, and a transaction id of "4200" followed by the clock in decimal |
| Base64.EncodeGroup | sky-common/src/main/java/com/sky/utils/MockWeChatPayUtil.java:48 | one group of one to three bytes gives four characters from the alphabet or the pad |
| Base64.Encode | sky-common/src/main/java/com/sky/utils/MockWeChatPayUtil.java:48 | the text has 4 * ceil(n / 3) characters from the alphabet or the pad |
| Base64.GroupRoundTrip | sky-common/src/main/java/com/sky/utils/MockWeChatPayUtil.java:48 | decoding one encoded group gives its bytes back |
| Base64.DecodeEncode | sky-common/src/main/java/com/sky/utils/MockWeChatPayUtil.java:48 | decoding the encoding gives the bytes back |
| Base64.EncodeInjective | sky-common/src/main/java/com/sky/utils/MockWeChatPayUtil.java:48 | distinct byte strings have distinct encodings |
| Base64.TwoByteVector | sky-common/src/main/java/com/sky/utils/MockWeChatPayUtil.java:48 | "fo" encodes as "Zm8=", as in section 10 of RFC 4648 |
| Base64.FourByteVector | sky-common/src/main/java/com/sky/utils/MockWeChatPayUtil.java:48 | "foob" encodes as "Zm9vYg==", as in section 10 of RFC 4648 |
| Permission.StripLeadingSlashes | sky-server/src/main/java/com/sky/aspect/PermissionAspect.java:113-114 | drops exactly the leading run of slashes: the rest is a suffix not starting with a slash |
| Permission.StripTrailingSlashes | sky-server/src/main/java/com/sky/aspect/PermissionAspect.java:79 | drops exactly the trailing run of slashes (the class path; also half of the trim in `normalizePath`): the rest is a prefix not ending with a slash |
| Permission.NonEmpty | sky-server/src/main/java/com/sky/aspect/PermissionAspect.java:116 | keeps exactly the non-empty parts |
| Permission.Trim | sky-server/src/main/java/com/sky/aspect/PermissionAspect.java:113-114 | a part trimmed at both ends is no longer than the part and has no slash at either end |
| Permission.TrimAllSlashes | sky-server/src/main/java/com/sky/aspect/PermissionAspect.java:113-114 | a part trims to nothing exactly when it is all slashes |
| Permission.JoinSlash | sky-server/src/main/java/com/sky/aspect/PermissionAspect.java:117 | joining no parts gives "", one part gives it unchanged, and with two or more a slash stands right after the length of the first part |
| Permission.NormalizePath | sky-server/src/main/java/com/sky/aspect/PermissionAspect.java:112-118 | the normal form always starts with a slash; its full shape is stated by `NormalizeShape` and its cases by `NormalizeCases` |
| Permission.GetClassPath | sky-server/src/main/java/com/sky/aspect/PermissionAspect.java:75-82 | the first class mapping value without trailing slashes, or "" when there is none |
| Permission.GetMethodPath | sky-server/src/main/java/com/sky/aspect/PermissionAspect.java:87-107 | the first value of GetMapping, else of PostMapping, else of RequestMapping, else "" |
| Permission.BuildFullPath | sky-server/src/main/java/com/sky/aspect/PermissionAspect.java:61-69 | the full path of any annotated method starts with exactly one slash and, unless it is "/", does not end with one |
| Permission.CheckPermission | sky-server/src/main/java/com/sky/aspect/PermissionAspect.java:43-56 | proceeds iff the built path is in the allow-list, otherwise answers "权限不足，禁止访问" |
| Permission.TrimUnslashed | sky-server/src/main/java/com/sky/aspect/PermissionAspect.java:113-114 | a part with no slash at either end is kept |
| Permission.TrimIdempotent | sky-server/src/main/java/com/sky/aspect/PermissionAspect.java:113-114 | trimming twice is trimming once |
| Permission.TrimExtraLeadingSlash | sky-server/src/main/java/com/sky/aspect/PermissionAspect.java:113-114 | one more leading slash does not change the trimmed part |
| Permission.TrimExtraTrailingSlash | sky-server/src/main/java/com/sky/aspect/PermissionAspect.java:113-114 | one more trailing slash does not change the trimmed part |
| Permission.StripLeadingAppendSlash | sky-server/src/main/java/com/sky/aspect/PermissionAspect.java:113-114 | stripping the front commutes with a slash added at the end, unless only slashes remain |
| Permission.StripTrailingAppendSlash | sky-server/src/main/java/com/sky/aspect/PermissionAspect.java:113-114 | a slash added at the end is stripped again |
| Permission.NormalizeCases | sky-server/src/main/java/com/sky/aspect/PermissionAspect.java:112-118 | empty parts vanish and the remaining ones are joined by one slash under a leading slash |
| Permission.NonEmptyPair | sky-server/src/main/java/com/sky/aspect/PermissionAspect.java:115-117 | filtering two parts keeps the non-empty ones in order |
| Permission.JoinedShape | sky-server/src/main/java/com/sky/aspect/PermissionAspect.java:115-117 | joining two unslashed parts gives text with no slash at its ends, empty iff both are |
| Permission.NormalizeShape | sky-server/src/main/java/com/sky/aspect/PermissionAspect.java:112-118 | the path starts with one slash, never with two and never ends with one (except "/"), and is "/" iff both parts are only slashes |
| Permission.NormalizeIdempotent | sky-server/src/main/java/com/sky/aspect/PermissionAspect.java:112-118 | normalising a normalised path again, as either part, gives it back |
| Permission.NormalizeIgnoresOuterSlashes | sky-server/src/main/java/com/sky/aspect/PermissionAspect.java:112-118 | an extra slash at either end of either part does not change the path |
| Permission.NormalizeKeepsInnerSlashes | sky-server/src/main/java/com/sky/aspect/PermissionAspect.java:112-118 | a part with no slash at its ends is kept verbatim, inner slash runs included |
| Permission.InnerSlashExample | sky-server/src/main/java/com/sky/aspect/PermissionAspect.java:112-118 | "a//b" gives "/a//b" |
| Permission.ClassPathExample | sky-server/src/main/java/com/sky/aspect/PermissionAspect.java:75-82 | "/admin/employee/" gives the class path "/admin/employee" |
| Permission.SlashedParts | sky-server/src/main/java/com/sky/aspect/PermissionAspect.java:112-118 | two parts written with one leading slash and none at the end normalise to the two joined by a slash; the class part alone is kept |
| Permission.NormalFormExample | sky-server/src/main/java/com/sky/aspect/PermissionAspect.java:112-118 | "/admin/employee" with "/{id}" gives "/admin/employee/{id}", and alone gives itself |
| Permission.AllowedExample | sky-server/src/main/java/com/sky/aspect/PermissionAspect.java:32-56 | a class mapping "/admin/employee/" with a GetMapping "/{id}" proceeds |
| Permission.DeniedExample | sky-server/src/main/java/com/sky/aspect/PermissionAspect.java:43-56 | the same class without a method mapping is refused with the message |
| Permission.ClassPathNotAllowed | sky-server/src/main/java/com/sky/aspect/PermissionAspect.java:32-36 | "/admin/employee" is not in the allow-list |
| Upload.SplitDots | sky-server/src/main/java/com/sky/controller/admin/CommonController.java:62 | every piece between dots is dot-free, and there is at least one |
| Upload.JoinSplitDots | sky-server/src/main/java/com/sky/controller/admin/CommonController.java:62 | joining the pieces with dots gives the name back |
| Upload.SplitAfterPiece | sky-server/src/main/java/com/sky/controller/admin/CommonController.java:62 | a dot-free piece followed by a dot comes off as the first piece |
| Upload.SplitNoDot | sky-server/src/main/java/com/sky/controller/admin/CommonController.java:62 | a dot-free name is one piece |
| Upload.SplitAllEmpty | sky-server/src/main/java/com/sky/controller/admin/CommonController.java:62 | every piece is empty iff the text is only dots |
| Upload.DropTrailingEmpty | sky-server/src/main/java/com/sky/controller/admin/CommonController.java:62 | drops exactly the trailing empty pieces: a prefix whose last piece is non-empty |
| Upload.JavaSplit | sky-server/src/main/java/com/sky/controller/admin/CommonController.java:62 | a dot-free name gives itself alone; otherwise the pieces with the trailing empty ones dropped |
| Upload.Extension | sky-server/src/main/java/com/sky/controller/admin/CommonController.java:61-62 | present iff the split has a second piece, and then it is "." + that piece |
| Upload.ExtensionMissing | sky-server/src/main/java/com/sky/controller/admin/CommonController.java:62 | the index is out of bounds iff the name has no dot or only dots after its first dot |
| Upload.ExtensionMissingNoDot | sky-server/src/main/java/com/sky/controller/admin/CommonController.java:62 | a name without a dot has no second piece |
| Upload.ExtensionIsSecondPiece | sky-server/src/main/java/com/sky/controller/admin/CommonController.java:62 | for a name `a.b…` with dot-free `a` and `b` the extension is ".b", unless `b` is empty and only dots follow |
| Upload.ExtensionOfDoubleSuffix | sky-server/src/main/java/com/sky/controller/admin/CommonController.java:62 | "a.tar.gz" gets ".tar", not ".gz" |
| Upload.ExtensionOfDotFile | sky-server/src/main/java/com/sky/controller/admin/CommonController.java:62 | ".png" gets ".png" |
| Upload.ExtensionAbsentExamples | sky-server/src/main/java/com/sky/controller/admin/CommonController.java:62 | "a." and "photo" have no second piece |
| Upload.RemoveHyphens | sky-server/src/main/java/com/sky/controller/admin/CommonController.java:63 | the result has no hyphen, is no longer than the input, and is the input when it had none |
| Upload.RemoveHyphensAppend | sky-server/src/main/java/com/sky/controller/admin/CommonController.java:63 | removing hyphens distributes over concatenation |
| Upload.StemPieces | sky-server/src/main/java/com/sky/controller/admin/CommonController.java:63 | a canonical UUID loses exactly the four hyphens at 8, 13, 18 and 23 |
| Upload.CanonicalUuidStem | sky-server/src/main/java/com/sky/controller/admin/CommonController.java:63 | a canonical UUID becomes its 32 hex digits in order |
| Upload.StoredName | sky-server/src/main/java/com/sky/controller/admin/CommonController.java:64 | the stored name is the hyphen-free stem followed by the extension |
| Upload.ImageUrl | sky-server/src/main/java/com/sky/controller/admin/CommonController.java:73 | the URL is "/images/" followed by the stored name |
| Upload.ImageFolder.constructor | sky-server/src/main/java/com/sky/controller/admin/CommonController.java:66-69 | the folder starts with the given files |
| Upload.ImageFolder.Upload | sky-server/src/main/java/com/sky/controller/admin/CommonController.java:36-81 | an empty file fails and a name without a second piece throws, both writing nothing; otherwise the bytes are stored under the new name and its URL returned, or, if the write fails, nothing is stored and the call fails |
| Upload.UploadedUrlNamesFile | sky-server/src/main/java/com/sky/controller/admin/CommonController.java:70-75 | the returned URL names a stored file holding the uploaded bytes |
| Persistence.Database.constructor | sky-server/src/main/java/com/sky/service/impl/OrderServiceImpl.java:124-139 | the order table, the index and the stored lines start empty with the first key 1, the carts, address books and users are the given ones, and the tables are well formed |
| OrderServiceImpl.OrderService.constructor | sky-server/src/main/java/com/sky/service/impl/OrderServiceImpl.java:181-192 | the service uses the given tables and socket endpoints and has no delayed confirmation queued |
| OrderTasks.OrderTask.constructor | sky-server/src/main/java/com/sky/task/OrderTask.java:32-70 | the task uses the given tables and user socket endpoint |
| Base64.SextetRoundTrip | sky-common/src/main/java/com/sky/utils/MockWeChatPayUtil.java:48 | each 6-bit value maps to an alphabet character that reads back as that value |
| Base64.EncodedConcat | sky-common/src/main/java/com/sky/utils/MockWeChatPayUtil.java:48 | concatenated encoded texts stay within the alphabet and the pad |
| Base64.OneByteRoundTrip | sky-common/src/main/java/com/sky/utils/MockWeChatPayUtil.java:48 | a one-byte group (two characters, two pads) decodes back to its byte |
| Base64.TwoBytesRoundTrip | sky-common/src/main/java/com/sky/utils/MockWeChatPayUtil.java:48 | a two-byte group (three characters, one pad) decodes back to its bytes |
| Base64.ThreeBytesRoundTrip | sky-common/src/main/java/com/sky/utils/MockWeChatPayUtil.java:48 | a three-byte group (four characters, no pad) decodes back to its bytes |
| Upload.FirstDot | sky-server/src/main/java/com/sky/controller/admin/CommonController.java:62 | a name containing a dot has a first dot, with no dot before it |
| Upload.AfterFirstDot | sky-server/src/main/java/com/sky/controller/admin/CommonController.java:62 | the split has no second piece iff everything after the first dot is dots |

## Left out

- **Clocks.** Each operation reads one `now`; the code reads `LocalDateTime.now()` and `System.currentTimeMillis()` several times in one call (per cancelled order in the sweep, per message envelope). These collapse into one instant per call, or into the named parameters where the values differ (`Payment` takes the id clock and the stamp clock separately).
- **JSON.** JSON serialisation of envelopes and of the payment answer is not modelled. Messages are kept as values, and the payment answer as a map of field names to values.
- **Concurrency.** The thread safety of the `ConcurrentHashMap` registries, and interleavings between the scheduled sweep, the delayed callback and requests, are not modelled. Each method runs atomically.
- **The delayed callback.** The three-second asynchronous confirmation that `payment` starts on a new thread becomes a queue of order numbers (`OrderService.pendingCallbacks`); `RunPendingCallback` runs the oldest one. `Thread.sleep` and the thread itself are left out.
- **Logging and errors in `onError`.** Logging is left out. `onError` logs only, so the socket error handlers are left out.
- **The real WeChat Pay branch.** When the `useMockPayment` setting is off, `payment` calls the real provider (`WeChatPayUtil`, a network client). That path is not modelled; the setting is taken to be on.
- **The image directory.** The path built from `user.dir` and the directory creation in `upload` are left out; the directory is a map from file name to bytes, and the success of `transferTo` is a parameter.
- **A null `originalFilename`.** It is not modelled; file names are strings.
- **The text of `MessageConstant.UPLOAD_FAILED`.** `MessageConstant` is not part of this model, so the failure is the constructor `UploadFailed`.
- **OrderMapper.** The SQL behind `OrderMapper` is not part of this model. `getByStatusAndOrderTimeLT` is taken to return ids in ascending order. `getByNumber` reads a number index in which the last order inserted with a number wins.
- **Money.** `BigDecimal` amounts are integers counting hundredths of a yuan; the multiplication and sum of `submitOrder` are exact in that unit.
- **The current user.** `BaseContext.getCurrentId()` becomes a user id parameter.
- **Refunds.** The pay status REFUND exists in the entity but nothing in the core sets it.
- **Transactions.** `@Transactional` rollback is not modelled. Every failure of `submitOrder` happens before the first write.
- Permission.StripTrailingSlashes: Java's `$` without the MULTILINE flag also matches just before a line terminator that ends the input, so `replaceAll("/+$", "")` turns `"/admin/\n"` into `"/admin\n"`. The model strips only slashes at the very end; annotation values ending in a line terminator are not modelled, and `Trim` and `NormalizePath` inherit the gap.
- Permission.GetClassPath: inherits that gap for a class mapping value that ends in a line terminator.
- Sessions.Deliver: whether `sendText` throws is a flag the session carries from registration on, so a session fails every write or none. A write that fails once and succeeds later, such as an asynchronous send throwing while an earlier one is still being written, is not modelled. `Sessions.Broadcast`, `Sessions.DeliverAllOutbox` and `OrderTasks.OrderTask.ProcessTimeoutOrder` inherit this all-or-nothing choice.
- Base64.Decode: a partner of the encoder written for the round trip, not code of the source. On input of the wrong length it drops a short remainder instead of rejecting it.
- Upload.JavaSplit: models `String.split("\\.")` for the literal-dot pattern only, with its dropping of trailing empty pieces. It is not a general regular-expression split.
- **Annotations.** `PermissionAspect` reads annotation values through reflection; the model takes the class- and method-level mapping values as lists of strings.
