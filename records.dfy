/** Values shared by the order-result components: JavaScript's optional fields,
    its notion of "truthy", and the status record that flows from the order
    submission and the polling events into the invoice block. */
module Records {

  /** A JavaScript value that may be absent: `None` stands for `null` and
      `undefined` alike (the core never tells them apart). */
  datatype Option<+T> = None | Some(value: T)

  /** A string field is truthy when present and non-empty. */
  predicate TruthyText(s: Option<string>) {
    s.Some? && s.value != ""
  }

  /** A numeric field is truthy when present and not zero. */
  predicate TruthyNumber(n: Option<int>) {
    n.Some? && n.value != 0
  }

  /** `a || b` on two string fields. */
  function OrText(a: Option<string>, b: Option<string>): (r: Option<string>)
    ensures TruthyText(a) ==> r == a
    ensures !TruthyText(a) ==> r == b
  {
    if TruthyText(a) then a else b
  }

  /** `a || b` on two object fields: an object is always truthy. */
  function OrObject<T>(a: Option<T>, b: Option<T>): (r: Option<T>)
    ensures a.Some? ==> r == a
    ensures a.None? ==> r == b
  {
    if a.Some? then a else b
  }

  /** Records whose contents this core never inspects. */
  datatype Channel = Channel(raw: string)
  datatype Payload = Payload(raw: string)

  datatype Details = Details(orderId: Option<string>)
  datatype PaymentInfo = PaymentInfo(totalSats: Option<int>)
  datatype Bolt11 = Bolt11(orderTotalSat: Option<int>)
  datatype Payment = Payment(bolt11: Option<Bolt11>)

  /** One status object: the initial order result, a polled status snapshot,
      or the merged view of both. Only the fields the core reads are kept:
      `success`, `orderId` and `message` (order result), `order_state`,
      `status` and `details.order_id` (status snapshot), `paymentInfo`,
      `data`, `payment.bolt11.order_total_sat` and `channelData`. */
  datatype StatusData = StatusData(
    success: bool,
    orderId: Option<string>,
    message: Option<string>,
    orderState: Option<string>,
    status: Option<string>,
    details: Option<Details>,
    paymentInfo: Option<PaymentInfo>,
    data: Option<Payload>,
    payment: Option<Payment>,
    channelData: Option<seq<Channel>>)
}
