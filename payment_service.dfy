/** The YapPerce payment service: payments checked against the order service's
    total and, once successful, the trigger that asks the order service to send the
    order to ShipXpress. The order lookup and the trigger's answer are parameters;
    amounts are exact reals. */
module PaymentService {
  import opened Wrappers

  const Pending: string := "Tertunda"
  const Succeeded: string := "Berhasil"
  const OrderNotFound: string := "Order not found"
  const AmountMismatch: string := "Payment amount does not match order total"
  const PaymentNotFound: string := "Payment not found"
  const CreateError: string := "Error creating payment: "
  const ProcessError: string := "Error processing payment: "
  const UpdateError: string := "Error updating payment status: "

  /** The tolerance of the amount check. */
  const Tolerance: real := 0.01

  /** A row of `payments` (the `payment_date` column is left out). */
  datatype Payment = Payment(paymentId: nat, orderId: int, amount: real, status: string)

  /** The payment service's table with its auto-increment counter. */
  class PaymentDb {
    var payments: map<nat, Payment>
    var nextPaymentId: nat

    ghost predicate Valid() reads this {
      forall k :: k in payments ==> k < nextPaymentId && payments[k].paymentId == k
    }

    constructor ()
      ensures Valid() && payments == map[] && nextPaymentId == 1
    {
      payments, nextPaymentId := map[], 1;
    }

    /** `INSERT INTO payments (order_id, amount, payment_status)`. */
    method InsertPayment(orderId: int, amount: real, status: string) returns (id: nat)
      requires Valid()
      modifies this`payments, this`nextPaymentId
      ensures Valid()
      ensures id == old(nextPaymentId) && id !in old(payments) && nextPaymentId == id + 1
      ensures payments == old(payments)[id := Payment(id, orderId, amount, status)]
    {
      id := nextPaymentId;
      payments := payments[id := Payment(id, orderId, amount, status)];
      nextPaymentId := id + 1;
    }
  }

  function Abs(x: real): real {
    if x < 0.0 then -x else x
  }

  /** `!(Math.abs(amount - total) > 0.01)`. */
  predicate AmountMatches(amount: real, total: real) {
    !(Abs(amount - total) > Tolerance)
  }

  /** The amount check accepts exactly the amounts within one hundredth of the
      total, on either side. */
  lemma AmountMatchesWindow(amount: real, total: real)
    ensures AmountMatches(amount, total) <==> total - Tolerance <= amount <= total + Tolerance
    ensures AmountMatches(amount, total) <==> AmountMatches(total, amount)
    ensures AmountMatches(total, total)
  {
  }

  /** The checks `createPayment` and `processPayment` share: the first failure, if any. */
  function Gate(total: Option<real>, amount: real): (r: Option<string>) {
    if total.None? then Some(OrderNotFound)
    else if Abs(amount - total.value) > Tolerance then Some(AmountMismatch)
    else None
  }

  lemma GateCases(total: Option<real>, amount: real)
    ensures Gate(total, amount) == Some(OrderNotFound) <==> total.None?
    ensures Gate(total, amount) == Some(AmountMismatch) <==> total.Some? && !AmountMatches(amount, total.value)
    ensures Gate(total, amount) == None <==> total.Some? && AmountMatches(amount, total.value)
  {
  }

  /** What the order service answered to `sendOrderToShipXpress`: no answer, GraphQL
      errors, or the mutation's boolean. */
  datatype TriggerAnswer = NoAnswer | Errors | Answered(sent: bool)

  /** The helper's result: false unless the mutation answered true. */
  function TriggerResult(answer: TriggerAnswer): (b: bool)
    ensures b <==> answer == Answered(true)
  {
    match answer
    case Answered(sent) => sent
    case _ => false
  }

  /** `createPayment`: after the order and amount checks, one payment stored as
      "Tertunda"; no shipment is requested. `totals` is the order service's lookup
      of an order's `total_amount`. */
  method CreatePayment(db: PaymentDb, orderId: int, amount: real, totals: int -> Option<real>)
    returns (r: Result<Payment>)
    requires db.Valid()
    modifies db`payments, db`nextPaymentId
    ensures db.Valid()
    ensures Gate(totals(orderId), amount).Some? ==>
      r == Err(CreateError + Gate(totals(orderId), amount).value) && db.payments == old(db.payments) &&
      db.nextPaymentId == old(db.nextPaymentId)
    ensures Gate(totals(orderId), amount).None? ==> db.nextPaymentId == old(db.nextPaymentId) + 1
    ensures Gate(totals(orderId), amount).None? ==>
      var id := old(db.nextPaymentId);
      db.payments == old(db.payments)[id := Payment(id, orderId, amount, Pending)] && r == Ok(db.payments[id])
  {
    var total := totals(orderId);
    if total.None? {
      return Err(CreateError + OrderNotFound);
    }
    if Abs(amount - total.value) > Tolerance {
      return Err(CreateError + AmountMismatch);
    }
    var id := db.InsertPayment(orderId, amount, Pending);
    r := Ok(db.payments[id]);
  }

  /** `processPayment`: after the same checks, one payment stored as "Berhasil",
      then the order sent to ShipXpress exactly once. The trigger's answer is
      reported in `triggered` and changes neither the result nor the payment. */
  method ProcessPayment(db: PaymentDb, orderId: int, amount: real, totals: int -> Option<real>,
                        answer: int -> TriggerAnswer)
    returns (r: Result<Payment>, triggered: Option<(int, bool)>)
    requires db.Valid()
    modifies db`payments, db`nextPaymentId
    ensures db.Valid()
    ensures Gate(totals(orderId), amount).Some? ==>
      r == Err(ProcessError + Gate(totals(orderId), amount).value) && triggered == None &&
      db.payments == old(db.payments) && db.nextPaymentId == old(db.nextPaymentId)
    ensures Gate(totals(orderId), amount).None? ==> db.nextPaymentId == old(db.nextPaymentId) + 1
    ensures Gate(totals(orderId), amount).None? ==>
      var id := old(db.nextPaymentId);
      db.payments == old(db.payments)[id := Payment(id, orderId, amount, Succeeded)] &&
      r == Ok(db.payments[id]) && triggered == Some((orderId, TriggerResult(answer(orderId))))
  {
    triggered := None;
    var total := totals(orderId);
    if total.None? {
      return Err(ProcessError + OrderNotFound), triggered;
    }
    if Abs(amount - total.value) > Tolerance {
      return Err(ProcessError + AmountMismatch), triggered;
    }
    var id := db.InsertPayment(orderId, amount, Succeeded);
    triggered := Some((orderId, TriggerResult(answer(orderId))));
    r := Ok(db.payments[id]);
  }

  /** `updatePaymentStatus`: the status is overwritten whatever it was; an unknown id
      fails on the read-back. The order is sent to ShipXpress exactly when the new
      status is "Berhasil" and the payment has a (non-zero) order id, even when the
      payment already was "Berhasil". */
  method UpdatePaymentStatus(db: PaymentDb, id: nat, status: string, answer: int -> TriggerAnswer)
    returns (r: Result<Payment>, triggered: Option<(int, bool)>)
    requires db.Valid()
    modifies db`payments
    ensures db.Valid()
    ensures id !in old(db.payments) ==>
      r == Err(UpdateError + PaymentNotFound) && triggered == None && db.payments == old(db.payments)
    ensures id in old(db.payments) ==>
      var p := old(db.payments)[id].(status := status);
      db.payments == old(db.payments)[id := p] && r == Ok(p) &&
      (triggered.Some? <==> status == Succeeded && p.orderId != 0) &&
      (triggered.Some? ==> triggered.value == (p.orderId, TriggerResult(answer(p.orderId))))
  {
    triggered := None;
    if id in db.payments {
      db.payments := db.payments[id := db.payments[id].(status := status)];
    }
    if id !in db.payments {
      return Err(UpdateError + PaymentNotFound), triggered;
    }
    var row := db.payments[id];
    if status == Succeeded && row.orderId != 0 {
      triggered := Some((row.orderId, TriggerResult(answer(row.orderId))));
    }
    r := Ok(row);
  }
}
