/**
 * PaymentController: the create-order and verify endpoints layered over the
 * booking service. The payment gateway's order call and its signature check
 * are inputs: a function that returns an order or fails with a message, and
 * a function that gives the signature verdict.
 */
module Payments {
  import opened Common
  import opened Ledger
  import BookingServices

  /** The create-order body; the amount is already in paisa. */
  datatype OrderRequest = OrderRequest(
    amountInPaisa: int,
    currency: string,
    eventId: Option<EventId>,
    userName: string,
    userEmail: string,
    numberOfTickets: int)

  /** The gateway's order: its id, currency and amount. */
  datatype GatewayOrder = GatewayOrder(id: string, currency: string, amount: int)

  /** `createRazorpayOrder(amount, currency, receipt)`: an order, or the gateway's exception message. */
  type Gateway = (int, string, string) -> Result<GatewayOrder, string>

  /** `verifyPaymentSignature(signature, orderId, paymentId)`. */
  type SignatureCheck = (string, string, string) -> bool

  datatype PaymentResponse = PaymentResponse(orderId: string, currency: string, amount: int, keyId: string, bookingId: BookingId)

  datatype VerificationRequest = VerificationRequest(
    paymentId: string,
    orderId: string,
    signature: string,
    bookingId: Option<BookingId>)

  /** Response bodies: an order, a fixed text, or the message of a caught exception. */
  datatype Body =
    | Order(response: PaymentResponse)
    | Text(text: string)
    | ServiceError(error: LedgerError)
    | GatewayError(message: string)
    | NullEventId

  datatype HttpReply = HttpReply(status: int, body: Body)

  /** A reply together with the ledger it leaves behind. */
  datatype Exchange = Exchange(reply: HttpReply, after: Ledger)

  const FreeEventPayment: string := "FREE_EVENT_PAYMENT"
  const MissingBookingId: string := "Booking ID is missing for verification."
  const PaymentConfirmed: string := "Payment verified and booking confirmed!"
  const PaymentRejected: string := "Payment verification failed! Booking marked as failed."

  /** `"FREE_" + booking.getId()`: the prefix, then digits that read back as the id. */
  function FreeOrderId(id: BookingId): (r: string)
    ensures |r| > 5 && r[..5] == "FREE_"
    ensures forall i :: 5 <= i < |r| ==> '0' <= r[i] <= '9'
    ensures ParseDecimal(r[5..]) == id
  {
    var r := "FREE_" + DecimalString(id);
    assert r[5..] == DecimalString(id);
    DecimalRoundTrip(id);
    r
  }

  /** `"receipt_" + id`: the prefix, then digits that read back as the id. */
  function Receipt(id: BookingId): (r: string)
    ensures |r| > 8 && r[..8] == "receipt_"
    ensures forall i :: 8 <= i < |r| ==> '0' <= r[i] <= '9'
    ensures ParseDecimal(r[8..]) == id
  {
    var r := "receipt_" + DecimalString(id);
    assert r[8..] == DecimalString(id);
    DecimalRoundTrip(id);
    r
  }

  /**
   * createOrder. A missing event id makes the repository lookup throw;
   * otherwise the reservation runs first and its exception becomes a 400
   * carrying it. A zero amount confirms the new booking at once; any other
   * amount opens a gateway order, and a gateway failure is a 400 that leaves
   * the pending booking and its held tickets in place.
   */
  function CreateOrderOutcome(l: Ledger, owner: Option<UserId>, keyId: string, req: OrderRequest, gateway: Gateway): (r: Exchange)
    requires IdsBelowNext(l)
    ensures req.eventId.None? ==> r == Exchange(HttpReply(400, NullEventId), l)
    ensures req.eventId.Some? ==>
      var res := Reserve(l, req.eventId.value, req.userName, req.userEmail, req.numberOfTickets, owner);
      && (res.result.Failure? ==> r == Exchange(HttpReply(400, ServiceError(res.result.error)), l))
      && (res.result.Success? && req.amountInPaisa == 0 ==>
            var id := res.result.value;
            && r.reply == HttpReply(200, Order(PaymentResponse(FreeOrderId(id), req.currency, 0, keyId, id)))
            && r.after == Confirm(res.after, id, FreeEventPayment).after
            && r.after.bookings[id].status == Confirmed
            && r.after.bookings[id].paymentId == Some(FreeEventPayment))
      && (res.result.Success? && req.amountInPaisa != 0 ==>
            var id := res.result.value;
            && r.after == res.after
            && r.after.bookings[id].status == PendingPayment
            && match gateway(req.amountInPaisa, req.currency, Receipt(id))
               case Success(o) => r.reply == HttpReply(200, Order(PaymentResponse(o.id, o.currency, o.amount, keyId, id)))
               case Failure(msg) => r.reply == HttpReply(400, GatewayError(msg)))
  {
    if req.eventId.None? then Exchange(HttpReply(400, NullEventId), l)
    else
      var res := Reserve(l, req.eventId.value, req.userName, req.userEmail, req.numberOfTickets, owner);
      if res.result.Failure? then Exchange(HttpReply(400, ServiceError(res.result.error)), l)
      else
        var id := res.result.value;
        if req.amountInPaisa == 0 then
          // confirmBooking cannot throw here: the booking was just created PENDING_PAYMENT
          var confirmed := Confirm(res.after, id, FreeEventPayment);
          Exchange(HttpReply(200, Order(PaymentResponse(FreeOrderId(id), req.currency, 0, keyId, id))), confirmed.after)
        else
          match gateway(req.amountInPaisa, req.currency, Receipt(id))
          case Success(o) => Exchange(HttpReply(200, Order(PaymentResponse(o.id, o.currency, o.amount, keyId, id))), res.after)
          case Failure(msg) => Exchange(HttpReply(400, GatewayError(msg)), res.after)
  }

  /**
   * Whether an order is free is decided by the amount the client sent, not by
   * the event: two requests that differ only in the amount take different
   * branches whatever the event's price.
   */
  lemma FreeDecidedByClientAmount(l: Ledger, owner: Option<UserId>, keyId: string, req: OrderRequest, gateway: Gateway)
    requires IdsBelowNext(l) && req.eventId.Some?
    requires Reserve(l, req.eventId.value, req.userName, req.userEmail, req.numberOfTickets, owner).result.Success?
    ensures var id := l.nextId;
      && CreateOrderOutcome(l, owner, keyId, req.(amountInPaisa := 0), gateway).after.bookings[id].status == Confirmed
      && (req.amountInPaisa != 0 ==> CreateOrderOutcome(l, owner, keyId, req, gateway).after.bookings[id].status == PendingPayment)
  {
  }

  /** Every create-order outcome keeps each event's capacity. */
  lemma CreateOrderConserves(l: Ledger, owner: Option<UserId>, keyId: string, req: OrderRequest, gateway: Gateway)
    requires IdsBelowNext(l)
    ensures var r := CreateOrderOutcome(l, owner, keyId, req, gateway);
      Conserves(l, r.after) && IdsBelowNext(r.after)
  {
    if req.eventId.Some? {
      var res := Reserve(l, req.eventId.value, req.userName, req.userEmail, req.numberOfTickets, owner);
      ReserveConserves(l, req.eventId.value, req.userName, req.userEmail, req.numberOfTickets, owner);
      if res.result.Success? && req.amountInPaisa == 0 {
        ConfirmConserves(res.after, res.result.value, FreeEventPayment);
      }
    }
  }

  /**
   * verifyPayment. A missing booking id is a 400 with no change. A valid
   * signature confirms (200); an invalid one fails the booking, releasing its
   * tickets (400). When confirm or fail throws, the reply is a 500 carrying
   * the service's error.
   */
  function VerifyOutcome(l: Ledger, req: VerificationRequest, check: SignatureCheck): (r: Exchange)
    ensures req.bookingId.None? ==> r == Exchange(HttpReply(400, Text(MissingBookingId)), l)
    ensures req.bookingId.Some? && check(req.signature, req.orderId, req.paymentId) ==>
      var c := Confirm(l, req.bookingId.value, req.paymentId);
      && r.after == c.after
      && (c.result.Success? ==> r.reply == HttpReply(200, Text(PaymentConfirmed)))
      && (c.result.Failure? ==> r.reply == HttpReply(500, ServiceError(c.result.error)))
    ensures req.bookingId.Some? && !check(req.signature, req.orderId, req.paymentId) ==>
      var f := Fail(l, req.bookingId.value);
      && r.after == f.after
      && (f.result.Success? ==> r.reply == HttpReply(400, Text(PaymentRejected)))
      && (f.result.Failure? ==> r.reply == HttpReply(500, ServiceError(f.result.error)))
  {
    if req.bookingId.None? then Exchange(HttpReply(400, Text(MissingBookingId)), l)
    else if check(req.signature, req.orderId, req.paymentId) then
      var c := Confirm(l, req.bookingId.value, req.paymentId);
      if c.result.Success? then Exchange(HttpReply(200, Text(PaymentConfirmed)), c.after)
      else Exchange(HttpReply(500, ServiceError(c.result.error)), c.after)
    else
      var f := Fail(l, req.bookingId.value);
      if f.result.Success? then Exchange(HttpReply(400, Text(PaymentRejected)), f.after)
      else Exchange(HttpReply(500, ServiceError(f.result.error)), f.after)
  }

  /**
   * A booking that is no longer PENDING_PAYMENT cannot be verified again:
   * whatever the signature verdict, the reply is a 500 and nothing changes.
   */
  lemma VerifyResolvedBookingFails(l: Ledger, req: VerificationRequest, check: SignatureCheck)
    requires req.bookingId.Some? && req.bookingId.value in l.bookings
    requires l.bookings[req.bookingId.value].status != PendingPayment
    ensures var r := VerifyOutcome(l, req, check);
      r.reply.status == 500 && r.after == l
  {
  }

  /** After a free order, verifying the same booking is refused with a 500. */
  lemma FreeOrderCannotBeVerified(l: Ledger, owner: Option<UserId>, keyId: string, req: OrderRequest, gateway: Gateway, v: VerificationRequest, check: SignatureCheck)
    requires IdsBelowNext(l) && req.eventId.Some? && req.amountInPaisa == 0
    requires CreateOrderOutcome(l, owner, keyId, req, gateway).reply.status == 200
    requires v.bookingId == Some(l.nextId)
    ensures VerifyOutcome(CreateOrderOutcome(l, owner, keyId, req, gateway).after, v, check).reply.status == 500
  {
    var after := CreateOrderOutcome(l, owner, keyId, req, gateway).after;
    VerifyResolvedBookingFails(after, v, check);
  }

  lemma VerifyConserves(l: Ledger, req: VerificationRequest, check: SignatureCheck)
    requires IdsBelowNext(l)
    ensures var r := VerifyOutcome(l, req, check);
      Conserves(l, r.after) && IdsBelowNext(r.after)
  {
    if req.bookingId.Some? {
      ConfirmConserves(l, req.bookingId.value, req.paymentId);
      FailConserves(l, req.bookingId.value);
    }
  }

  /** The controller: the booking service, the gateway's two calls and the public key id. */
  class PaymentController {
    const service: BookingServices.BookingService
    const gateway: Gateway
    const check: SignatureCheck
    const keyId: string

    constructor (service: BookingServices.BookingService, gateway: Gateway, check: SignatureCheck, keyId: string)
      ensures this.service == service && this.gateway == gateway && this.check == check && this.keyId == keyId
    {
      this.service := service;
      this.gateway := gateway;
      this.check := check;
      this.keyId := keyId;
    }

    /** POST /api/payments/create-order. */
    method CreateOrder(req: OrderRequest) returns (reply: HttpReply)
      requires service.Valid()
      modifies service
      ensures service.Valid() && service.capacity == old(service.capacity)
      ensures Exchange(reply, service.State()) ==
        CreateOrderOutcome(old(service.State()), service.users.FindByEmail(req.userEmail), keyId, req, gateway)
    {
      if req.eventId.None? {
        return HttpReply(400, NullEventId);
      }
      var reserved := service.CreatePendingBooking(req.eventId.value, req.userName, req.userEmail, req.numberOfTickets);
      if reserved.Failure? {
        return HttpReply(400, ServiceError(reserved.error));
      }
      var id := reserved.value;
      if req.amountInPaisa == 0 {
        var confirmed := service.ConfirmBooking(id, FreeEventPayment);
        return HttpReply(200, Order(PaymentResponse(FreeOrderId(id), req.currency, 0, keyId, id)));
      }
      var order := gateway(req.amountInPaisa, req.currency, Receipt(id));
      match order
      case Success(o) =>
        reply := HttpReply(200, Order(PaymentResponse(o.id, o.currency, o.amount, keyId, id)));
      case Failure(msg) =>
        reply := HttpReply(400, GatewayError(msg));
    }

    /** POST /api/payments/verify. */
    method VerifyPayment(req: VerificationRequest) returns (reply: HttpReply)
      requires service.Valid()
      modifies service
      ensures service.Valid() && service.capacity == old(service.capacity)
      ensures Exchange(reply, service.State()) == VerifyOutcome(old(service.State()), req, check)
    {
      if req.bookingId.None? {
        return HttpReply(400, Text(MissingBookingId));
      }
      var isVerified := check(req.signature, req.orderId, req.paymentId);
      if isVerified {
        var confirmed := service.ConfirmBooking(req.bookingId.value, req.paymentId);
        if confirmed.Failure? {
          return HttpReply(500, ServiceError(confirmed.error));
        }
        reply := HttpReply(200, Text(PaymentConfirmed));
      } else {
        var failed := service.FailBooking(req.bookingId.value);
        if failed.Failure? {
          return HttpReply(500, ServiceError(failed.error));
        }
        reply := HttpReply(400, Text(PaymentRejected));
      }
    }
  }
}
