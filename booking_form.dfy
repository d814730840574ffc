/**
 * BookingForm: the client-side checks run before a booking is submitted,
 * the create-order request built from the form, and what the form does with
 * the reply.
 *
 * The ticket count is whatever `parseInt` made of the input, so it may be
 * NaN. Every comparison with NaN is false, which means a NaN count passes
 * both numeric checks. Prices are whole paisa (the form's rupee price times
 * 100), so the amount sent is already the amount the server charges.
 */
module BookingForms {
  import opened Common
  import Auth
  import Ledger
  import Payments

  /** A number produced by `parseInt`: an integer or NaN. */
  datatype Count = Count(n: int) | NaN

  /** `a < b` for a number `a` and a parsed count `b`; false when `b` is NaN. */
  predicate Below(a: int, b: Count)
  {
    b.Count? && a < b.n
  }

  /** `b <= a`, equally false when `b` is NaN. */
  predicate AtMost(b: Count, a: int)
  {
    b.Count? && b.n <= a
  }

  /** The event as the details page loaded it. */
  datatype EventDetails = EventDetails(price: int, availableTickets: int, title: string)

  /** The form's state when it is submitted. */
  datatype Fields = Fields(numberOfTickets: Count, userName: string, userEmail: string)

  datatype FormError =
    | TooFewTickets
    | NotEnoughAvailable(available: int)
    | MissingName
    | InvalidEmail
    | SessionEmailMissing

  /** The JSON body posted to create an order. */
  datatype OrderPayload = OrderPayload(
    amount: Count,
    currency: string,
    eventId: Ledger.EventId,
    userName: string,
    userEmail: string,
    numberOfTickets: Count)

  /** The characters `String.prototype.trim` removes: white space and line terminators. */
  predicate IsTrimmed(c: char)
  {
    || c == '\t' || c == '\n' || c == '\U{B}' || c == '\U{C}' || c == '\r' || c == ' '
    || c == '\U{A0}' || c == '\U{1680}' || ('\U{2000}' <= c <= '\U{200A}')
    || c == '\U{2028}' || c == '\U{2029}' || c == '\U{202F}' || c == '\U{205F}'
    || c == '\U{3000}' || c == '\U{FEFF}'
  }

  /** `!s.trim()`: nothing but white space is left. */
  predicate IsBlank(s: string)
  {
    forall i :: 0 <= i < |s| ==> IsTrimmed(s[i])
  }

  /**
   * The checks of handleBookTickets, in their order: at least one ticket, no
   * more than are available, then for a guest a name and an email holding an
   * '@', and for a signed-in user an email in the session.
   */
  function Check(f: Fields, details: EventDetails, isAuthenticated: bool, user: Option<Auth.SessionUser>): (r: Option<FormError>)
    ensures r == Some(TooFewTickets) <==> AtMost(f.numberOfTickets, 0)
    ensures r.None? ==> !AtMost(f.numberOfTickets, 0) && !Below(details.availableTickets, f.numberOfTickets)
    ensures r.None? && !isAuthenticated ==> !IsBlank(f.userName) && !IsBlank(f.userEmail) && '@' in f.userEmail
    ensures r.None? && isAuthenticated ==> user.Some? && user.value.email != ""
    ensures r == Some(NotEnoughAvailable(details.availableTickets)) <==>
      !AtMost(f.numberOfTickets, 0) && Below(details.availableTickets, f.numberOfTickets)
    ensures r == Some(MissingName) <==>
      && !AtMost(f.numberOfTickets, 0) && !Below(details.availableTickets, f.numberOfTickets)
      && !isAuthenticated && IsBlank(f.userName)
    ensures r == Some(InvalidEmail) <==>
      && !AtMost(f.numberOfTickets, 0) && !Below(details.availableTickets, f.numberOfTickets)
      && !isAuthenticated && !IsBlank(f.userName) && (IsBlank(f.userEmail) || '@' !in f.userEmail)
    ensures r == Some(SessionEmailMissing) <==>
      && !AtMost(f.numberOfTickets, 0) && !Below(details.availableTickets, f.numberOfTickets)
      && isAuthenticated && (user.None? || user.value.email == "")
  {
    if AtMost(f.numberOfTickets, 0) then Some(TooFewTickets)
    else if Below(details.availableTickets, f.numberOfTickets) then Some(NotEnoughAvailable(details.availableTickets))
    else if !isAuthenticated then
      if IsBlank(f.userName) then Some(MissingName)
      else if IsBlank(f.userEmail) || '@' !in f.userEmail then Some(InvalidEmail)
      else None
    else if user.None? || user.value.email == "" then Some(SessionEmailMissing)
    else None
  }

  /** `eventDetails.price * numberOfTickets`; NaN times anything is NaN. */
  function Amount(price: int, tickets: Count): Count
  {
    match tickets
    case Count(n) => Count(price * n)
    case NaN => NaN
  }

  /**
   * handleBookTickets up to the create-order request: the first failing check,
   * or the body to post. The body carries the form's own name and email: the
   * session email is re-set into the form's state only for a later render.
   */
  function Submit(eventId: Ledger.EventId, f: Fields, details: EventDetails, isAuthenticated: bool, user: Option<Auth.SessionUser>): (r: Result<OrderPayload, FormError>)
    ensures r.Failure? <==> Check(f, details, isAuthenticated, user).Some?
    ensures r.Failure? ==> r.error == Check(f, details, isAuthenticated, user).value
    ensures r.Success? ==>
      && r.value.currency == "INR" && r.value.eventId == eventId
      && r.value.userName == f.userName && r.value.userEmail == f.userEmail
      && r.value.numberOfTickets == f.numberOfTickets
      && (f.numberOfTickets.Count? ==>
            && 1 <= f.numberOfTickets.n <= details.availableTickets
            && r.value.amount == Count(details.price * f.numberOfTickets.n))
      && (f.numberOfTickets.NaN? ==> r.value.amount.NaN?)
  {
    match Check(f, details, isAuthenticated, user)
    case Some(e) => Failure(e)
    case None =>
      Success(OrderPayload(Amount(details.price, f.numberOfTickets), "INR", eventId, f.userName, f.userEmail, f.numberOfTickets))
  }

  /**
   * A ticket count that did not parse passes both numeric checks, and the
   * handler would send it as it is. (The input's `required` attribute keeps
   * the browser from running the handler for an empty field.)
   */
  lemma NaNTicketsPassNumericChecks(eventId: Ledger.EventId, f: Fields, details: EventDetails, user: Option<Auth.SessionUser>)
    requires f.numberOfTickets.NaN?
    requires user.Some? && user.value.email != ""
    ensures Submit(eventId, f, details, true, user).Success?
    ensures Submit(eventId, f, details, true, user).value.numberOfTickets.NaN?
  {
  }

  /**
   * For a signed-in user the email sent is the one in the form, even when it
   * differs from the session's.
   */
  lemma SignedInSendsFormEmail(eventId: Ledger.EventId, f: Fields, details: EventDetails, user: Option<Auth.SessionUser>)
    requires Submit(eventId, f, details, true, user).Success?
    ensures user.Some? && user.value.email != ""
    ensures Submit(eventId, f, details, true, user).value.userEmail == f.userEmail
  {
  }

  /** The server's view of a body whose numbers both parsed. */
  function ToOrderRequest(p: OrderPayload): (r: Option<Payments.OrderRequest>)
    ensures r.Some? <==> p.amount.Count? && p.numberOfTickets.Count?
    ensures r.Some? ==>
      && r.value.eventId == Some(p.eventId) && r.value.amountInPaisa == p.amount.n
      && r.value.numberOfTickets == p.numberOfTickets.n
  {
    if p.amount.Count? && p.numberOfTickets.Count? then
      Some(Payments.OrderRequest(p.amount.n, p.currency, Some(p.eventId), p.userName, p.userEmail, p.numberOfTickets.n))
    else None
  }

  /**
   * The form treats an order as free when the event's price is 0; the server
   * when the amount is 0. For a body that passed the checks and a price that
   * is not negative the two agree.
   */
  lemma {:induction false} FreeBranchesAgree(eventId: Ledger.EventId, f: Fields, details: EventDetails, isAuthenticated: bool, user: Option<Auth.SessionUser>)
    requires details.price >= 0 && f.numberOfTickets.Count?
    requires Submit(eventId, f, details, isAuthenticated, user).Success?
    ensures var req := ToOrderRequest(Submit(eventId, f, details, isAuthenticated, user).value);
      req.Some? && (req.value.amountInPaisa == 0 <==> details.price == 0)
  {
    var n := f.numberOfTickets.n;
    assert n >= 1;
    if details.price > 0 {
      assert details.price * n >= details.price * 1;
    }
  }

  /** What the form does once create-order answered. */
  datatype NextStep =
    | FreeBookingDone
    | OpenCheckout(key: string, amount: int, currency: string, orderId: string, bookingId: Ledger.BookingId)

  /**
   * The branch after create-order: a price of 0 ends with a success message;
   * otherwise the checkout opens with the server's key, amount, currency and
   * order id, and the booking id to verify with afterwards.
   */
  function AfterOrderCreated(details: EventDetails, resp: Payments.PaymentResponse): (r: NextStep)
    ensures r.FreeBookingDone? <==> details.price == 0
    ensures r.OpenCheckout? ==>
      && r.orderId == resp.orderId && r.bookingId == resp.bookingId
      && r.amount == resp.amount && r.key == resp.keyId && r.currency == resp.currency
  {
    if details.price == 0 then FreeBookingDone
    else OpenCheckout(resp.keyId, resp.amount, resp.currency, resp.orderId, resp.bookingId)
  }

  /** The verification request the checkout handler posts. */
  function VerificationFor(step: NextStep, paymentId: string, orderId: string, signature: string): (r: Payments.VerificationRequest)
    requires step.OpenCheckout?
    ensures r.bookingId == Some(step.bookingId)
    ensures r.paymentId == paymentId && r.orderId == orderId && r.signature == signature
  {
    Payments.VerificationRequest(paymentId, orderId, signature, Some(step.bookingId))
  }
}
