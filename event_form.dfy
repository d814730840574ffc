/**
 * EventForm: the admin form that creates or edits an event. On submit it
 * checks the text fields, the price and the ticket total in that order, then
 * builds the event body and sends it with PUT to the event's URL when a
 * route id is present, and with POST otherwise.
 *
 * The number inputs hold either a number (the initial state or a loaded
 * event) or the text typed into them. The checks read a value through
 * `Number()` (behind `isNaN` and `<`), while the body reads it through
 * `parseFloat` and `parseInt`. A field is modelled by both readings.
 */
module EventForms {
  import opened Common

  /** A JavaScript number: finite or NaN. */
  datatype Numeric = Num(value: real) | NaN

  /** A number input as the checks read it (`coerced`) and as the body reads it (`parsed`). */
  datatype Field<T> = Field(coerced: Numeric, parsed: T)

  /**
   * `parseInt` of a number: its integer part, rounded toward zero. This holds
   * below 1e21 in magnitude; `parseInt` reads larger numbers from their
   * exponential text, so they are outside this model. The field starts at 1
   * and a loaded event's total is a Java `int`, so it never holds such a number.
   */
  function Truncate(x: real): (r: int)
    ensures x >= 0.0 ==> r as real <= x < r as real + 1.0
    ensures x < 0.0 ==> r as real - 1.0 < x <= r as real
  {
    if x >= 0.0 then x.Floor else -((-x).Floor)
  }

  /** A price field holding a number: both readings give that number. */
  function PriceNumber(x: real): Field<Numeric>
  {
    Field(Num(x), Num(x))
  }

  /** A ticket field holding a number: `parseInt` truncates it. */
  function TicketsNumber(x: real): Field<Option<int>>
  {
    Field(Num(x), Some(Truncate(x)))
  }

  datatype EventInput = EventInput(
    title: string,
    description: string,
    dateTime: string,
    location: string,
    price: Field<Numeric>,
    totalTickets: Field<Option<int>>,
    imageUrl: string)

  datatype FormError = MissingText | BadPrice | BadTotalTickets

  /** The body sent to the server; NaN becomes null on the wire. */
  datatype EventBody = EventBody(
    title: string,
    description: string,
    dateTime: string,
    location: string,
    price: Numeric,
    totalTickets: Option<int>,
    imageUrl: string)

  datatype Request = Put(id: string, body: EventBody) | Post(body: EventBody)

  /** `isNaN(v) || v < bound`. */
  predicate NaNOrBelow(v: Numeric, bound: real)
  {
    v.NaN? || v.value < bound
  }

  /** The checks of handleSubmit, in their order. */
  function Check(input: EventInput): (r: Option<FormError>)
    ensures r == Some(MissingText) <==>
      input.title == "" || input.description == "" || input.dateTime == "" || input.location == ""
    ensures r == Some(BadPrice) <==>
      r != Some(MissingText) && NaNOrBelow(input.price.coerced, 0.0)
    ensures r == Some(BadTotalTickets) <==>
      r != Some(MissingText) && r != Some(BadPrice) && NaNOrBelow(input.totalTickets.coerced, 1.0)
    ensures r.None? ==> input.price.coerced.Num? && input.price.coerced.value >= 0.0
    ensures r.None? ==> input.totalTickets.coerced.Num? && input.totalTickets.coerced.value >= 1.0
  {
    if input.title == "" || input.description == "" || input.dateTime == "" || input.location == "" then Some(MissingText)
    else if NaNOrBelow(input.price.coerced, 0.0) then Some(BadPrice)
    else if NaNOrBelow(input.totalTickets.coerced, 1.0) then Some(BadTotalTickets)
    else None
  }

  /** `!!id`: a route id that is present and not empty. */
  predicate IsEditMode(id: Option<string>)
  {
    id.Some? && id.value != ""
  }

  /**
   * handleSubmit up to the request: the first failing check, or the request
   * carrying the parsed body, a PUT to the event in edit mode and a POST
   * otherwise.
   */
  function Submit(id: Option<string>, input: EventInput): (r: Result<Request, FormError>)
    ensures r.Failure? <==> Check(input).Some?
    ensures r.Failure? ==> r.error == Check(input).value
    ensures r.Success? ==> (r.value.Put? <==> IsEditMode(id))
    ensures r.Success? && r.value.Put? ==> r.value.id == id.value
    ensures r.Success? ==>
      && r.value.body.title == input.title && r.value.body.description == input.description
      && r.value.body.dateTime == input.dateTime && r.value.body.location == input.location
      && r.value.body.imageUrl == input.imageUrl
      && r.value.body.price == input.price.parsed
      && r.value.body.totalTickets == input.totalTickets.parsed
  {
    match Check(input)
    case Some(e) => Failure(e)
    case None =>
      var body := EventBody(input.title, input.description, input.dateTime, input.location,
                            input.price.parsed, input.totalTickets.parsed, input.imageUrl);
      if IsEditMode(id) then Success(Put(id.value, body)) else Success(Post(body))
  }

  /**
   * When both number inputs hold numbers, a body that passed the checks has
   * a price of at least 0 and a whole ticket total of at least 1.
   */
  lemma {:induction false} NumbersGiveValidBody(id: Option<string>, input: EventInput, price: real, total: real)
    requires input.price == PriceNumber(price) && input.totalTickets == TicketsNumber(total)
    requires Submit(id, input).Success?
    ensures Submit(id, input).value.body.price.Num? && Submit(id, input).value.body.price.value >= 0.0
    ensures Submit(id, input).value.body.totalTickets.Some? && Submit(id, input).value.body.totalTickets.value >= 1
  {
    assert Check(input).None?;
    assert total >= 1.0;
    assert Truncate(total) as real > total - 1.0;
  }

  /**
   * The checks and the body read the inputs differently: an emptied price
   * input reads as 0 to `Number()` and so passes, while `parseFloat` makes
   * it NaN, which the handler would put in the body. (The input's `required`
   * attribute keeps the browser from running the handler for an empty field.)
   */
  lemma EmptiedPriceSentAsNaN(id: Option<string>, input: EventInput)
    requires input.title != "" && input.description != "" && input.dateTime != "" && input.location != ""
    requires input.price == Field(Num(0.0), NaN)
    requires input.totalTickets.coerced.Num? && input.totalTickets.coerced.value >= 1.0
    ensures Submit(id, input).Success? && Submit(id, input).value.body.price.NaN?
  {
  }

  /** A route id of "" counts as no id: the form creates a new event. */
  lemma EmptyIdCreates(input: EventInput)
    requires Check(input).None?
    ensures Submit(Some(""), input).Success? && Submit(Some(""), input).value.Post?
  {
  }
}
