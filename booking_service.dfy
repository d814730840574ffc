/**
 * BookingService: the event and booking tables as fields updated in place.
 * Each method performs the source's steps (look up, check the status or the
 * counter, set the fields, save) and is proved to leave the tables exactly
 * as the corresponding Ledger function says. The class invariant fixes, per
 * event, the sum of its available counter and the tickets its
 * PENDING_PAYMENT and CONFIRMED bookings hold.
 */
module BookingServices {
  import opened Common
  import opened Ledger
  import Users

  class BookingService {
    /** The user repository, consulted to link a booking to a registered owner. */
    const users: Users.UserStore
    var events: map<EventId, Tickets>
    var bookings: map<BookingId, Booking>
    var nextId: BookingId
    /** Per event, available plus held tickets: fixed once the service exists. */
    ghost var capacity: map<EventId, int>

    function State(): Ledger
      reads this
    {
      Ledger(events, bookings, nextId)
    }

    ghost predicate Valid()
      reads this
    {
      && IdsBelowNext(State())
      && capacity.Keys == events.Keys
      && forall e :: e in events ==> Capacity(State(), e) == capacity[e]
    }

    /**
     * A service over the tables already in the database, whose identifiers
     * are below the next one to be handed out; each event's capacity is what
     * those tables hold.
     */
    constructor (users: Users.UserStore, l: Ledger)
      requires IdsBelowNext(l)
      ensures Valid()
      ensures this.users == users && State() == l
      ensures forall e :: e in l.events ==> capacity[e] == Capacity(l, e)
      ensures Sound(l) ==> forall e :: e in l.events ==> capacity[e] == l.events[e].total
    {
      this.users := users;
      events := l.events;
      bookings := l.bookings;
      nextId := l.nextId;
      capacity := map e | e in l.events :: Capacity(l, e);
    }

    /** createPendingBooking. */
    method CreatePendingBooking(eventId: EventId, userName: string, userEmail: string, numberOfTickets: int)
      returns (r: Result<BookingId, LedgerError>)
      requires Valid()
      modifies this
      ensures Valid() && capacity == old(capacity)
      ensures Step(r, State()) == Reserve(old(State()), eventId, userName, userEmail, numberOfTickets, users.FindByEmail(userEmail))
    {
      ghost var before := State();
      ReserveConserves(before, eventId, userName, userEmail, numberOfTickets, users.FindByEmail(userEmail));
      if eventId !in events {
        return Failure(EventNotFound(eventId));
      }
      var event := events[eventId];
      if event.available < numberOfTickets {
        return Failure(NotEnoughTickets);
      }
      events := events[eventId := event.(available := event.available - numberOfTickets)];
      var owner := users.FindByEmail(userEmail);
      var booking := Booking(eventId, owner, userName, userEmail, numberOfTickets, PendingPayment, None);
      var id := nextId;
      bookings := bookings[id := booking];
      nextId := nextId + 1;
      r := Success(id);
    }

    /** confirmBooking; the confirmation email is not part of the model. */
    method ConfirmBooking(bookingId: BookingId, paymentId: string) returns (r: Result<(), LedgerError>)
      requires Valid()
      modifies this
      ensures Valid() && capacity == old(capacity)
      ensures Step(r, State()) == Confirm(old(State()), bookingId, paymentId)
    {
      ConfirmConserves(State(), bookingId, paymentId);
      if bookingId !in bookings {
        return Failure(BookingNotFound(bookingId));
      }
      var booking := bookings[bookingId];
      if booking.status == PendingPayment {
        bookings := bookings[bookingId := booking.(status := Confirmed, paymentId := Some(paymentId))];
        r := Success(());
      } else {
        r := Failure(NotPendingPayment(bookingId));
      }
    }

    /** failBooking. */
    method FailBooking(bookingId: BookingId) returns (r: Result<(), LedgerError>)
      requires Valid()
      modifies this
      ensures Valid() && capacity == old(capacity)
      ensures Step(r, State()) == Fail(old(State()), bookingId)
    {
      FailConserves(State(), bookingId);
      if bookingId !in bookings {
        return Failure(BookingNotFound(bookingId));
      }
      var booking := bookings[bookingId];
      if booking.status == PendingPayment {
        bookings := bookings[bookingId := booking.(status := Failed)];
        ReleaseTickets(booking);
        r := Success(());
      } else {
        r := Failure(CannotFail(bookingId, booking.status));
      }
    }

    /** cancelBooking. */
    method CancelBooking(bookingId: BookingId) returns (r: Result<(), LedgerError>)
      requires Valid()
      modifies this
      ensures Valid() && capacity == old(capacity)
      ensures Step(r, State()) == Cancel(old(State()), bookingId)
    {
      CancelConserves(State(), bookingId);
      if bookingId !in bookings {
        return Failure(BookingNotFound(bookingId));
      }
      var booking := bookings[bookingId];
      if booking.status != Cancelled && booking.status != Failed {
        ReleaseTickets(booking);
        bookings := bookings[bookingId := booking.(status := Cancelled)];
        r := Success(());
      } else {
        r := Failure(CannotCancel(bookingId, booking.status));
      }
    }

    /** Adds a booking's tickets back to its event's counter, when the event row exists. */
    method ReleaseTickets(booking: Booking)
      modifies this`events
      ensures events == ReturnTickets(old(events), booking)
    {
      if booking.eventId in events {
        var event := events[booking.eventId];
        events := events[booking.eventId := event.(available := event.available + booking.tickets)];
      }
    }

    /** getAllBookings: the bookings not CANCELLED or FAILED. */
    method GetAllBookings() returns (r: map<BookingId, Booking>)
      ensures r == ActiveBookings(bookings)
    {
      r := map id | id in bookings && !Excluded(bookings[id].status) :: bookings[id];
    }

    /** getBookingById. */
    method GetBookingById(id: BookingId) returns (r: Option<Booking>)
      ensures r.Some? <==> id in bookings
      ensures r.Some? ==> r.value == bookings[id]
    {
      r := if id in bookings then Some(bookings[id]) else None;
    }

    /** getBookingsByUserId: the caller's bookings not CANCELLED or FAILED. */
    method GetBookingsByUserId(uid: UserId) returns (r: map<BookingId, Booking>)
      ensures r == ActiveBookingsOf(bookings, uid)
    {
      r := map id | id in bookings && bookings[id].user == Some(uid) && !Excluded(bookings[id].status) :: bookings[id];
    }

    /** getBookingsByUserEmail: every booking made with that email, whatever its status. */
    method GetBookingsByUserEmail(email: string) returns (r: map<BookingId, Booking>)
      ensures forall id :: id in r <==> id in bookings && bookings[id].userEmail == email
      ensures forall id :: id in r ==> r[id] == bookings[id]
    {
      r := map id | id in bookings && bookings[id].userEmail == email :: bookings[id];
    }
  }
}
