/**
 * The booking ledger behind BookingService: an event table holding each
 * event's ticket counters and a booking table, both keyed by identifier.
 *
 * The four lifecycle operations (reserve, confirm, fail, cancel) are stated
 * here as functions from one ledger value to the next; the class
 * BookingService (booking_service.dfy) performs the same steps in place and
 * is proved against them. The central quantity is Capacity: an event's
 * available counter plus the tickets held by its PENDING_PAYMENT and
 * CONFIRMED bookings, which every operation leaves unchanged.
 */
module Ledger {
  import opened Common

  type EventId = int
  type BookingId = nat
  type UserId = nat

  /** The four status strings a booking ever carries. */
  datatype Status = PendingPayment | Confirmed | Cancelled | Failed

  /** The ticket fields of an event row: `totalTickets` and `availableTickets`. */
  datatype Tickets = Tickets(total: int, available: int)

  /**
   * A booking row. `user` is the registered user linked at reservation time
   * (absent for a guest); `paymentId` is set by confirmation.
   */
  datatype Booking = Booking(
    eventId: EventId,
    user: Option<UserId>,
    userName: string,
    userEmail: string,
    tickets: int,
    status: Status,
    paymentId: Option<string>)

  /** The RuntimeExceptions the service throws, one constructor per message. */
  datatype LedgerError =
    | EventNotFound(eventId: EventId)
    | NotEnoughTickets
    | BookingNotFound(bookingId: BookingId)
    | NotPendingPayment(bookingId: BookingId)
    | CannotFail(bookingId: BookingId, status: Status)
    | CannotCancel(bookingId: BookingId, status: Status)

  /** Both tables, and the next identifier the booking table will hand out. */
  datatype Ledger = Ledger(
    events: map<EventId, Tickets>,
    bookings: map<BookingId, Booking>,
    nextId: BookingId)

  /** What an operation returned (or threw), and the ledger afterwards. */
  datatype Step<+T> = Step(result: Result<T, LedgerError>, after: Ledger)

  /** Statuses whose tickets are taken out of the event's pool. */
  predicate HoldsTickets(s: Status)
  {
    s == PendingPayment || s == Confirmed
  }

  /** `EXCLUDED_STATUSES`: the statuses left out of the booking listings. */
  predicate Excluded(s: Status)
  {
    s == Cancelled || s == Failed
  }

  /** Identifiers already handed out are below `nextId`. */
  predicate IdsBelowNext(l: Ledger)
  {
    forall id :: id in l.bookings ==> id < l.nextId
  }

  // ---------------------------------------------------------------------
  // Tickets held per event
  // ---------------------------------------------------------------------

  /** Tickets that booking `b` holds out of event `e`'s pool. */
  function Holding(b: Booking, e: EventId): int
  {
    if b.eventId == e && HoldsTickets(b.status) then b.tickets else 0
  }

  ghost function Pick(keys: set<BookingId>): (k: BookingId)
    requires keys != {}
    ensures k in keys
  {
    var k :| k in keys; k
  }

  /** Sum of Holding over the bookings whose identifiers are in `keys`. */
  ghost function HeldIn(bs: map<BookingId, Booking>, keys: set<BookingId>, e: EventId): int
    requires keys <= bs.Keys
    decreases keys
  {
    if keys == {} then 0
    else
      var k := Pick(keys);
      Holding(bs[k], e) + HeldIn(bs, keys - {k}, e)
  }

  /** Tickets of event `e` held by PENDING_PAYMENT and CONFIRMED bookings. */
  ghost function Held(bs: map<BookingId, Booking>, e: EventId): int
  {
    HeldIn(bs, bs.Keys, e)
  }

  /** Available tickets plus held tickets: what the operations conserve. */
  ghost function Capacity(l: Ledger, e: EventId): int
    requires e in l.events
  {
    l.events[e].available + Held(l.bookings, e)
  }

  /** The sum does not depend on which booking is taken out first. */
  lemma {:induction false} HeldInRemove(bs: map<BookingId, Booking>, keys: set<BookingId>, k: BookingId, e: EventId)
    requires keys <= bs.Keys && k in keys
    ensures HeldIn(bs, keys, e) == Holding(bs[k], e) + HeldIn(bs, keys - {k}, e)
    decreases keys
  {
    var j := Pick(keys);
    if j != k {
      HeldInRemove(bs, keys - {j}, k, e);
      HeldInRemove(bs, keys - {k}, j, e);
      assert keys - {j} - {k} == keys - {k} - {j};
    }
  }

  /** Two tables that agree on what each booking in `keys` holds agree on the sum. */
  lemma {:induction false} HeldInFrame(bs: map<BookingId, Booking>, bs': map<BookingId, Booking>, keys: set<BookingId>, e: EventId)
    requires keys <= bs.Keys && keys <= bs'.Keys
    requires forall k :: k in keys ==> Holding(bs[k], e) == Holding(bs'[k], e)
    ensures HeldIn(bs, keys, e) == HeldIn(bs', keys, e)
    decreases keys
  {
    if keys != {} {
      HeldInFrame(bs, bs', keys - {Pick(keys)}, e);
    }
  }

  /** Writing one booking row changes the held sum by the difference of what the row holds. */
  lemma HeldUpdate(bs: map<BookingId, Booking>, id: BookingId, b: Booking, e: EventId)
    ensures Held(bs[id := b], e) == Held(bs, e) + Holding(b, e) - (if id in bs then Holding(bs[id], e) else 0)
  {
    var bs' := bs[id := b];
    HeldInRemove(bs', bs'.Keys, id, e);
    assert bs'.Keys - {id} == bs.Keys - {id};
    HeldInFrame(bs, bs', bs.Keys - {id}, e);
    if id in bs {
      HeldInRemove(bs, bs.Keys, id, e);
    } else {
      assert bs.Keys - {id} == bs.Keys;
    }
  }

  /** With no negative ticket count in the table, nothing holds a negative amount. */
  lemma {:induction false} HeldInNonNegative(bs: map<BookingId, Booking>, keys: set<BookingId>, e: EventId)
    requires keys <= bs.Keys
    requires forall k :: k in bs ==> bs[k].tickets >= 0
    ensures HeldIn(bs, keys, e) >= 0
    decreases keys
  {
    if keys != {} {
      HeldInNonNegative(bs, keys - {Pick(keys)}, e);
    }
  }

  // ---------------------------------------------------------------------
  // Counter updates
  // ---------------------------------------------------------------------

  /**
   * Gives a booking's tickets back to its event, as fail and cancel do; a
   * booking whose event row is missing changes no counter.
   */
  function ReturnTickets(events: map<EventId, Tickets>, b: Booking): (r: map<EventId, Tickets>)
    ensures r.Keys == events.Keys
    ensures forall e :: e in events && e != b.eventId ==> r[e] == events[e]
    ensures b.eventId in events ==>
      r[b.eventId].total == events[b.eventId].total &&
      r[b.eventId].available == events[b.eventId].available + b.tickets
  {
    if b.eventId in events then
      var t := events[b.eventId];
      events[b.eventId := t.(available := t.available + b.tickets)]
    else events
  }

  // ---------------------------------------------------------------------
  // The four operations
  // ---------------------------------------------------------------------

  /**
   * createPendingBooking: look the event up, refuse when fewer than `n`
   * tickets are available, otherwise take `n` tickets and add a
   * PENDING_PAYMENT booking linked to `owner` (the registered user with that
   * email, if any). The ticket count itself is not checked.
   */
  function Reserve(l: Ledger, eventId: EventId, userName: string, userEmail: string, n: int, owner: Option<UserId>): (r: Step<BookingId>)
    ensures r.result.Failure? ==> r.after == l
    ensures eventId !in l.events ==> r.result == Failure(EventNotFound(eventId))
    ensures eventId in l.events && l.events[eventId].available < n ==> r.result == Failure(NotEnoughTickets)
    ensures r.result.Success? <==> eventId in l.events && l.events[eventId].available >= n
    ensures r.result.Success? ==>
      var id := r.result.value;
      && id == l.nextId && r.after.nextId == id + 1
      && r.after.events.Keys == l.events.Keys
      && r.after.events[eventId].available == l.events[eventId].available - n
      && r.after.events[eventId].total == l.events[eventId].total
      && (forall e :: e in l.events && e != eventId ==> r.after.events[e] == l.events[e])
      && (IdsBelowNext(l) ==> id !in l.bookings)
      && r.after.bookings.Keys == l.bookings.Keys + {id}
      && (forall k :: k in l.bookings && k != id ==> r.after.bookings[k] == l.bookings[k])
      && r.after.bookings[id] == Booking(eventId, owner, userName, userEmail, n, PendingPayment, None)
  {
    if eventId !in l.events then Step(Failure(EventNotFound(eventId)), l)
    else
      var t := l.events[eventId];
      if t.available < n then Step(Failure(NotEnoughTickets), l)
      else
        var id := l.nextId;
        var b := Booking(eventId, owner, userName, userEmail, n, PendingPayment, None);
        Step(Success(id), Ledger(l.events[eventId := t.(available := t.available - n)], l.bookings[id := b], id + 1))
  }

  /**
   * confirmBooking: only a PENDING_PAYMENT booking becomes CONFIRMED, with the
   * payment id recorded; the counters are untouched.
   */
  function Confirm(l: Ledger, id: BookingId, paymentId: string): (r: Step<()>)
    ensures id !in l.bookings ==> r == Step(Failure(BookingNotFound(id)), l)
    ensures id in l.bookings && l.bookings[id].status != PendingPayment ==> r == Step(Failure(NotPendingPayment(id)), l)
    ensures r.result.Success? <==> id in l.bookings && l.bookings[id].status == PendingPayment
    ensures r.result.Success? ==>
      && r.after.events == l.events && r.after.nextId == l.nextId
      && r.after.bookings.Keys == l.bookings.Keys
      && (forall k :: k in l.bookings && k != id ==> r.after.bookings[k] == l.bookings[k])
      && r.after.bookings[id].status == Confirmed
      && r.after.bookings[id].paymentId == Some(paymentId)
      && r.after.bookings[id] == l.bookings[id].(status := Confirmed, paymentId := Some(paymentId))
  {
    if id !in l.bookings then Step(Failure(BookingNotFound(id)), l)
    else
      var b := l.bookings[id];
      if b.status == PendingPayment then
        Step(Success(()), l.(bookings := l.bookings[id := b.(status := Confirmed, paymentId := Some(paymentId))]))
      else Step(Failure(NotPendingPayment(id)), l)
  }

  /**
   * failBooking: only a PENDING_PAYMENT booking becomes FAILED, and its
   * tickets go back to its event.
   */
  function Fail(l: Ledger, id: BookingId): (r: Step<()>)
    ensures id !in l.bookings ==> r == Step(Failure(BookingNotFound(id)), l)
    ensures id in l.bookings && l.bookings[id].status != PendingPayment ==>
      r == Step(Failure(CannotFail(id, l.bookings[id].status)), l)
    ensures r.result.Success? <==> id in l.bookings && l.bookings[id].status == PendingPayment
    ensures r.result.Success? ==>
      && r.after.events == ReturnTickets(l.events, l.bookings[id])
      && r.after.nextId == l.nextId
      && r.after.bookings.Keys == l.bookings.Keys
      && (forall k :: k in l.bookings && k != id ==> r.after.bookings[k] == l.bookings[k])
      && r.after.bookings[id] == l.bookings[id].(status := Failed)
  {
    if id !in l.bookings then Step(Failure(BookingNotFound(id)), l)
    else
      var b := l.bookings[id];
      if b.status == PendingPayment then
        Step(Success(()), Ledger(ReturnTickets(l.events, b), l.bookings[id := b.(status := Failed)], l.nextId))
      else Step(Failure(CannotFail(id, b.status)), l)
  }

  /**
   * cancelBooking: any booking that is not already CANCELLED or FAILED
   * becomes CANCELLED, and its tickets go back to its event.
   */
  function Cancel(l: Ledger, id: BookingId): (r: Step<()>)
    ensures id !in l.bookings ==> r == Step(Failure(BookingNotFound(id)), l)
    ensures id in l.bookings && Excluded(l.bookings[id].status) ==>
      r == Step(Failure(CannotCancel(id, l.bookings[id].status)), l)
    ensures r.result.Success? <==> id in l.bookings && HoldsTickets(l.bookings[id].status)
    ensures r.result.Success? ==>
      && r.after.events == ReturnTickets(l.events, l.bookings[id])
      && r.after.nextId == l.nextId
      && r.after.bookings.Keys == l.bookings.Keys
      && (forall k :: k in l.bookings && k != id ==> r.after.bookings[k] == l.bookings[k])
      && r.after.bookings[id] == l.bookings[id].(status := Cancelled)
  {
    if id !in l.bookings then Step(Failure(BookingNotFound(id)), l)
    else
      var b := l.bookings[id];
      if b.status != Cancelled && b.status != Failed then
        Step(Success(()), Ledger(ReturnTickets(l.events, b), l.bookings[id := b.(status := Cancelled)], l.nextId))
      else Step(Failure(CannotCancel(id, b.status)), l)
  }

  // ---------------------------------------------------------------------
  // Listings
  // ---------------------------------------------------------------------

  /** getAllBookings: every booking whose status is not CANCELLED or FAILED. */
  function ActiveBookings(bs: map<BookingId, Booking>): (r: map<BookingId, Booking>)
    ensures forall id :: id in r <==> id in bs && HoldsTickets(bs[id].status)
    ensures forall id :: id in r ==> r[id] == bs[id]
  {
    map id | id in bs && !Excluded(bs[id].status) :: bs[id]
  }

  /** getBookingsByUserId: the active bookings linked to registered user `uid`. */
  function ActiveBookingsOf(bs: map<BookingId, Booking>, uid: UserId): (r: map<BookingId, Booking>)
    ensures forall id :: id in r <==> id in ActiveBookings(bs) && bs[id].user == Some(uid)
    ensures forall id :: id in r ==> r[id] == bs[id]
  {
    map id | id in bs && bs[id].user == Some(uid) && !Excluded(bs[id].status) :: bs[id]
  }

  lemma {:induction false} HeldInActive(bs: map<BookingId, Booking>, keys: set<BookingId>, e: EventId)
    requires keys <= bs.Keys
    ensures keys * ActiveBookings(bs).Keys <= ActiveBookings(bs).Keys
    ensures HeldIn(bs, keys, e) == HeldIn(ActiveBookings(bs), keys * ActiveBookings(bs).Keys, e)
    decreases keys
  {
    var act := ActiveBookings(bs);
    if keys != {} {
      var j := Pick(keys);
      HeldInActive(bs, keys - {j}, e);
      if j in act {
        HeldInRemove(act, keys * act.Keys, j, e);
        assert keys * act.Keys - {j} == (keys - {j}) * act.Keys;
      } else {
        assert keys * act.Keys == (keys - {j}) * act.Keys;
      }
    }
  }

  /**
   * The admin listing shows exactly the tickets taken out of each event:
   * summing the listed bookings gives the same held count as the whole table.
   */
  lemma ListingAccountsForHeldTickets(bs: map<BookingId, Booking>, e: EventId)
    ensures Held(ActiveBookings(bs), e) == Held(bs, e)
  {
    HeldInActive(bs, bs.Keys, e);
    assert bs.Keys * ActiveBookings(bs).Keys == ActiveBookings(bs).Keys;
  }

  // ---------------------------------------------------------------------
  // Conservation
  // ---------------------------------------------------------------------

  /** Same events with the same totals, and the same capacity for each. */
  ghost predicate Conserves(l: Ledger, l': Ledger)
  {
    && l'.events.Keys == l.events.Keys
    && forall e :: e in l.events ==>
         l'.events[e].total == l.events[e].total && Capacity(l', e) == Capacity(l, e)
  }

  lemma ReserveConserves(l: Ledger, eventId: EventId, userName: string, userEmail: string, n: int, owner: Option<UserId>)
    requires IdsBelowNext(l)
    ensures var r := Reserve(l, eventId, userName, userEmail, n, owner);
      Conserves(l, r.after) && IdsBelowNext(r.after)
  {
    var r := Reserve(l, eventId, userName, userEmail, n, owner);
    if r.result.Success? {
      var id := r.result.value;
      forall e | e in l.events
        ensures Capacity(r.after, e) == Capacity(l, e)
      {
        HeldUpdate(l.bookings, id, r.after.bookings[id], e);
        assert r.after.bookings == l.bookings[id := r.after.bookings[id]];
      }
    }
  }

  lemma ConfirmConserves(l: Ledger, id: BookingId, paymentId: string)
    requires IdsBelowNext(l)
    ensures var r := Confirm(l, id, paymentId);
      Conserves(l, r.after) && IdsBelowNext(r.after)
  {
    var r := Confirm(l, id, paymentId);
    if r.result.Success? {
      forall e | e in l.events
        ensures Capacity(r.after, e) == Capacity(l, e)
      {
        HeldUpdate(l.bookings, id, r.after.bookings[id], e);
        assert r.after.bookings == l.bookings[id := r.after.bookings[id]];
      }
    }
  }

  /** Marking a booking FAILED or CANCELLED and returning its tickets keeps every capacity. */
  lemma ReleaseConserves(l: Ledger, id: BookingId, s: Status)
    requires id in l.bookings && HoldsTickets(l.bookings[id].status) && Excluded(s)
    ensures var b := l.bookings[id];
      Conserves(l, Ledger(ReturnTickets(l.events, b), l.bookings[id := b.(status := s)], l.nextId))
  {
    var b := l.bookings[id];
    var l' := Ledger(ReturnTickets(l.events, b), l.bookings[id := b.(status := s)], l.nextId);
    forall e | e in l.events
      ensures Capacity(l', e) == Capacity(l, e)
    {
      HeldUpdate(l.bookings, id, b.(status := s), e);
    }
  }

  lemma FailConserves(l: Ledger, id: BookingId)
    requires IdsBelowNext(l)
    ensures var r := Fail(l, id);
      Conserves(l, r.after) && IdsBelowNext(r.after)
  {
    if Fail(l, id).result.Success? {
      ReleaseConserves(l, id, Failed);
    }
  }

  lemma CancelConserves(l: Ledger, id: BookingId)
    requires IdsBelowNext(l)
    ensures var r := Cancel(l, id);
      Conserves(l, r.after) && IdsBelowNext(r.after)
  {
    if Cancel(l, id).result.Success? {
      ReleaseConserves(l, id, Cancelled);
    }
  }

  // ---------------------------------------------------------------------
  // Bounds on the counters
  // ---------------------------------------------------------------------

  /**
   * A ledger in which every event's capacity is its total, no counter is
   * negative and no booking has a negative ticket count.
   */
  ghost predicate Sound(l: Ledger)
  {
    && (forall e :: e in l.events ==> 0 <= l.events[e].available && Capacity(l, e) == l.events[e].total)
    && (forall k :: k in l.bookings ==> l.bookings[k].tickets >= 0)
  }

  /** In a sound ledger every counter lies between 0 and its event's total. */
  lemma SoundWithinBounds(l: Ledger, e: EventId)
    requires Sound(l) && e in l.events
    ensures 0 <= l.events[e].available <= l.events[e].total
  {
    HeldInNonNegative(l.bookings, l.bookings.Keys, e);
  }

  /** A row whose counter is negative or above its total cannot sit in a sound ledger. */
  lemma OutOfBoundsRowUnsound(l: Ledger, e: EventId)
    requires e in l.events
    requires l.events[e].available < 0 || l.events[e].available > l.events[e].total
    ensures !Sound(l)
  {
    if forall k :: k in l.bookings ==> l.bookings[k].tickets >= 0 {
      HeldInNonNegative(l.bookings, l.bookings.Keys, e);
    }
  }

  /** Bookings of other events hold nothing of `e`. */
  lemma {:induction false} HeldInUnbooked(bs: map<BookingId, Booking>, keys: set<BookingId>, e: EventId)
    requires keys <= bs.Keys
    requires forall k :: k in keys ==> bs[k].eventId != e
    ensures HeldIn(bs, keys, e) == 0
    decreases keys
  {
    if keys != {} {
      var k := Pick(keys);
      HeldInUnbooked(bs, keys - {k}, e);
    }
  }

  /**
   * A new event row with every ticket available, under an id no booking
   * refers to, keeps a sound ledger sound.
   */
  lemma AddFreshEventKeepsSound(l: Ledger, e: EventId, total: int)
    requires Sound(l) && e !in l.events && total >= 0
    requires forall k :: k in l.bookings ==> l.bookings[k].eventId != e
    ensures Sound(l.(events := l.events[e := Tickets(total, total)]))
  {
    HeldInUnbooked(l.bookings, l.bookings.Keys, e);
  }

  /** A reservation of a non-negative number of tickets keeps the ledger sound. */
  lemma ReserveKeepsSound(l: Ledger, eventId: EventId, userName: string, userEmail: string, n: int, owner: Option<UserId>)
    requires IdsBelowNext(l) && Sound(l) && n >= 0
    ensures Sound(Reserve(l, eventId, userName, userEmail, n, owner).after)
  {
    ReserveConserves(l, eventId, userName, userEmail, n, owner);
  }

  /**
   * Nothing rejects a negative ticket count: on a sound ledger such a
   * reservation succeeds, raises the available counter and leaves a booking
   * with a negative ticket count, so the ledger is no longer sound; on an
   * event with nothing sold yet the counter ends above the event's total.
   */
  lemma NegativeCountInflatesAvailability(l: Ledger, eventId: EventId, userName: string, userEmail: string, n: int, owner: Option<UserId>)
    requires IdsBelowNext(l) && Sound(l) && eventId in l.events && n < 0
    ensures var r := Reserve(l, eventId, userName, userEmail, n, owner);
      && r.result.Success?
      && r.after.events[eventId].available > l.events[eventId].available
      && !Sound(r.after)
      && (l.events[eventId].available == l.events[eventId].total ==>
            r.after.events[eventId].available > r.after.events[eventId].total)
  {
    var r := Reserve(l, eventId, userName, userEmail, n, owner);
    assert r.after.bookings[r.result.value].tickets < 0;
  }

  lemma FailKeepsSound(l: Ledger, id: BookingId)
    requires IdsBelowNext(l) && Sound(l)
    ensures Sound(Fail(l, id).after)
  {
    FailConserves(l, id);
  }

  lemma CancelKeepsSound(l: Ledger, id: BookingId)
    requires IdsBelowNext(l) && Sound(l)
    ensures Sound(Cancel(l, id).after)
  {
    CancelConserves(l, id);
  }

  lemma ConfirmKeepsSound(l: Ledger, id: BookingId, paymentId: string)
    requires IdsBelowNext(l) && Sound(l)
    ensures Sound(Confirm(l, id, paymentId).after)
  {
    ConfirmConserves(l, id, paymentId);
  }

  // ---------------------------------------------------------------------
  // No operation is idempotent
  // ---------------------------------------------------------------------

  /** A second confirmation of the same booking is refused. */
  lemma ConfirmTwiceRefused(l: Ledger, id: BookingId, p1: string, p2: string)
    requires Confirm(l, id, p1).result.Success?
    ensures Confirm(Confirm(l, id, p1).after, id, p2).result == Failure(NotPendingPayment(id))
  {
  }

  /** A failed booking can be neither failed again, confirmed nor cancelled. */
  lemma FailedIsFinal(l: Ledger, id: BookingId, p: string)
    requires Fail(l, id).result.Success?
    ensures var l' := Fail(l, id).after;
      && Fail(l', id).result == Failure(CannotFail(id, Failed))
      && Confirm(l', id, p).result == Failure(NotPendingPayment(id))
      && Cancel(l', id).result == Failure(CannotCancel(id, Failed))
  {
  }

  /** A cancelled booking can be neither cancelled again, confirmed nor failed. */
  lemma CancelledIsFinal(l: Ledger, id: BookingId, p: string)
    requires Cancel(l, id).result.Success?
    ensures var l' := Cancel(l, id).after;
      && Cancel(l', id).result == Failure(CannotCancel(id, Cancelled))
      && Confirm(l', id, p).result == Failure(NotPendingPayment(id))
      && Fail(l', id).result == Failure(CannotFail(id, Cancelled))
  {
  }
}
