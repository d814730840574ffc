/**
 * BookingController: who may read and cancel a booking. An admin may act on
 * any booking; anyone else only on a booking linked to their own registered
 * user. Guest bookings (no linked user) are therefore admin-only.
 */
module BookingApi {
  import opened Common
  import opened Ledger
  import Users
  import BookingServices

  /** The authenticated principal: its username and granted authorities. */
  datatype Caller = Caller(username: string, authorities: set<string>)

  predicate IsAdmin(c: Caller)
  {
    "ROLE_ADMIN" in c.authorities
  }

  /** The caller's user id, when the caller is a registered user. */
  function CallerId(users: seq<Users.User>, c: Caller): Option<UserId>
  {
    Users.UsernameIndex(users, c.username)
  }

  /** `booking.getUser() != null && booking.getUser().getId().equals(currentUser.getId())`. */
  predicate Owns(b: Booking, uid: UserId)
  {
    b.user == Some(uid)
  }

  /** Replies of GET /api/bookings/{id}; an uncaught lookup failure is a server error. */
  datatype ReadReply = Found(booking: Booking) | NotFound | Forbidden | ServerError(error: Users.UserError)

  /**
   * getBookingById. The admin check comes before the caller's user lookup,
   * so an admin reads any booking even without a user row; for anyone else an
   * unknown username escapes as a server error.
   */
  function ReadDecision(bs: map<BookingId, Booking>, users: seq<Users.User>, id: BookingId, c: Caller): (r: ReadReply)
    ensures id !in bs ==> r == NotFound
    ensures id in bs && IsAdmin(c) ==> r == Found(bs[id])
    ensures r.Found? ==> id in bs && r.booking == bs[id]
    ensures r.Found? <==> id in bs && (IsAdmin(c) || (CallerId(users, c).Some? && Owns(bs[id], CallerId(users, c).value)))
    ensures r.Forbidden? <==> id in bs && !IsAdmin(c) && CallerId(users, c).Some? && !Owns(bs[id], CallerId(users, c).value)
    ensures r.ServerError? <==> id in bs && !IsAdmin(c) && CallerId(users, c).None?
  {
    if id !in bs then NotFound
    else
      var b := bs[id];
      if IsAdmin(c) then Found(b)
      else
        match CallerId(users, c)
        case None => ServerError(Users.UserNotFound(c.username))
        case Some(uid) => if Owns(b, uid) then Found(b) else Forbidden
  }

  /** A guest booking is never shown to a non-admin. */
  lemma GuestBookingHiddenFromUsers(bs: map<BookingId, Booking>, users: seq<Users.User>, id: BookingId, c: Caller)
    requires id in bs && bs[id].user.None? && !IsAdmin(c)
    ensures !ReadDecision(bs, users, id, c).Found?
  {
  }

  /**
   * cancelBooking. 404 for an unknown id; the caller's user lookup runs next,
   * inside the try, so an unknown username is a 400 even for an admin; an
   * admin or the owner gets the cancellation (204, or 400 when the service
   * refuses); anyone else gets 403 and nothing changes.
   */
  function CancelOutcome(l: Ledger, users: seq<Users.User>, id: BookingId, c: Caller): (r: (int, Ledger))
    ensures id !in l.bookings ==> r == (404, l)
    ensures id in l.bookings && CallerId(users, c).None? ==> r == (400, l)
    ensures id in l.bookings && CallerId(users, c).Some? && !IsAdmin(c) && !Owns(l.bookings[id], CallerId(users, c).value) ==>
      r == (403, l)
    ensures id in l.bookings && CallerId(users, c).Some? && (IsAdmin(c) || Owns(l.bookings[id], CallerId(users, c).value)) ==>
      && r.1 == Cancel(l, id).after
      && (r.0 == 204 <==> Cancel(l, id).result.Success?)
      && (r.0 != 204 ==> r.0 == 400)
    ensures r.0 == 204 ==> r.1.bookings[id].status == Cancelled
  {
    if id !in l.bookings then (404, l)
    else
      match CallerId(users, c)
      case None => (400, l)
      case Some(uid) =>
        if IsAdmin(c) || Owns(l.bookings[id], uid) then
          var s := Cancel(l, id);
          if s.result.Success? then (204, s.after) else (400, s.after)
        else (403, l)
  }

  /** A successful cancel through the controller returns the booking's tickets to its event. */
  lemma CancelReturnsTickets(l: Ledger, users: seq<Users.User>, id: BookingId, c: Caller)
    requires CancelOutcome(l, users, id, c).0 == 204
    requires id in l.bookings && l.bookings[id].eventId in l.events
    ensures var after := CancelOutcome(l, users, id, c).1;
      var e := l.bookings[id].eventId;
      after.events[e].available == l.events[e].available + l.bookings[id].tickets
  {
  }

  /** GET /api/bookings/my-bookings: the caller's active bookings, or an escaping lookup failure. */
  function MyBookings(bs: map<BookingId, Booking>, users: seq<Users.User>, c: Caller): (r: Result<map<BookingId, Booking>, Users.UserError>)
    ensures r.Failure? <==> CallerId(users, c).None?
    ensures r.Success? ==>
      (forall id :: id in r.value <==> id in bs && Owns(bs[id], CallerId(users, c).value) && HoldsTickets(bs[id].status))
    ensures r.Success? ==> forall id :: id in r.value ==> r.value[id] == bs[id]
  {
    match CallerId(users, c)
    case None => Failure(Users.UserNotFound(c.username))
    case Some(uid) => Success(ActiveBookingsOf(bs, uid))
  }

  class BookingController {
    const service: BookingServices.BookingService
    const users: Users.UserStore

    /**
     * The controller's caller lookups and the service's owner-by-email lookup
     * read one user repository, so a booking's linked user id and the
     * caller's id come from the same table.
     */
    constructor (service: BookingServices.BookingService, users: Users.UserStore)
      requires users == service.users
      ensures this.service == service && this.users == users
      ensures this.users == this.service.users
    {
      this.service := service;
      this.users := users;
    }

    /** GET /api/bookings/{id}. */
    method GetBookingById(id: BookingId, c: Caller) returns (r: ReadReply)
      ensures r == ReadDecision(service.bookings, users.users, id, c)
    {
      var found := service.GetBookingById(id);
      if found.None? {
        return NotFound;
      }
      var booking := found.value;
      if IsAdmin(c) {
        return Found(booking);
      }
      var current := users.FindByUsername(c.username);
      if current.Failure? {
        return ServerError(current.error);
      }
      if booking.user.Some? && booking.user.value == current.value {
        return Found(booking);
      }
      r := Forbidden;
    }

    /** GET /api/bookings/my-bookings. */
    method GetMyBookings(c: Caller) returns (r: Result<map<BookingId, Booking>, Users.UserError>)
      ensures r == MyBookings(service.bookings, users.users, c)
    {
      var current := users.FindByUsername(c.username);
      if current.Failure? {
        return Failure(current.error);
      }
      var list := service.GetBookingsByUserId(current.value);
      r := Success(list);
    }

    /** DELETE /api/bookings/{id}/cancel. */
    method CancelBooking(id: BookingId, c: Caller) returns (status: int)
      requires service.Valid()
      modifies service
      ensures service.Valid() && service.capacity == old(service.capacity)
      ensures (status, service.State()) == CancelOutcome(old(service.State()), users.users, id, c)
    {
      var found := service.GetBookingById(id);
      if found.None? {
        return 404;
      }
      var booking := found.value;
      var current := users.FindByUsername(c.username);
      if current.Failure? {
        return 400;
      }
      if IsAdmin(c) || (booking.user.Some? && booking.user.value == current.value) {
        var cancelled := service.CancelBooking(id);
        if cancelled.Failure? {
          return 400;
        }
        status := 204;
      } else {
        status := 403;
      }
    }
  }
}
