# Event manager: a Dafny model of booking, payment and access control

This project models the core of an event-booking platform. It has a Spring
backend (Java) and a React client (JavaScript).

- **Ticket ledger.** Each event has a total and an available counter.
  Bookings move between PENDING_PAYMENT, CONFIRMED, CANCELLED and FAILED.
  Reserving takes tickets out of the pool; failing or cancelling a booking
  gives them back.
- **Payment endpoints.** create-order reserves first. It then either
  confirms a free order at once or opens a gateway order. verify confirms
  or fails the booking, depending on the signature verdict.
- **Booking endpoints.** They decide who may read or cancel a booking: an
  admin, or the registered user the booking is linked to.
- **User store.** Registration requires unique usernames and emails, and
  gives each new account exactly one role.
- **JWT request filter.** It puts an authentication into the security
  context.
- **Event entity.** Its ticket counters and pre-persist hook.
- **Client.** The session state (restore, login, logout, role check), the
  two route guards, the booking and event forms' checks and request
  bodies, and the home page carousel's index arithmetic.

The main invariant is about tickets. For every event, its available counter
plus the tickets held by its PENDING_PAYMENT and CONFIRMED bookings never
changes. The service class states it as `Valid()`; every operation is
proved to keep it, through the `*Conserves` lemmas. Code that changes
state in place is modelled as classes:

- `BookingService`, `UserStore`, `Event`, `AuthProvider`, and the
  filter with its security context;
- each method of the service, the store, the provider and the filter is
  proved equal to a pure function, and the properties are proved about
  those functions;
- the Event entity's constructors, setters and pre-persist hook state their
  new fields directly, and its counters are related to the ledger through
  `Event.Counters`.

Calls into code outside this model are parameters. These are the payment
gateway's order call and signature check, token parsing and validation,
and the user-details lookup.

Files:

- `common.dfy`: Option, Result, prefix test, decimal rendering of ids.
- `ledger.dfy`: the booking tables and the four ledger operations.
- `booking_service.dfy`: the service class.
- `user_service.dfy`: the user store.
- `payment_controller.dfy`, `booking_controller.dfy`: the two controllers.
- `event.dfy`: the Event entity.
- `jwt_filter.dfy`: the request filter.
- `auth_context.dfy`: the client session.
- `routes.dfy`: both route guards.
- `booking_form.dfy`, `event_form.dfy`: the two forms.
- `carousel.dfy`: the carousel.

## Model

| member | source | states |
|---|---|---|
| Common.DecimalString | Event_Manager_backend/src/main/java/com/event/controller/PaymentController.java:57 | a booking id's decimal text is non-empty and made only of digits |
| Common.DecimalRoundTrip | Event_Manager_backend/src/main/java/com/event/controller/PaymentController.java:57 | rendering a booking id as decimal text and reading it back gives the id |
| Payments.FreeOrderId | Event_Manager_backend/src/main/java/com/event/controller/PaymentController.java:57 | the free order id is "FREE_" followed by digits that read back as the booking id |
| Payments.Receipt | Event_Manager_backend/src/main/java/com/event/controller/PaymentController.java:65 | the gateway receipt is "receipt_" followed by digits that read back as the booking id |
| Common.PrefixedIdsInjective | Event_Manager_backend/src/main/java/com/event/controller/PaymentController.java:65 | two different booking ids never produce the same "receipt_" or "FREE_" string |
| Ledger.ReturnTickets | Event_Manager_backend/src/main/java/com/event/service/BookingService.java:122-126 | the booking's tickets are added to its own event's available counter; no other event and no total changes; a missing event row changes nothing |
| Ledger.Reserve | Event_Manager_backend/src/main/java/com/event/service/BookingService.java:48-72 | unknown event fails, too few available fails, both with no change; otherwise available drops by exactly n, and one new PENDING_PAYMENT booking holds n tickets, the name, the email and the owner found by email, under a fresh id |
| Ledger.Confirm | Event_Manager_backend/src/main/java/com/event/service/BookingService.java:82-106 | succeeds iff the booking exists and is PENDING_PAYMENT; it becomes CONFIRMED with the payment id, and counters and all other bookings are unchanged; otherwise the matching error and no change |
| Ledger.Fail | Event_Manager_backend/src/main/java/com/event/service/BookingService.java:115-131 | succeeds iff the booking is PENDING_PAYMENT; it becomes FAILED and its tickets return to its event; otherwise the error carries the current status and nothing changes |
| Ledger.Cancel | Event_Manager_backend/src/main/java/com/event/service/BookingService.java:180-202 | succeeds iff the booking exists and is neither CANCELLED nor FAILED; it becomes CANCELLED and its tickets return; otherwise the error and no change |
| Ledger.ActiveBookings | Event_Manager_backend/src/main/java/com/event/service/BookingService.java:138-140 | exactly the bookings whose status is not CANCELLED or FAILED, unchanged |
| Ledger.ActiveBookingsOf | Event_Manager_backend/src/main/java/com/event/service/BookingService.java:169-171 | exactly the active bookings linked to the given user id |
| Ledger.ListingAccountsForHeldTickets | Event_Manager_backend/src/main/java/com/event/service/BookingService.java:34 | the tickets held by the listed (active) bookings equal those held by the whole table, for every event |
| Ledger.ReserveConserves | Event_Manager_backend/src/main/java/com/event/service/BookingService.java:57 | a reservation keeps every event's total and its available-plus-held sum, and keeps ids below the next id |
| Ledger.ConfirmConserves | Event_Manager_backend/src/main/java/com/event/service/BookingService.java:86-89 | confirming keeps every event's available-plus-held sum |
| Ledger.ReleaseConserves | Event_Manager_backend/src/main/java/com/event/service/BookingService.java:189-193 | turning a ticket-holding booking into CANCELLED or FAILED and returning its tickets keeps every sum |
| Ledger.FailConserves | Event_Manager_backend/src/main/java/com/event/service/BookingService.java:119-127 | every fail outcome keeps every event's available-plus-held sum |
| Ledger.CancelConserves | Event_Manager_backend/src/main/java/com/event/service/BookingService.java:185-194 | every cancel outcome keeps every event's available-plus-held sum |
| Ledger.OutOfBoundsRowUnsound | Event_Manager_backend/src/main/java/com/event/bean/Event.java:75-78 | an event row whose counter is negative or above its total rules out a sound ledger |
| Ledger.AddFreshEventKeepsSound | Event_Manager_backend/src/main/java/com/event/bean/Event.java:51-60 | adding a row with every ticket available, under an id no booking refers to, keeps a sound ledger sound |
| Ledger.SoundWithinBounds | Event_Manager_backend/src/main/java/com/event/service/BookingService.java:52-57 | in a sound ledger each available counter lies between 0 and the event's total |
| Ledger.ReserveKeepsSound | Event_Manager_backend/src/main/java/com/event/service/BookingService.java:52-66 | reserving a non-negative count keeps the ledger sound |
| Ledger.NegativeCountInflatesAvailability | Event_Manager_backend/src/main/java/com/event/service/BookingService.java:52-57 | the only guard is available >= n: a negative count is accepted, raises the counter, can push it above the total, and breaks soundness |
| Ledger.FailKeepsSound | Event_Manager_backend/src/main/java/com/event/service/BookingService.java:119-126 | failing keeps a sound ledger sound |
| Ledger.CancelKeepsSound | Event_Manager_backend/src/main/java/com/event/service/BookingService.java:185-193 | cancelling keeps a sound ledger sound |
| Ledger.ConfirmKeepsSound | Event_Manager_backend/src/main/java/com/event/service/BookingService.java:86-89 | confirming keeps a sound ledger sound |
| Ledger.ConfirmTwiceRefused | Event_Manager_backend/src/main/java/com/event/service/BookingService.java:103-105 | a second confirmation of the same booking is refused |
| Ledger.FailedIsFinal | Event_Manager_backend/src/main/java/com/event/service/BookingService.java:128-130 | a FAILED booking can be neither failed again, confirmed nor cancelled |
| Ledger.CancelledIsFinal | Event_Manager_backend/src/main/java/com/event/service/BookingService.java:199-201 | a CANCELLED booking can be neither cancelled again, confirmed nor failed |
| BookingServices.BookingService.constructor | Event_Manager_backend/src/main/java/com/event/service/BookingService.java:20-33 | starts from any tables whose ids are below the next id; the invariant holds, each event's capacity is what those tables hold, and it equals the event's total when the tables are sound |
| BookingServices.BookingService.CreatePendingBooking | Event_Manager_backend/src/main/java/com/event/service/BookingService.java:48-72 | the new tables are Ledger.Reserve of the old ones, with the owner looked up by email; the invariant is kept |
| BookingServices.BookingService.ConfirmBooking | Event_Manager_backend/src/main/java/com/event/service/BookingService.java:82-106 | result and new tables are Ledger.Confirm of the old ones; invariant kept |
| BookingServices.BookingService.FailBooking | Event_Manager_backend/src/main/java/com/event/service/BookingService.java:115-131 | result and new tables are Ledger.Fail of the old ones; invariant kept |
| BookingServices.BookingService.CancelBooking | Event_Manager_backend/src/main/java/com/event/service/BookingService.java:180-202 | result and new tables are Ledger.Cancel of the old ones; invariant kept |
| BookingServices.BookingService.ReleaseTickets | Event_Manager_backend/src/main/java/com/event/service/BookingService.java:186-191 | the event table becomes Ledger.ReturnTickets of the old one |
| BookingServices.BookingService.GetAllBookings | Event_Manager_backend/src/main/java/com/event/service/BookingService.java:138-140 | returns the active bookings |
| BookingServices.BookingService.GetBookingById | Event_Manager_backend/src/main/java/com/event/service/BookingService.java:148-150 | returns the booking iff the id is present |
| BookingServices.BookingService.GetBookingsByUserId | Event_Manager_backend/src/main/java/com/event/service/BookingService.java:169-171 | returns the active bookings of that user |
| BookingServices.BookingService.GetBookingsByUserEmail | Event_Manager_backend/src/main/java/com/event/service/BookingService.java:158-161 | returns every booking made with that email, whatever its status |
| Users.IndexWhere | Event_Manager_backend/src/main/java/com/event/service/UserService.java:30 | the first matching position, or none exactly when no user matches |
| Users.UsernameIndex | Event_Manager_backend/src/main/java/com/event/service/UserService.java:77-80 | a position holding that username, or none iff no user has it |
| Users.EmailIndex | Event_Manager_backend/src/main/java/com/event/service/BookingService.java:69 | a position holding that email, or none iff no user has it |
| Users.UsernameIndexUnique | Event_Manager_backend/src/main/java/com/event/service/UserService.java:77-80 | in a store of distinct usernames the lookup finds the one user with that name |
| Users.Register | Event_Manager_backend/src/main/java/com/event/service/UserService.java:28-50 | a taken username, then a taken email, then a missing role row fail in that order with the store unchanged; success appends one user whose role set is exactly the requested role |
| Users.RegisterKeepsDistinct | Event_Manager_backend/src/main/java/com/event/service/UserService.java:30-35 | registration keeps usernames and emails pairwise distinct |
| Users.UsernameCheckedFirst | Event_Manager_backend/src/main/java/com/event/service/UserService.java:30-35 | a request repeating both a username and an email reports the username |
| Users.UserStore.constructor | Event_Manager_backend/src/main/java/com/event/service/UserService.java:19-23 | an empty store over the given role rows |
| Users.UserStore.RegisterUser | Event_Manager_backend/src/main/java/com/event/service/UserService.java:28-50 | Users.Register with ROLE_USER on the old store; distinctness kept |
| Users.UserStore.RegisterAdmin | Event_Manager_backend/src/main/java/com/event/service/UserService.java:52-74 | Users.Register with ROLE_ADMIN on the old store; distinctness kept |
| Users.UserStore.Save | Event_Manager_backend/src/main/java/com/event/service/UserService.java:37-49 | the shared registration steps equal Users.Register |
| Users.UserStore.FindByUsername | Event_Manager_backend/src/main/java/com/event/service/UserService.java:77-80 | the user with that name, or the not-found error exactly when nobody has it |
| Users.UserStore.FindByEmail | Event_Manager_backend/src/main/java/com/event/service/BookingService.java:69 | the registered user with that email, if any |
| Payments.CreateOrderOutcome | Event_Manager_backend/src/main/java/com/event/controller/PaymentController.java:37-92 | null event id gives 400 with no change; a refused reservation gives 400 with its error and no change; amount 0 confirms the new booking with FREE_EVENT_PAYMENT and replies FREE_<id> with amount 0; otherwise the booking stays pending, and the gateway order (receipt_<id>) gives 200, or its failure gives 400 |
| Payments.FreeDecidedByClientAmount | Event_Manager_backend/src/main/java/com/event/controller/PaymentController.java:40-54 | the same request is confirmed at once with amount 0 and left pending with any other amount, whatever the event's price |
| Payments.CreateOrderConserves | Event_Manager_backend/src/main/java/com/event/controller/PaymentController.java:47-78 | every create-order outcome keeps every event's available-plus-held sum |
| Payments.VerifyOutcome | Event_Manager_backend/src/main/java/com/event/controller/PaymentController.java:94-118 | missing booking id gives 400 with no change; a valid signature confirms (200); an invalid one fails the booking, returning its tickets (400); an exception from either gives 500 |
| Payments.VerifyResolvedBookingFails | Event_Manager_backend/src/main/java/com/event/controller/PaymentController.java:114-117 | verifying a booking no longer PENDING_PAYMENT gives 500 and changes nothing, whatever the verdict |
| Payments.FreeOrderCannotBeVerified | Event_Manager_backend/src/main/java/com/event/controller/PaymentController.java:54-62 | after a free order, verifying its booking gives 500 |
| Payments.VerifyConserves | Event_Manager_backend/src/main/java/com/event/controller/PaymentController.java:107-112 | every verify outcome keeps every event's available-plus-held sum |
| Payments.PaymentController.constructor | Event_Manager_backend/src/main/java/com/event/controller/PaymentController.java:25-35 | the controller holds the given service, gateway calls and key id |
| Payments.PaymentController.CreateOrder | Event_Manager_backend/src/main/java/com/event/controller/PaymentController.java:37-92 | the reply and the new service state are Payments.CreateOrderOutcome of the old state; the invariant is kept |
| Payments.PaymentController.VerifyPayment | Event_Manager_backend/src/main/java/com/event/controller/PaymentController.java:94-118 | the reply and the new service state are Payments.VerifyOutcome of the old state; the invariant is kept |
| BookingApi.ReadDecision | Event_Manager_backend/src/main/java/com/event/controller/BookingController.java:38-66 | unknown id gives 404; an admin reads any booking; others read only a booking linked to their own id, get 403 on any other, and a server error when their username is unknown |
| BookingApi.GuestBookingHiddenFromUsers | Event_Manager_backend/src/main/java/com/event/controller/BookingController.java:61-65 | a booking with no linked user is never shown to a non-admin |
| BookingApi.CancelOutcome | Event_Manager_backend/src/main/java/com/event/controller/BookingController.java:89-117 | unknown id gives 404; an unknown caller gives 400, even an admin; an admin or the owner gets Ledger.Cancel, with 204 iff it succeeds and 400 otherwise; anyone else gets 403 with no change |
| BookingApi.CancelReturnsTickets | Event_Manager_backend/src/main/java/com/event/controller/BookingController.java:106-109 | a 204 cancel returns the booking's tickets to its event |
| BookingApi.MyBookings | Event_Manager_backend/src/main/java/com/event/controller/BookingController.java:69-86 | exactly the caller's active bookings, each with its stored contents; an unknown username escapes as an error |
| BookingApi.BookingController.constructor | Event_Manager_backend/src/main/java/com/event/controller/BookingController.java:22-28 | the controller holds the given service and user store, which must be the store the service looks owners up in |
| BookingApi.BookingController.GetBookingById | Event_Manager_backend/src/main/java/com/event/controller/BookingController.java:38-66 | equals BookingApi.ReadDecision on the current tables |
| BookingApi.BookingController.GetMyBookings | Event_Manager_backend/src/main/java/com/event/controller/BookingController.java:69-86 | equals BookingApi.MyBookings on the current tables |
| BookingApi.BookingController.CancelBooking | Event_Manager_backend/src/main/java/com/event/controller/BookingController.java:89-117 | status and new service state equal BookingApi.CancelOutcome of the old state; invariant kept |
| Events.Event.Empty | Event_Manager_backend/src/main/java/com/event/bean/Event.java:46-48 | the default constructor leaves every counter at 0 |
| Events.Event.constructor | Event_Manager_backend/src/main/java/com/event/bean/Event.java:51-60 | sets every field, with available equal to total |
| Events.Event.SetTotalTickets | Event_Manager_backend/src/main/java/com/event/bean/Event.java:76 | changes only the total, to the given value |
| Events.Event.SetAvailableTickets | Event_Manager_backend/src/main/java/com/event/bean/Event.java:78 | changes only the available counter, to the given value, unchecked |
| Events.Event.SetPrice | Event_Manager_backend/src/main/java/com/event/bean/Event.java:74 | changes only the price |
| Events.Event.PrePersist | Event_Manager_backend/src/main/java/com/event/bean/Event.java:84-89 | a counter at 0 becomes the total; any other counter is left unchanged |
| Events.Event.Counters | Event_Manager_backend/src/main/java/com/event/bean/Event.java:75-78 | the entity's total and available counters become the ledger row's total and available; Events.PersistNewEvent and Events.UncheckedCounters judge that row against Ledger.Sound |
| Events.UncheckedCounters | Event_Manager_backend/src/main/java/com/event/bean/Event.java:63-89 | an event can be saved with its counter above its total or below zero, and either row makes every ledger holding it unsound |
| Events.PersistNewEvent | Event_Manager_backend/src/main/java/com/event/bean/Event.java:51-89 | a constructed and persisted event with a non-negative total has all its tickets available, and its row keeps a sound ledger sound |
| Events.DefaultEventPersisted | Event_Manager_backend/src/main/java/com/event/bean/Event.java:84-89 | a default event given only a total gets all of it as available when persisted |
| JwtFilter.RegisterAdminCoveredByRegister | Event_Manager_backend/src/main/java/com/event/security/JwtRequestFilter.java:43-45 | the register-admin prefix adds nothing: the register prefix covers it |
| JwtFilter.BearerToken | Event_Manager_backend/src/main/java/com/event/security/JwtRequestFilter.java:67-68 | a token exists iff the header starts with "Bearer ", and the header is that prefix followed by the token |
| JwtFilter.BearerRoundTrip | Event_Manager_backend/src/main/java/com/event/security/JwtRequestFilter.java:67-68 | stripping the prefix off "Bearer " + t gives t |
| JwtFilter.ExtractedUsername | Event_Manager_backend/src/main/java/com/event/security/JwtRequestFilter.java:67-88 | no username without a Bearer header or with an empty token; otherwise the token's subject |
| JwtFilter.AuthenticationAfter | Event_Manager_backend/src/main/java/com/event/security/JwtRequestFilter.java:43-108 | public paths and an existing authentication are left alone; a new one is set exactly when a username was extracted, the user loads and the token validates, and it is the loaded user; a throwing validation leaves it as it was |
| JwtFilter.ThrowNeedsBearerToken | Event_Manager_backend/src/main/java/com/event/security/JwtRequestFilter.java:67-104 | validation, the one uncaught throw, is reached only on a non-public path with a non-empty Bearer token and no authentication yet |
| JwtFilter.NoBearerNoAuthentication | Event_Manager_backend/src/main/java/com/event/security/JwtRequestFilter.java:58-61 | a request without a Bearer header never becomes authenticated |
| JwtFilter.SecurityContext.constructor | Event_Manager_backend/src/main/java/com/event/security/JwtRequestFilter.java:94 | a context holding the given authentication |
| JwtFilter.JwtRequestFilter.constructor | Event_Manager_backend/src/main/java/com/event/security/JwtRequestFilter.java:29-33 | the filter holds the given token and user functions |
| JwtFilter.JwtRequestFilter.DoFilterInternal | Event_Manager_backend/src/main/java/com/event/security/JwtRequestFilter.java:35-125 | the chain is called once, except when token validation throws (line 104 is outside any try), when it is not called at all; the context ends as JwtFilter.AuthenticationAfter says |
| Auth.AnyIncluded | event-manager-frontend/src/context/AuthContext.jsx:132 | true iff some required role is in the list |
| Auth.HasRole | event-manager-frontend/src/context/AuthContext.jsx:126-133 | false without a user or a roles array, false for an empty list; otherwise true iff some required role is held |
| Auth.Restore | event-manager-frontend/src/context/AuthContext.jsx:13-41 | no or empty item leaves the state; a parsed user with token, username and roles array is restored and authenticated; anything else is removed and unauthenticated; loading ends |
| Auth.Login | event-manager-frontend/src/context/AuthContext.jsx:67-106 | success stores the reply and authenticates; failure clears storage, unauthenticates and rethrows; loading ends in both |
| Auth.Logout | event-manager-frontend/src/context/AuthContext.jsx:111-119 | storage cleared, no user, unauthenticated, loading untouched |
| Auth.LoginSurvivesReload | event-manager-frontend/src/context/AuthContext.jsx:19-32 | what login stores is restored after a reload iff it has a token, a username and a roles array; otherwise the next load drops it |
| Auth.LogoutSurvivesReload | event-manager-frontend/src/context/AuthContext.jsx:111-114 | after logout a reload starts unauthenticated |
| Auth.AuthProvider.constructor | event-manager-frontend/src/context/AuthContext.jsx:8-10 | no user, unauthenticated, loading |
| Auth.AuthProvider.RestoreSession | event-manager-frontend/src/context/AuthContext.jsx:13-41 | the new state is Auth.Restore of the old one |
| Auth.AuthProvider.LogIn | event-manager-frontend/src/context/AuthContext.jsx:67-106 | result and new state are Auth.Login of the old state |
| Auth.AuthProvider.LogOut | event-manager-frontend/src/context/AuthContext.jsx:111-119 | the new state is Auth.Logout of the old one |
| Auth.AuthProvider.HasRoleNow | event-manager-frontend/src/context/AuthContext.jsx:126-133 | Auth.HasRole of the current user |
| Routes.PrivateRoute | event-manager-frontend/src/components/PrivateRoute.jsx:6-26 | loading iff loading; outlet iff authenticated with a matching role; /unauthorized iff authenticated without one; /login iff not authenticated |
| Routes.ProtectedRoute | event-manager-frontend/src/components/ProtectedRoute.jsx:12-38 | loading first; /login iff not authenticated; "/" iff a role list is given and none matches; outlet iff authenticated and no list or a match |
| Routes.GuardsAdmitTheSameCallers | event-manager-frontend/src/components/ProtectedRoute.jsx:31-37 | with a role list both guards admit the same sessions |
| Routes.EmptyRoleListAdmitsNobody | event-manager-frontend/src/components/ProtectedRoute.jsx:31-34 | an empty role list admits no session to either guard |
| Routes.AdminPagesNeedAdminRole | event-manager-frontend/src/components/PrivateRoute.jsx:15-22 | a page guarded by ['ROLE_ADMIN'] opens iff the session's roles include it |
| Routes.LoggedOutGoesToLogin | event-manager-frontend/src/components/PrivateRoute.jsx:25 | after restore and logout every guarded page redirects to /login |
| Routes.LoginOpensGuardedPages | event-manager-frontend/src/components/PrivateRoute.jsx:15-22 | a login reply holding a listed role opens the page; one without a roles array is sent to /unauthorized |
| BookingForms.Check | event-manager-frontend/src/components/BookingForm.jsx:31-68 | the checks in source order, each error exactly when its check fails and every earlier one passed: a count at most 0, more than available, a blank guest name, a blank or '@'-less guest email, a missing session email |
| BookingForms.Submit | event-manager-frontend/src/components/BookingForm.jsx:31-83 | fails with the first failing check; otherwise a body with INR, the event id, the form's name, email and count, and amount price times count (NaN for a NaN count) |
| BookingForms.NaNTicketsPassNumericChecks | event-manager-frontend/src/components/BookingForm.jsx:31-42 | a count that did not parse passes both numeric checks, and the handler would send it |
| BookingForms.SignedInSendsFormEmail | event-manager-frontend/src/components/BookingForm.jsx:59-80 | for a signed-in user the body carries the form's email, not the session's |
| BookingForms.ToOrderRequest | event-manager-frontend/src/components/BookingForm.jsx:73-83 | the server sees the amount and count as sent, when both parsed |
| BookingForms.FreeBranchesAgree | event-manager-frontend/src/components/BookingForm.jsx:88 | for a non-negative price and a parsed count that passed the checks, the client's price-0 branch and the server's amount-0 branch coincide |
| BookingForms.AfterOrderCreated | event-manager-frontend/src/components/BookingForm.jsx:85-116 | price 0 ends the booking; otherwise the checkout opens with the server's key, amount, currency, order id and booking id |
| BookingForms.VerificationFor | event-manager-frontend/src/components/BookingForm.jsx:121-129 | the verify request carries the gateway's three values and the booking id from create-order |
| EventForms.Truncate | event-manager-frontend/src/components/EventForm.jsx:83 | parseInt of a number: its integer part toward zero |
| EventForms.Check | event-manager-frontend/src/components/EventForm.jsx:61-75 | empty text field, then NaN or negative price, then NaN or below-1 total, first failure wins; passing implies price >= 0 and total >= 1 as read |
| EventForms.Submit | event-manager-frontend/src/components/EventForm.jsx:55-116 | fails with the first failing check and sends nothing; otherwise PUT to the id iff the id is present and non-empty, else POST, with the text fields as entered and the parsed price and total |
| EventForms.NumbersGiveValidBody | event-manager-frontend/src/components/EventForm.jsx:66-85 | when both inputs hold numbers, a body that passed carries a price >= 0 and a whole total >= 1 |
| EventForms.EmptiedPriceSentAsNaN | event-manager-frontend/src/components/EventForm.jsx:66-82 | an emptied price input passes the handler's checks, and the handler would send it as NaN |
| EventForms.EmptyIdCreates | event-manager-frontend/src/components/EventForm.jsx:11 | an empty route id selects POST |
| Carousel.JsRem | event-manager-frontend/src/pages/HomePage.jsx:74 | JavaScript's remainder: in range for a non-negative dividend, never positive for a negative one |
| Carousel.NextSlide | event-manager-frontend/src/pages/HomePage.jsx:73-75 | stays in range; moves to the next index, wrapping from the last to 0 |
| Carousel.PrevSlide | event-manager-frontend/src/pages/HomePage.jsx:77-79 | stays in range; moves to the previous index, wrapping from 0 to the last |
| Carousel.AutoAdvance | event-manager-frontend/src/pages/HomePage.jsx:67-69 | the timer's step equals the next button's |
| Carousel.NextPrevInverse | event-manager-frontend/src/pages/HomePage.jsx:73-79 | previous undoes next and next undoes previous on every index in range |
| Carousel.NextPrevNotInverseBelowZero | event-manager-frontend/src/pages/HomePage.jsx:74-78 | for every negative index, previous after next lands in range and so differs from the start (one round above it from -5 to -1); next keeps -6 to -2 negative |
| Carousel.AdvanceIsRemainder | event-manager-frontend/src/pages/HomePage.jsx:67-69 | k automatic steps from index i land on (i + k) mod 6 |
| Carousel.FullRound | event-manager-frontend/src/pages/HomePage.jsx:13-69 | six automatic steps bring the carousel back to where it started |
| Carousel.GoToSlide | event-manager-frontend/src/pages/HomePage.jsx:81-83 | the clicked dot's index becomes the current slide, whatever the previous one |
| Carousel.GoToSlideIsForwardSteps | event-manager-frontend/src/pages/HomePage.jsx:81-83 | jumping to dot k lands where (k - i) mod 6 forward steps from i would |

## Left out

- BookingForms.FreeBranchesAgree: holds only because prices are whole paisa here. The handler's check at EventForm.jsx:66-70 accepts any non-negative rupee price, such as 0.004. The form's `step="0.01"` input refuses it, so such a price would have to reach the event row some other way than this form. When price × count is below 0.01, the server truncates `amount * 100` to 0 (PaymentController.java:40) and confirms the booking as free, while the client, testing `price === 0` (BookingForm.jsx:88), opens the checkout for the `FREE_` order. The model does not capture that divergence.
- BookingForms.Check, BookingForms.Submit, EventForms.Check and EventForms.Submit model the submit handlers only. The browser's own validation of the inputs runs first and is not modelled. That validation covers `required`, `min`, `max`, `step` and `type="email"` (BookingForm.jsx:217-249, EventForm.jsx:167-245). An input that breaks one of them cancels the submit before the handler runs. So the NaN count and the emptied price that the lemmas show reaching the request are what the handler would do, not what the page lets through.
- EventForms.Truncate: models `parseInt` of a number only below 1e21 in magnitude. Above that, `parseInt` reads the number's exponential text and returns its leading digit. The ticket field starts at 1 and a loaded total is a Java `int`, so the page never holds such a number. EventForms.NumbersGiveValidBody still ranges over every real.
- Money is whole paisa. Floating-point prices, `amount * 100` and its cast to `long`, and `toFixed` are not modelled.
- Java's 32-bit `int` and 64-bit `long` are unbounded integers here. Counter overflow is not modelled.
- The confirmation email is left out. Its failure is caught and does not affect the CONFIRMED transition, which is all the model states.
- The payment gateway's order call and HMAC signature check are parameters. Their network and cryptography are not modelled.
- JWT parsing, signing and expiry are given functions; so is the user-details lookup. Each returns None where the Java code throws. The model does not say when they throw: a token that expires between the two parses, or one without an expiry claim, makes `validateToken` throw.
- Timestamps (booking time, event date/time) are left out. So is date formatting, including the `toISOString` conversion of the event form's date.
- Concurrency and transactions are left out. Each service method runs as one atomic step.
- The Spring Security configuration and the `@PreAuthorize` role checks in front of the booking endpoints are not part of this model. The controllers are modelled from the point where the request reaches them.
- Bean validation is not modelled. The payment endpoints take their bodies without `@Valid`, so the annotations on OrderRequest never run. The register endpoints (AuthController.java:63,73) do validate their RegisterRequest before `Users.Register` runs. RegisterRequest.java is not part of this model, so `Users.Register` accepts any strings, including ones that validation would refuse.
- The password encoder is left out. Stored passwords are whatever the caller passes.
- Event creation and editing on the server (EventService) is not part of this model. Event.java is modelled as an entity only.
- React rendering, the forms' `error`/`loading`/`success` state setters, and messages are left out. A check's result stands for the error shown.
- The carousel's updaters are modelled as functions of the previous index, not as React state.
- JSON encoding is left out: a NaN sent by a form stays NaN in the model, although it travels as null.
- Users are identified by their position in the store. Listings are maps from booking id, so the order of repository results is not modelled.
- Booking rows refer to their event by id. A booking whose event row is missing gives nothing back on fail or cancel, as the source's null check does.
- Ledger.ConfirmTwiceRefused, Ledger.FailedIsFinal, Ledger.CancelledIsFinal: these follow directly from the operations' contracts. They are stated for the reader, not as proof work.
- Auth.SessionUser: an absent field and an empty string are both "", because the client only tests them for truthiness.
- Ledger.Reserve: the ticket count is not required to be positive, as in the source. Ledger.NegativeCountInflatesAvailability shows what a negative count does; only ReserveKeepsSound assumes n >= 0.
