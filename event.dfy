/**
 * The Event entity: plain fields set by its constructors and setters, and a
 * pre-persist hook that fills in the available counter from the total when
 * it was left at 0. Nothing in the entity keeps the counter between 0 and
 * the total.
 */
module Events {
  import opened Common
  import Ledger

  class Event {
    var id: Option<int>
    var title: string
    var description: string
    var dateTime: int        // an instant, as seconds since the epoch
    var location: string
    var price: real
    var totalTickets: int
    var availableTickets: int
    var imageUrl: string

    /** The no-argument constructor JPA uses: every field at its default. */
    constructor Empty()
      ensures id.None? && totalTickets == 0 && availableTickets == 0 && price == 0.0
    {
      id := None;
      title, description, location, imageUrl := "", "", "", "";
      dateTime := 0;
      price := 0.0;
      totalTickets, availableTickets := 0, 0;
    }

    /** The constructor for new events: all tickets start out available. */
    constructor (title: string, description: string, dateTime: int, location: string, price: real, totalTickets: int, imageUrl: string)
      ensures id.None?
      ensures this.title == title && this.description == description && this.dateTime == dateTime
      ensures this.location == location && this.price == price && this.imageUrl == imageUrl
      ensures this.totalTickets == totalTickets && availableTickets == totalTickets
    {
      id := None;
      this.title := title;
      this.description := description;
      this.dateTime := dateTime;
      this.location := location;
      this.price := price;
      this.totalTickets := totalTickets;
      this.availableTickets := totalTickets;
      this.imageUrl := imageUrl;
    }

    method SetTotalTickets(totalTickets: int)
      modifies this`totalTickets
      ensures this.totalTickets == totalTickets
    {
      this.totalTickets := totalTickets;
    }

    method SetAvailableTickets(availableTickets: int)
      modifies this`availableTickets
      ensures this.availableTickets == availableTickets
    {
      this.availableTickets := availableTickets;
    }

    method SetPrice(price: real)
      modifies this`price
      ensures this.price == price
    {
      this.price := price;
    }

    /** `@PrePersist`: a counter left at 0 is taken to be unset and becomes the total. */
    method PrePersist()
      modifies this`availableTickets
      ensures availableTickets == if old(availableTickets) == 0 then totalTickets else old(availableTickets)
      ensures old(availableTickets) != 0 ==> availableTickets == old(availableTickets)
    {
      if availableTickets == 0 {
        availableTickets := totalTickets;
      }
    }

    /**
     * The ticket counters as the booking ledger's event table holds them:
     * the bridge by which the entity's counters are judged against
     * `Ledger.Sound` below.
     */
    function Counters(): (t: Ledger.Tickets)
      reads this
      ensures t.total == totalTickets && t.available == availableTickets
    {
      Ledger.Tickets(totalTickets, availableTickets)
    }
  }

  /**
   * The setters enforce no bound: an event whose counter has been set above
   * its total, or below zero, is accepted as it is, and persisting it keeps
   * the out-of-range counter.
   */
  method UncheckedCounters() returns (over: Event, under: Event)
    ensures fresh(over) && fresh(under)
    ensures over.availableTickets > over.totalTickets
    ensures under.availableTickets < 0
    ensures forall l: Ledger.Ledger, k :: k in l.events && l.events[k] == over.Counters() ==> !Ledger.Sound(l)
    ensures forall l: Ledger.Ledger, k :: k in l.events && l.events[k] == under.Counters() ==> !Ledger.Sound(l)
  {
    over := new Event("Concert", "", 0, "Hall", 10.0, 5, "");
    over.SetAvailableTickets(8);
    over.PrePersist();
    under := new Event("Talk", "", 0, "Room", 0.0, 5, "");
    under.SetAvailableTickets(-3);
    under.PrePersist();
    forall l: Ledger.Ledger, k | k in l.events && (l.events[k] == over.Counters() || l.events[k] == under.Counters())
      ensures !Ledger.Sound(l)
    {
      Ledger.OutOfBoundsRowUnsound(l, k);
    }
  }

  /**
   * A new event built by the full constructor with a total that is not
   * negative, once persisted, has every ticket available; entered under an
   * id no booking refers to, its row keeps a sound booking ledger sound.
   */
  method PersistNewEvent(l: Ledger.Ledger, eid: Ledger.EventId, title: string, location: string, price: real, total: int)
    returns (e: Event)
    requires Ledger.Sound(l) && eid !in l.events && total >= 0
    requires forall k :: k in l.bookings ==> l.bookings[k].eventId != eid
    ensures e.Counters() == Ledger.Tickets(total, total)
    ensures Ledger.Sound(l.(events := l.events[eid := e.Counters()]))
  {
    e := new Event(title, "", 0, location, price, total, "");
    e.PrePersist();
    Ledger.AddFreshEventKeepsSound(l, eid, total);
  }

  /** A default-constructed event given only a total gets all of it as available on persist. */
  method DefaultEventPersisted(total: int) returns (e: Event)
    ensures fresh(e) && e.totalTickets == total && e.availableTickets == total
  {
    e := new Event.Empty();
    e.SetTotalTickets(total);
    e.PrePersist();
  }
}
