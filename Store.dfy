/** The three regions of the realtime database that the pages share
    (`seats`, `tickets`, `current_ticket`), the writes the pages make to
    them, and the store object they write through. */
module Store {

  datatype Option<T> = None | Some(value: T)

  /** The record under seats/{seatId}; `status` is absent unless someone set it. */
  datatype Seat = Seat(available: bool, status: Option<string>)

  /** The record under tickets/{ticketId}, as the issuing page writes it. */
  datatype Ticket = Ticket(name: string, destination: string, date: string, seatId: string, createdAt: int)

  /** The record under current_ticket. */
  datatype CurrentTicket = CurrentTicket(name: string, ticketId: string, seatId: string)

  /** The whole store as a value. */
  datatype Db = Db(seats: map<string, Seat>, tickets: map<string, Ticket>, current: Option<CurrentTicket>)

  /** What a handler leaves behind: its page's local state and the store. */
  datatype Step<V> = Step(view: V, db: Db)

  /** One store write, named after the path it targets. */
  datatype Write =
    | SetTicket(ticketId: string, ticket: Ticket)       // set tickets/{ticketId}
    | SetSeatAvailable(seatId: string, available: bool) // set seats/{seatId}/available
    | SetSeat(seatId: string, seat: Seat)               // set seats/{seatId}
    | RemoveTickets                                     // remove tickets
    | SetCurrentTicket(current: CurrentTicket)          // set current_ticket
    | RemoveCurrentTicket                               // remove current_ticket

  /** The record a seat's `available` child write leaves: the other fields stay,
      and a missing seat record is created holding only that child. */
  function WithAvailable(seats: map<string, Seat>, seatId: string, available: bool): (s: Seat)
    ensures s.available == available
    ensures s.status == if seatId in seats then seats[seatId].status else None
  {
    if seatId in seats then seats[seatId].(available := available) else Seat(available, None)
  }

  function Apply(d: Db, w: Write): Db
  {
    match w
    case SetTicket(id, t) => d.(tickets := d.tickets[id := t])
    case SetSeatAvailable(id, b) => d.(seats := d.seats[id := WithAvailable(d.seats, id, b)])
    case SetSeat(id, s) => d.(seats := d.seats[id := s])
    case RemoveTickets => d.(tickets := map[])
    case SetCurrentTicket(c) => d.(current := Some(c))
    case RemoveCurrentTicket => d.(current := None)
  }

  /** The store after the writes `ws`, in order. */
  function ApplyAll(d: Db, ws: seq<Write>): Db
    decreases |ws|
  {
    if ws == [] then d else Apply(ApplyAll(d, ws[..|ws| - 1]), ws[|ws| - 1])
  }

  /** The store after a handler attempts the writes `ws` one after the other
      and the write at index `failAt` throws, so that it and every later
      write never happen; `failAt >= |ws|` means no write fails. */
  function Run(d: Db, ws: seq<Write>, failAt: nat): Db
  {
    if failAt < |ws| then ApplyAll(d, ws[..failAt]) else ApplyAll(d, ws)
  }

  lemma ApplyAllSnoc(d: Db, ws: seq<Write>, n: nat)
    requires n < |ws|
    ensures ApplyAll(d, ws[..n + 1]) == Apply(ApplyAll(d, ws[..n]), ws[n])
  {
    assert ws[..n + 1][..n] == ws[..n];
  }

  /** A two-write sequence stops after none, one or both writes. */
  lemma RunTwo(d: Db, w0: Write, w1: Write, failAt: nat)
    ensures Run(d, [w0, w1], failAt) ==
            if failAt == 0 then d else if failAt == 1 then Apply(d, w0) else Apply(Apply(d, w0), w1)
  {
    var ws := [w0, w1];
    assert ws[..0] == [] && ws[..1][..0] == [] && ws[..|ws| - 1] == ws[..1];
    assert ApplyAll(d, ws[..1]) == Apply(d, w0);
  }

  /** A handler that performed the first `done` writes and then either met
      the failing write or ran out of writes has left `Run`'s store. */
  lemma RunStopsAt(d: Db, ws: seq<Write>, failAt: nat, done: nat)
    requires done <= |ws| && done <= failAt
    requires done == failAt || done == |ws|
    ensures Run(d, ws, failAt) == ApplyAll(d, ws[..done])
  {
    if done == |ws| {
      assert ws[..done] == ws;
    }
  }

  /** `keys` lists every key of `s` exactly once, as Object.keys does. */
  predicate Enumerates(keys: seq<string>, s: set<string>)
  {
    && (forall k :: k in keys ==> k in s)
    && (forall k :: k in s ==> k in keys)
    && (forall i, j :: 0 <= i < j < |keys| ==> keys[i] != keys[j])
  }

  /** The database the pages share; each method is one store call. */
  class Database {
    var seats: map<string, Seat>
    var tickets: map<string, Ticket>
    var current: Option<CurrentTicket>

    function State(): Db
      reads this
    {
      Db(seats, tickets, current)
    }

    constructor (initial: Db)
      ensures State() == initial
    {
      seats, tickets, current := initial.seats, initial.tickets, initial.current;
    }

    method Perform(w: Write)
      modifies this
      ensures State() == Apply(old(State()), w)
    {
      match w
      case SetTicket(id, t) => tickets := tickets[id := t];
      case SetSeatAvailable(id, b) => seats := seats[id := WithAvailable(seats, id, b)];
      case SetSeat(id, s) => seats := seats[id := s];
      case RemoveTickets => tickets := map[];
      case SetCurrentTicket(c) => current := Some(c);
      case RemoveCurrentTicket => current := None;
    }
  }
}
