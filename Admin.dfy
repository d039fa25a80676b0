/** The admin dashboard: the two live listeners that turn the `tickets` and
    `seats` regions into table rows, and the reset handler that releases
    every seat, removes every ticket and clears the current-ticket slot. */
module Admin {
  import opened Store

  const MsgResetFailed := "Failed to reset the system. Please try again."

  /** The record a reset writes to each seat: exactly `{available: true}`. */
  const Vacant := Seat(true, None)

  /** A row of the tickets table: the key, then the record's own fields. */
  datatype TicketRow = TicketRow(ticketId: string, ticket: Ticket)

  /** A row of the seats table. */
  datatype SeatRow = SeatRow(seatId: string, available: bool, status: Option<string>)

  /** The page's local state. */
  datatype Dashboard = Dashboard(
    tickets: seq<TicketRow>,
    seats: seq<SeatRow>,
    error: Option<string>,
    isResetting: bool,
    resetSuccess: bool)

  /** `Object.keys(tickets).map(...)`, keys taken in the order `keys` gives. */
  function TicketRows(tickets: map<string, Ticket>, keys: seq<string>): seq<TicketRow>
    requires forall k :: k in keys ==> k in tickets
  {
    seq(|keys|, i requires 0 <= i < |keys| => TicketRow(keys[i], tickets[keys[i]]))
  }

  /** `Object.keys(seats).map(...)`, keeping `available` and `status`. */
  function SeatRows(seats: map<string, Seat>, keys: seq<string>): seq<SeatRow>
    requires forall k :: k in keys ==> k in seats
  {
    seq(|keys|, i requires 0 <= i < |keys| => SeatRow(keys[i], seats[keys[i]].available, seats[keys[i]].status))
  }

  /** Reads a tickets table back into the map it shows. */
  function TicketsOf(rows: seq<TicketRow>): map<string, Ticket>
    decreases |rows|
  {
    if rows == [] then map[]
    else TicketsOf(rows[..|rows| - 1])[rows[|rows| - 1].ticketId := rows[|rows| - 1].ticket]
  }

  /** Reads a seats table back into the map it shows. */
  function SeatsOf(rows: seq<SeatRow>): map<string, Seat>
    decreases |rows|
  {
    if rows == [] then map[]
    else
      var last := rows[|rows| - 1];
      SeatsOf(rows[..|rows| - 1])[last.seatId := Seat(last.available, last.status)]
  }

  lemma {:induction false} TicketsOfRows(tickets: map<string, Ticket>, keys: seq<string>)
    requires forall k :: k in keys ==> k in tickets
    ensures TicketsOf(TicketRows(tickets, keys)) == map k | k in keys :: tickets[k]
    decreases |keys|
  {
    if keys != [] {
      var front := keys[..|keys| - 1];
      assert TicketRows(tickets, keys)[..|keys| - 1] == TicketRows(tickets, front);
      TicketsOfRows(tickets, front);
      assert forall k :: k in keys <==> k in front || k == keys[|keys| - 1];
    }
  }

  lemma {:induction false} SeatsOfRows(seats: map<string, Seat>, keys: seq<string>)
    requires forall k :: k in keys ==> k in seats
    ensures SeatsOf(SeatRows(seats, keys)) == map k | k in keys :: seats[k]
    decreases |keys|
  {
    if keys != [] {
      var front := keys[..|keys| - 1];
      assert SeatRows(seats, keys)[..|keys| - 1] == SeatRows(seats, front);
      SeatsOfRows(seats, front);
      assert forall k :: k in keys <==> k in front || k == keys[|keys| - 1];
    }
  }

  /** The tickets table holds one row per ticket, keyed by its ID, and loses
      nothing: reading it back gives the `tickets` region. */
  lemma TicketTableFaithful(tickets: map<string, Ticket>, keys: seq<string>)
    requires Enumerates(keys, tickets.Keys)
    ensures var rows := TicketRows(tickets, keys);
      && TicketsOf(rows) == tickets
      && (forall i, j :: 0 <= i < j < |rows| ==> rows[i].ticketId != rows[j].ticketId)
      && (tickets == map[] ==> rows == [])
  {
    TicketsOfRows(tickets, keys);
    if keys != [] {
      assert keys[0] in tickets;
    }
  }

  /** The seats table holds one row per seat carrying its `available` and
      `status`, and reading it back gives the `seats` region. */
  lemma SeatTableFaithful(seats: map<string, Seat>, keys: seq<string>)
    requires Enumerates(keys, seats.Keys)
    ensures var rows := SeatRows(seats, keys);
      && SeatsOf(rows) == seats
      && (forall i, j :: 0 <= i < j < |rows| ==> rows[i].seatId != rows[j].seatId)
      && (seats == map[] ==> rows == [])
  {
    SeatsOfRows(seats, keys);
    if keys != [] {
      assert keys[0] in seats;
    }
  }

  /** One whole-record write per seat, in key order. */
  function SeatResets(keys: seq<string>): seq<Write>
  {
    seq(|keys|, i requires 0 <= i < |keys| => SetSeat(keys[i], Vacant))
  }

  /** The writes of a reset, in the order the handler awaits them. */
  function ResetWrites(keys: seq<string>): seq<Write>
  {
    SeatResets(keys) + [RemoveTickets, RemoveCurrentTicket]
  }

  /** Every seat of `seats`, rewritten to `{available: true}`. */
  function Released(seats: map<string, Seat>): map<string, Seat>
  {
    map k | k in seats :: Vacant
  }

  /** The reset handler. `keys` is the order of the seats read at its start;
      store writes stop at `failAt`. The call to the undefined `fetchTickets`
      after the writes always throws, so a confirmed reset always ends
      with the failure message. */
  function Reset(v: Dashboard, d: Db, confirmed: bool, keys: seq<string>, failAt: nat): (r: Step<Dashboard>)
    requires Enumerates(keys, d.seats.Keys)
    ensures !confirmed ==> r == Step(v, d)
    ensures confirmed ==> r.view == v.(error := Some(MsgResetFailed), isResetting := false, resetSuccess := false)
  {
    if !confirmed then Step(v, d)
    else Step(v.(isResetting := false, error := Some(MsgResetFailed), resetSuccess := false),
              Run(d, ResetWrites(keys), failAt))
  }

  /** `seats` after a whole-record `{available: true}` write to each seat listed in `ks`. */
  function ReleaseKeys(seats: map<string, Seat>, ks: seq<string>): (r: map<string, Seat>)
    ensures r.Keys == seats.Keys + (set k | k in ks)
    ensures forall k :: k in r ==> r[k] == if k in ks then Vacant else seats[k]
    decreases |ks|
  {
    if ks == [] then seats
    else
      var front, last := ks[..|ks| - 1], ks[|ks| - 1];
      assert forall k :: k in ks <==> k in front || k == last;
      ReleaseKeys(seats, front)[last := Vacant]
  }

  lemma {:induction false} SeatResetsPrefix(d: Db, keys: seq<string>, n: nat)
    requires n <= |keys|
    ensures ApplyAll(d, SeatResets(keys)[..n]) == d.(seats := ReleaseKeys(d.seats, keys[..n]))
  {
    var ws := SeatResets(keys);
    if n == 0 {
      assert ws[..0] == [] && keys[..0] == [];
    } else {
      SeatResetsPrefix(d, keys, n - 1);
      ApplyAllSnoc(d, ws, n - 1);
      assert keys[..n][..n - 1] == keys[..n - 1];
    }
  }

  /** Writing every listed seat releases all of them. */
  lemma ReleaseAllKeys(seats: map<string, Seat>, keys: seq<string>)
    requires Enumerates(keys, seats.Keys)
    ensures ReleaseKeys(seats, keys) == Released(seats)
  {
    var r := ReleaseKeys(seats, keys);
    assert r.Keys == seats.Keys;
  }

  lemma ResetStopsInSeats(d: Db, keys: seq<string>, failAt: nat)
    requires failAt <= |keys|
    ensures Run(d, ResetWrites(keys), failAt) == d.(seats := ReleaseKeys(d.seats, keys[..failAt]))
  {
    var ws := ResetWrites(keys);
    assert ws[..failAt] == SeatResets(keys)[..failAt];
    SeatResetsPrefix(d, keys, failAt);
  }

  lemma ResetPassesSeats(d: Db, keys: seq<string>, failAt: nat)
    requires Enumerates(keys, d.seats.Keys)
    requires failAt > |keys|
    ensures var d' := Run(d, ResetWrites(keys), failAt);
      && (failAt == |keys| + 1 ==> d' == Db(Released(d.seats), map[], d.current))
      && (failAt >= |keys| + 2 ==> d' == Db(Released(d.seats), map[], None))
  {
    var ws := ResetWrites(keys);
    var n := |keys|;
    SeatResetsPrefix(d, keys, n);
    assert ws[..n] == SeatResets(keys)[..n];
    assert keys[..n] == keys;
    ReleaseAllKeys(d.seats, keys);
    ApplyAllSnoc(d, ws, n);
    ApplyAllSnoc(d, ws, n + 1);
    assert ws[..n + 2] == ws;
  }

  /** What a confirmed reset leaves in the store, by how far its writes got:
      a failure during the seat writes leaves the seats written so far
      released and the tickets and the slot as they were; after all writes,
      every seat is exactly `{available: true}`, no ticket remains and the
      slot is empty. The set of seat IDs never changes. */
  lemma ResetStoreEffect(d: Db, keys: seq<string>, failAt: nat)
    requires Enumerates(keys, d.seats.Keys)
    ensures var d' := Run(d, ResetWrites(keys), failAt);
      && d'.seats.Keys == d.seats.Keys
      && (failAt <= |keys| ==> d' == d.(seats := ReleaseKeys(d.seats, keys[..failAt])))
      && (failAt == |keys| + 1 ==> d' == Db(Released(d.seats), map[], d.current))
      && (failAt >= |keys| + 2 ==> d' == Db(Released(d.seats), map[], None))
  {
    if failAt <= |keys| {
      ResetStopsInSeats(d, keys, failAt);
    } else {
      ResetPassesSeats(d, keys, failAt);
    }
  }

  /** A completed reset run again, over whatever key order the second read
      gives, leaves the store as the first one left it. */
  lemma ResetIdempotent(d: Db, keys: seq<string>, keys': seq<string>, failAt: nat, failAt': nat)
    requires Enumerates(keys, d.seats.Keys)
    requires failAt >= |ResetWrites(keys)|
    requires Enumerates(keys', Run(d, ResetWrites(keys), failAt).seats.Keys)
    requires failAt' >= |ResetWrites(keys')|
    ensures var once := Run(d, ResetWrites(keys), failAt);
      Run(once, ResetWrites(keys'), failAt') == once
  {
    ResetStoreEffect(d, keys, failAt);
    var once := Run(d, ResetWrites(keys), failAt);
    ResetStoreEffect(once, keys', failAt');
    assert Released(Released(d.seats)) == Released(d.seats);
  }

  class AdminPage {
    const db: Database
    var tickets: seq<TicketRow>
    var seats: seq<SeatRow>
    var error: Option<string>
    var isResetting: bool
    var resetSuccess: bool

    function View(): Dashboard
      reads this
    {
      Dashboard(tickets, seats, error, isResetting, resetSuccess)
    }

    constructor (db: Database)
      ensures this.db == db
      ensures View() == Dashboard([], [], None, false, false)
    {
      this.db := db;
      tickets, seats := [], [];
      error, isResetting, resetSuccess := None, false, false;
    }

    /** The `tickets` listener; an absent region gives the empty table. */
    method OnTicketsValue(keys: seq<string>)
      requires Enumerates(keys, db.tickets.Keys)
      modifies this
      ensures View() == old(View()).(tickets := TicketRows(db.tickets, keys))
    {
      if db.tickets != map[] {
        tickets := TicketRows(db.tickets, keys);
      } else {
        TicketTableFaithful(db.tickets, keys);
        tickets := [];
      }
    }

    /** The `seats` listener; an absent region gives the empty table. */
    method OnSeatsValue(keys: seq<string>)
      requires Enumerates(keys, db.seats.Keys)
      modifies this
      ensures View() == old(View()).(seats := SeatRows(db.seats, keys))
    {
      if db.seats != map[] {
        seats := SeatRows(db.seats, keys);
      } else {
        SeatTableFaithful(db.seats, keys);
        seats := [];
      }
    }

    /** The write `w`, which is write number `done` of `ws`, unless the
        store throws there. */
    method Attempt(w: Write, done: nat, failAt: nat, ghost d0: Db, ghost ws: seq<Write>)
      returns (next: nat, failed: bool)
      requires done < |ws| && ws[done] == w && done <= failAt
      requires db.State() == ApplyAll(d0, ws[..done])
      modifies db
      ensures failed == (done == failAt)
      ensures next == if failed then done else done + 1
      ensures db.State() == ApplyAll(d0, ws[..next])
    {
      if done == failAt {
        return done, true;
      }
      ApplyAllSnoc(d0, ws, done);
      db.Perform(w);
      return done + 1, false;
    }

    method HandleReset(confirmed: bool, keys: seq<string>, failAt: nat)
      requires Enumerates(keys, db.seats.Keys)
      modifies this, db
      ensures Step(View(), db.State()) == Reset(old(View()), old(db.State()), confirmed, keys, failAt)
    {
      if !confirmed {
        return;
      }
      isResetting := true;
      error := None;
      resetSuccess := false;

      ghost var d0 := db.State();
      ghost var ws := ResetWrites(keys);
      var done: nat := 0;
      var failed := false;
      if |keys| > 0 {
        while done < |keys| && !failed
          invariant done <= |keys| && done <= failAt
          invariant failed ==> done == failAt
          invariant db.State() == ApplyAll(d0, ws[..done])
          modifies db
          decreases |keys| - done, !failed
        {
          done, failed := Attempt(SetSeat(keys[done], Vacant), done, failAt, d0, ws);
        }
      }
      if !failed {
        done, failed := Attempt(RemoveTickets, done, failAt, d0, ws);
      }
      if !failed {
        done, failed := Attempt(RemoveCurrentTicket, done, failAt, d0, ws);
      }
      RunStopsAt(d0, ws, failAt, done);
      // `fetchTickets` is not defined in this page, so the call throws here.
      error := Some(MsgResetFailed);
      isResetting := false;
    }
  }
}
