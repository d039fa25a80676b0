/** The ticket-issuing page: its form, the seat snapshot it loads once when
    it mounts, and the submit handler that validates the form, writes the
    ticket record and then marks the seat taken. */
module Generator {
  import opened Store

  const MsgMissingFields := "Please fill in all fields and select a seat."
  const MsgPastDate := "Please select a date that is not in the past."
  const MsgSeatUnavailable := "The selected seat is not available."
  const MsgCreateFailed := "Failed to create the ticket."
  const MsgLoadFailed := "Failed to load seat availability."

  /** The form object: a field absent from the map is `undefined`. */
  type Form = map<string, string>

  const InitialForm: Form := map["name" := "", "destination" := "", "date" := "", "seatId" := ""]

  /** The object the page stores after a successful issue: it names `phone`,
      a field this form does not have, and has no `destination` or `date`. */
  const ClearedForm: Form := map["name" := "", "phone" := "", "seatId" := ""]

  /** JavaScript truthiness of a form field: present and not the empty string. */
  predicate Filled(f: Form, field: string)
  {
    field in f && f[field] != ""
  }

  predicate Complete(f: Form)
  {
    Filled(f, "name") && Filled(f, "destination") && Filled(f, "date") && Filled(f, "seatId")
  }

  /** `parsedDay` is the day number the browser parses the date field to, or
      None for an Invalid Date, which compares false against anything. Today's
      date is truncated to midnight, so only an earlier day is in the past. */
  predicate InPast(parsedDay: Option<int>, today: int)
  {
    parsedDay.Some? && parsedDay.value < today
  }

  /** `seats[seatId]` is truthy: the seat is in the snapshot and marked available. */
  predicate SeatOpen(snapshot: map<string, bool>, seatId: string)
  {
    seatId in snapshot && snapshot[seatId]
  }

  /** The page's local state. `seats` is the availability snapshot. */
  datatype GeneratorState = GeneratorState(
    form: Form,
    seats: map<string, bool>,
    isGenerating: bool,
    qrValue: string,
    error: string,
    ticketDetails: Option<Ticket>)

  predicate Passes(v: GeneratorState, parsedDay: Option<int>, today: int)
  {
    Complete(v.form) && !InPast(parsedDay, today) && SeatOpen(v.seats, v.form["seatId"])
  }

  function TicketOf(f: Form, now: int): Ticket
    requires Complete(f)
  {
    Ticket(f["name"], f["destination"], f["date"], f["seatId"], now)
  }

  /** The two writes of a successful issue, in the order the page awaits them. */
  function IssueWrites(ticketId: string, t: Ticket): seq<Write>
  {
    [SetTicket(ticketId, t), SetSeatAvailable(t.seatId, false)]
  }

  /** Each seat's `available` flag, keyed by seat ID. */
  function Availability(seats: map<string, Seat>): map<string, bool>
  {
    map k | k in seats :: seats[k].available
  }

  /** The mount-time loader: a read failure only sets the error; an empty
      `seats` region (a snapshot that does not exist) leaves the snapshot as it was. */
  function LoadSeats(v: GeneratorState, d: Db, readFails: bool): (r: GeneratorState)
    ensures readFails ==> r == v.(error := MsgLoadFailed)
    ensures !readFails && d.seats == map[] ==> r == v
    ensures !readFails && d.seats != map[] ==> r == v.(seats := r.seats)
    ensures !readFails && d.seats != map[] ==>
      r.seats.Keys == d.seats.Keys && forall k :: k in r.seats ==> r.seats[k] == d.seats[k].available
    ensures !readFails && d.seats != map[] ==>
      forall s :: SeatOpen(r.seats, s) <==> s in d.seats && d.seats[s].available
  {
    if readFails then v.(error := MsgLoadFailed)
    else if d.seats != map[] then v.(seats := Availability(d.seats))
    else v
  }

  /** The submit handler: three validations that write nothing, then the
      ticket write and the seat flip, then the page update. */
  function Submit(v: GeneratorState, d: Db, parsedDay: Option<int>, today: int, now: int, ticketId: string, failAt: nat)
    : (r: Step<GeneratorState>)
    ensures r.view.seats == v.seats
    ensures !Complete(v.form) ==> r == Step(v.(error := MsgMissingFields), d)
    ensures Complete(v.form) && InPast(parsedDay, today) ==> r == Step(v.(error := MsgPastDate), d)
    ensures Complete(v.form) && !InPast(parsedDay, today) && !SeatOpen(v.seats, v.form["seatId"]) ==>
      r == Step(v.(error := MsgSeatUnavailable), d)
    ensures Passes(v, parsedDay, today) ==> !r.view.isGenerating
    ensures Passes(v, parsedDay, today) && failAt == 0 ==>
      r == Step(v.(isGenerating := false, error := MsgCreateFailed), d)
    ensures Passes(v, parsedDay, today) && failAt == 1 ==>
      r == Step(v.(isGenerating := false, error := MsgCreateFailed),
                d.(tickets := d.tickets[ticketId := TicketOf(v.form, now)]))
    ensures Passes(v, parsedDay, today) && failAt >= 2 ==>
      var t, seat := TicketOf(v.form, now), v.form["seatId"];
      && r.db.tickets == d.tickets[ticketId := t]
      && seat in r.db.seats && !r.db.seats[seat].available
      && r.db.seats[seat] == WithAvailable(d.seats, seat, false)
      && r.db.seats - {seat} == d.seats - {seat}
      && r.db.current == d.current
      && r.view == v.(isGenerating := false, error := "", qrValue := ticketId,
                      ticketDetails := Some(t), form := ClearedForm)
  {
    var f := v.form;
    if !Complete(f) then Step(v.(error := MsgMissingFields), d)
    else if InPast(parsedDay, today) then Step(v.(error := MsgPastDate), d)
    else if !SeatOpen(v.seats, f["seatId"]) then Step(v.(error := MsgSeatUnavailable), d)
    else
      var t := TicketOf(f, now);
      var ws := IssueWrites(ticketId, t);
      RunTwo(d, ws[0], ws[1], failAt);
      var d' := Run(d, ws, failAt);
      if failAt < |ws| then Step(v.(isGenerating := false, error := MsgCreateFailed), d')
      else Step(v.(isGenerating := false, error := "", qrValue := ticketId,
                   ticketDetails := Some(t), form := ClearedForm), d')
  }

  /** Builds the snapshot one seat at a time, as the loader's loop does. */
  method FormatAvailability(seatsData: map<string, Seat>) returns (formatted: map<string, bool>)
    ensures formatted.Keys == seatsData.Keys
    ensures forall k :: k in formatted ==> formatted[k] == seatsData[k].available
    ensures formatted == Availability(seatsData)
  {
    formatted := map[];
    var pending := seatsData.Keys;
    while pending != {}
      invariant pending <= seatsData.Keys
      invariant formatted.Keys == seatsData.Keys - pending
      invariant forall k :: k in formatted ==> formatted[k] == seatsData[k].available
      decreases pending
    {
      var k :| k in pending;
      formatted := formatted[k := seatsData[k].available];
      pending := pending - {k};
    }
  }

  class GeneratorPage {
    const db: Database
    var form: Form
    var seats: map<string, bool>
    var isGenerating: bool
    var qrValue: string
    var error: string
    var ticketDetails: Option<Ticket>

    function View(): GeneratorState
      reads this
    {
      GeneratorState(form, seats, isGenerating, qrValue, error, ticketDetails)
    }

    constructor (db: Database)
      ensures this.db == db
      ensures View() == GeneratorState(InitialForm, map[], false, "", "", None)
    {
      this.db := db;
      form, seats, isGenerating := InitialForm, map[], false;
      qrValue, error, ticketDetails := "", "", None;
    }

    /** The mount effect: reads `seats` once and keeps only each `available` flag. */
    method FetchSeatAvailability(readFails: bool)
      modifies this
      ensures View() == LoadSeats(old(View()), db.State(), readFails)
    {
      if readFails {
        error := MsgLoadFailed;
      } else if db.seats != map[] {
        var formatted := FormatAvailability(db.seats);
        seats := formatted;
      }
    }

    method HandleChange(field: string, value: string)
      modifies this
      ensures View() == old(View()).(form := old(form)[field := value])
    {
      form := form[field := value];
    }

    method HandleSeatSelection(seatId: string)
      modifies this
      ensures View() == old(View()).(form := old(form)["seatId" := seatId])
    {
      form := form["seatId" := seatId];
    }

    /** The try block: the ticket record, then the seat's `available` child.
        It only runs while `isGenerating` is set. */
    method Persist(ticketId: string, t: Ticket, failAt: nat) returns (ok: bool)
      requires isGenerating
      modifies db
      ensures ok <==> failAt >= |IssueWrites(ticketId, t)|
      ensures db.State() == Run(old(db.State()), IssueWrites(ticketId, t), failAt)
    {
      RunTwo(db.State(), SetTicket(ticketId, t), SetSeatAvailable(t.seatId, false), failAt);
      if failAt == 0 {
        return false;
      }
      db.Perform(SetTicket(ticketId, t));
      if failAt == 1 {
        return false;
      }
      db.Perform(SetSeatAvailable(t.seatId, false));
      ok := true;
    }

    method HandleSubmit(parsedDay: Option<int>, today: int, now: int, ticketId: string, failAt: nat)
      modifies this, db
      ensures Step(View(), db.State()) ==
              Submit(old(View()), old(db.State()), parsedDay, today, now, ticketId, failAt)
    {
      if !Complete(form) {
        error := MsgMissingFields;
        return;
      }
      if InPast(parsedDay, today) {
        error := MsgPastDate;
        return;
      }
      var seatId := form["seatId"];
      if !(seatId in seats && seats[seatId]) {
        error := MsgSeatUnavailable;
        return;
      }
      isGenerating := true;
      error := "";
      var t := Ticket(form["name"], form["destination"], form["date"], seatId, now);
      var ok := Persist(ticketId, t, failAt);
      if ok {
        qrValue := ticketId;
        ticketDetails := Some(t);
        form := ClearedForm;
      } else {
        error := MsgCreateFailed;
      }
      isGenerating := false;
    }
  }
}
