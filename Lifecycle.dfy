/** Properties of the three pages working on one store: a ticket issued on
    the generator page and then scanned, a reset after an issue, and what
    the generator page's stale seat snapshot lets through. */
module Lifecycle {
  import opened Store
  import opened Generator
  import Admin
  import Scanner

  /** Issue then scan: the scanner resolves the new ID to exactly the
      submitted fields, the assigned seat and the issue time, and publishes
      `{name, ticket_id, seat_id}` for it. A generated ID has the form
      `ticket_<ms>_<base36>`, so it is always a valid path. */
  lemma IssuedTicketResolves(g: GeneratorState, d: Db, parsedDay: Option<int>, today: int, now: int,
                             ticketId: string, failAt: nat,
                             s: Scanner.Scan, seen: Option<Scanner.UserData>, stopFails: bool)
    requires Passes(g, parsedDay, today) && failAt >= 2
    requires !Scanner.Duplicate(seen, ticketId) && !Scanner.InvalidPath(ticketId)
    ensures var issued := Submit(g, d, parsedDay, today, now, ticketId, failAt);
      var scanned := Scanner.Decoded(s, issued.db, seen, ticketId, false, stopFails, false);
      var f := g.form;
      && scanned.view.userData ==
         Some(Scanner.UserData(Ticket(f["name"], f["destination"], f["date"], f["seatId"], now), ticketId))
      && scanned.view.error == None
      && scanned.db.current == Some(CurrentTicket(f["name"], ticketId, f["seatId"]))
  {
  }

  /** Issue then a completed reset: the issued seat is back to exactly
      `{available: true}`, and no ticket and no current ticket remain. */
  lemma ResetReleasesIssuedSeat(g: GeneratorState, d: Db, parsedDay: Option<int>, today: int, now: int,
                                ticketId: string, failAt: nat,
                                a: Admin.Dashboard, keys: seq<string>, resetFailAt: nat)
    requires Passes(g, parsedDay, today) && failAt >= 2
    requires Enumerates(keys, Submit(g, d, parsedDay, today, now, ticketId, failAt).db.seats.Keys)
    requires resetFailAt >= |Admin.ResetWrites(keys)|
    ensures var issued := Submit(g, d, parsedDay, today, now, ticketId, failAt);
      var after := Admin.Reset(a, issued.db, true, keys, resetFailAt).db;
      && g.form["seatId"] in after.seats
      && after.seats[g.form["seatId"]] == Admin.Vacant
      && after.tickets == map[]
      && after.current == None
  {
    var issued := Submit(g, d, parsedDay, today, now, ticketId, failAt);
    Admin.ResetStoreEffect(issued.db, keys, resetFailAt);
  }

  /** The availability snapshot is read once, when the page mounts, and a
      successful issue does not update it. So after the user fills the form
      in again for the same seat, a second issue also succeeds, and two
      stored tickets hold that seat. */
  lemma SnapshotAdmitsSecondIssue(g: GeneratorState, d: Db, today: int,
                                  day1: Option<int>, now1: int, id1: string, failAt1: nat,
                                  form2: Form, day2: Option<int>, now2: int, id2: string, failAt2: nat)
    requires Passes(g, day1, today) && failAt1 >= 2
    requires Complete(form2) && form2["seatId"] == g.form["seatId"]
    requires !InPast(day2, today) && failAt2 >= 2
    requires id1 != id2
    ensures var first := Submit(g, d, day1, today, now1, id1, failAt1);
      var second := Submit(first.view.(form := form2), first.db, day2, today, now2, id2, failAt2);
      var seat := g.form["seatId"];
      && second.view.error == ""
      && second.view.qrValue == id2
      && id1 in second.db.tickets && second.db.tickets[id1].seatId == seat
      && id2 in second.db.tickets && second.db.tickets[id2].seatId == seat
      && !second.db.seats[seat].available
  {
  }

  /** After a successful issue the form holds no `destination` and no `date`,
      so picking a name and a seat again is refused as incomplete until those
      two fields are typed again. */
  lemma ClearedFormRefusesResubmit(g: GeneratorState, d: Db, parsedDay: Option<int>, today: int, now: int,
                                   ticketId: string, failAt: nat, name: string, seatId: string,
                                   day2: Option<int>, now2: int, id2: string, failAt2: nat)
    requires Passes(g, parsedDay, today) && failAt >= 2
    ensures var first := Submit(g, d, parsedDay, today, now, ticketId, failAt);
      var edited := first.view.(form := first.view.form["name" := name]["seatId" := seatId]);
      Submit(edited, first.db, day2, today, now2, id2, failAt2) == Step(edited.(error := MsgMissingFields), first.db)
  {
  }
}
