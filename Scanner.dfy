/** The gate scanner page: resolving a decoded ticket ID against the
    `tickets` region, publishing the resolved ticket into `current_ticket`,
    suppressing a repeated decode, and the reset that clears the slot. The
    camera itself is reduced to the `isScanning` flag and to outcomes passed in. */
module Scanner {
  import opened Store

  const MsgNotFound := "No data found for this ticket ID."
  const MsgFetchFailed := "Failed to fetch ticket details."
  const StartErrorPrefix := "Error starting scanner: "

  /** `{...data, ticketId}`: the stored record with the scanned ID merged in
      last, so the scanned ID is the one the page holds. */
  datatype UserData = UserData(record: Ticket, ticketId: string)

  /** The page's local state. */
  datatype Scan = Scan(userData: Option<UserData>, error: Option<string>, isScanning: bool)

  /** The record published into `current_ticket` for resolved data. */
  function Published(u: UserData): CurrentTicket
  {
    CurrentTicket(u.record.name, u.ticketId, u.record.seatId)
  }

  /** `startScanner`: the error is cleared, then the camera either starts or
      its rejection reason becomes the error. */
  function Start(v: Scan, startFails: bool, reason: string): (r: Scan)
    ensures r.userData == v.userData
    ensures startFails ==> r.error == Some(StartErrorPrefix + reason) && r.isScanning == v.isScanning
    ensures !startFails ==> r.error == None && r.isScanning
  {
    var cleared := v.(error := None);
    if startFails then cleared.(error := Some(StartErrorPrefix + reason)) else cleared.(isScanning := true)
  }

  /** `stopScanner`: a failing stop is only logged. */
  function Stop(v: Scan, stopFails: bool): Scan
  {
    if stopFails then v else v.(isScanning := false)
  }

  /** A character the store refuses in a path: `.`, `#`, `$`, `[`, `]` and
      the control characters U+0000 to U+001F and U+007F. */
  predicate RefusedInPath(c: char)
  {
    c in ".#$[]" || c as int < 32 || c as int == 127
  }

  /** A token for which building the reference `tickets/{token}` throws. */
  predicate InvalidPath(token: string)
  {
    exists i :: 0 <= i < |token| && RefusedInPath(token[i])
  }

  /** `fetchTicketData`: reads `tickets/{ticketId}` and never writes the store.
      The reference is built after the error is cleared and before the `try`,
      so a refused path ends the call with only the error cleared. */
  function Fetch(v: Scan, d: Db, ticketId: string, lookupFails: bool, stopFails: bool): Scan
  {
    var cleared := v.(error := None);
    if InvalidPath(ticketId) then cleared
    else if lookupFails then cleared.(error := Some(MsgFetchFailed), userData := None)
    else if ticketId in d.tickets then
      Stop(cleared.(userData := Some(UserData(d.tickets[ticketId], ticketId))), stopFails)
    else cleared.(error := Some(MsgNotFound), userData := None)
  }

  /** The effect on `userData`: non-null data is written to `current_ticket`
      (a failing write is only logged); null data leaves the slot alone. */
  function Publish(v: Scan, d: Db, publishFails: bool): Db
  {
    if v.userData.Some? && !publishFails then Apply(d, SetCurrentTicket(Published(v.userData.value)))
    else d
  }

  /** The decode callback skips a token equal to the ID of the data it sees. */
  predicate Duplicate(seen: Option<UserData>, token: string)
  {
    seen.Some? && seen.value.ticketId == token
  }

  /** One decoded token: the duplicate check, the lookup, then the effect
      that publishes the new data. `seen` is the `userData` the callback
      captured when the scanner was started. A refused path leaves `userData`
      as it was, so the effect does not run. */
  function Decoded(v: Scan, d: Db, seen: Option<UserData>, token: string,
                   lookupFails: bool, stopFails: bool, publishFails: bool): (r: Step<Scan>)
    ensures r.db.tickets == d.tickets && r.db.seats == d.seats
    ensures Duplicate(seen, token) ==> r == Step(v, d)
    ensures Duplicate(seen, token) || InvalidPath(token) || lookupFails || token !in d.tickets || publishFails ==>
      r.db == d
    ensures !Duplicate(seen, token) && InvalidPath(token) ==> r == Step(v.(error := None), d)
    ensures !Duplicate(seen, token) && !InvalidPath(token) && lookupFails ==>
      r.view == v.(userData := None, error := Some(MsgFetchFailed))
    ensures !Duplicate(seen, token) && !InvalidPath(token) && !lookupFails && token !in d.tickets ==>
      r.view == v.(userData := None, error := Some(MsgNotFound))
    ensures !Duplicate(seen, token) && !InvalidPath(token) && !lookupFails && token in d.tickets ==>
      var t := d.tickets[token];
      && r.view.userData == Some(UserData(t, token))
      && r.view.error == None
      && r.view.isScanning == (v.isScanning && stopFails)
      && (!publishFails ==> r.db.current == Some(CurrentTicket(t.name, token, t.seatId)))
  {
    if Duplicate(seen, token) then Step(v, d)
    else if InvalidPath(token) then Step(Fetch(v, d, token, lookupFails, stopFails), d)
    else
      var v' := Fetch(v, d, token, lookupFails, stopFails);
      Step(v', Publish(v', d, publishFails))
  }

  /** The page's reset button: removes `current_ticket`, clears the data and
      the error, stops a running camera and starts it again. If the removal
      throws, nothing else happens. */
  function ResetScan(v: Scan, d: Db, removeFails: bool, stopFails: bool, startFails: bool, reason: string)
    : (r: Step<Scan>)
    ensures removeFails ==> r == Step(v, d)
    ensures !removeFails ==> r.db == d.(current := None) && r.view.userData == None
    ensures !removeFails && !startFails ==> r.view.error == None && r.view.isScanning
    ensures !removeFails && startFails ==>
      r.view.error == Some(StartErrorPrefix + reason) && r.view.isScanning == (v.isScanning && stopFails)
  {
    if removeFails then Step(v, d)
    else
      var cleared := v.(userData := None, error := None);
      var stopped := if cleared.isScanning then Stop(cleared, stopFails) else cleared;
      Step(Start(stopped, startFails, reason), Apply(d, RemoveCurrentTicket))
  }

  /** A frame that decodes the ticket just resolved again changes nothing,
      provided the callback sees the resolved data. A callback still holding
      older data looks the token up and publishes it again. */
  lemma RepeatedTokenSuppressed(v: Scan, d: Db, seen: Option<UserData>, token: string,
                                lookupFails: bool, stopFails: bool, publishFails: bool,
                                lookupFails': bool, stopFails': bool, publishFails': bool)
    requires !Duplicate(seen, token) && !InvalidPath(token) && !lookupFails && token in d.tickets
    ensures var r := Decoded(v, d, seen, token, lookupFails, stopFails, publishFails);
      Decoded(r.view, r.db, r.view.userData, token, lookupFails', stopFails', publishFails') == r
  {
    var r := Decoded(v, d, seen, token, lookupFails, stopFails, publishFails);
    assert Duplicate(r.view.userData, token);
  }

  class ScanPage {
    const db: Database
    var userData: Option<UserData>
    var error: Option<string>
    var isScanning: bool

    function View(): Scan
      reads this
    {
      Scan(userData, error, isScanning)
    }

    constructor (db: Database)
      ensures this.db == db
      ensures View() == Scan(None, None, false)
    {
      this.db := db;
      userData, error, isScanning := None, None, false;
    }

    method StartScanner(startFails: bool, reason: string)
      modifies this
      ensures View() == Start(old(View()), startFails, reason)
    {
      error := None;
      if startFails {
        error := Some(StartErrorPrefix + reason);
      } else {
        isScanning := true;
      }
    }

    method StopScanner(stopFails: bool)
      modifies this
      ensures View() == Stop(old(View()), stopFails)
    {
      if !stopFails {
        isScanning := false;
      }
    }

    /** Only the page's own state may change: the lookup writes nothing. */
    method FetchTicketData(ticketId: string, lookupFails: bool, stopFails: bool)
      modifies this
      ensures View() == Fetch(old(View()), db.State(), ticketId, lookupFails, stopFails)
    {
      error := None;
      if InvalidPath(ticketId) {
        return;
      }
      if lookupFails {
        error := Some(MsgFetchFailed);
        userData := None;
      } else if ticketId in db.tickets {
        userData := Some(UserData(db.tickets[ticketId], ticketId));
        StopScanner(stopFails);
      } else {
        error := Some(MsgNotFound);
        userData := None;
      }
    }

    /** The effect that runs after `userData` changes. */
    method PublishCurrentTicket(publishFails: bool)
      modifies db
      ensures db.State() == Publish(View(), old(db.State()), publishFails)
    {
      if userData.Some? && !publishFails {
        db.Perform(SetCurrentTicket(Published(userData.value)));
      }
    }

    method OnDecoded(token: string, seen: Option<UserData>, lookupFails: bool, stopFails: bool, publishFails: bool)
      modifies this, db
      ensures Step(View(), db.State()) ==
              Decoded(old(View()), old(db.State()), seen, token, lookupFails, stopFails, publishFails)
    {
      if seen.Some? && seen.value.ticketId == token {
        return;
      }
      FetchTicketData(token, lookupFails, stopFails);
      if !InvalidPath(token) {
        PublishCurrentTicket(publishFails);
      }
    }

    /** Setting `userData` to null runs the effect, which then writes nothing. */
    method HandleReset(removeFails: bool, stopFails: bool, startFails: bool, reason: string)
      modifies this, db
      ensures Step(View(), db.State()) ==
              ResetScan(old(View()), old(db.State()), removeFails, stopFails, startFails, reason)
    {
      if removeFails {
        return;
      }
      db.Perform(RemoveCurrentTicket);
      userData := None;
      error := None;
      if isScanning {
        StopScanner(stopFails);
      }
      StartScanner(startFails, reason);
    }
  }
}
