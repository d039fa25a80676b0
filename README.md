# Smart train ticket: the reservation and scan core in Dafny

This project models the logic of the three pages of a train-ticket
application built over a realtime database:

- the **ticket generator** (`QrGenerator`) loads a snapshot of seat availability when it
  mounts. Its submit handler validates the form, writes the ticket record and then marks
  the seat taken;
- the **admin dashboard** (`Admin`) turns the `tickets` and `seats` regions into table rows.
  Its reset handler rewrites every seat to `{available: true}`, removes every ticket and
  clears the current-ticket slot;
- the **gate scanner** (`QrScan`) resolves a decoded ticket ID against `tickets`, publishes
  the result into `current_ticket`, skips a repeated token, and resets the slot.

The store is three maps (`Store.Db`: `seats`, `tickets`, `current`) inside a `Database`
object. Every store call is one `Write`. A handler's writes form a list, and the parameter
`failAt` says at which write the store throws; `Run` applies the writes before that point.
Each page is a class whose fields are the page's React state, and each event handler is a
method. Each method is proved equal to a specification function of the old page state and
the old store (`Submit`, `Reset`, `Decoded`, `ResetScan`, ...). The properties are stated on
those functions and in lemmas.

Inputs the code gets from the browser are parameters:

- `today` and `parsedDay` are day numbers. `parsedDay` is `None` when the date string
  parses to an Invalid Date.
- `now` and `ticketId` stand for `Date.now()` and the generated ID.
- `confirmed` is the answer to `window.confirm`.
- the camera's start and stop outcomes are booleans.
- `keys` is the order in which `Object.keys` lists a map.

Modules: `Store` (Store.dfy), `Generator` (Generator.dfy), `Admin` (Admin.dfy), `Scanner`
(Scanner.dfy), and `Lifecycle` (Lifecycle.dfy) for properties that span pages.

What the code does not guard against (the model follows the code):

- The generator checks a seat against a snapshot read once at mount, writes the ticket,
  then sets `seats/{id}/available` to false, and never refreshes the snapshot. So a second
  issue for the same seat succeeds (`Lifecycle.SnapshotAdmitsSecondIssue`).
- `tickets/{id}` is overwritten without checking whether that ID is taken (`Generator.Submit`).
- The reset writes exactly `{available: true}` to every seat, which drops `status`
  (`Admin.ResetStoreEffect`).
- The reset calls `fetchTickets` and `fetchSeats`, which the admin page never defines. So
  every confirmed reset ends with "Failed to reset the system. Please try again.", even after
  all writes completed (`Admin.Reset`).
- The success branch resets the form to `{name: "", phone: "", seatId: ""}`. That form has
  no `destination` and no `date`, so the next submit is refused as incomplete until both are
  typed again (`Lifecycle.ClearedFormRefusesResubmit`).
- A decoded token becomes part of the path `tickets/{token}` before the lookup's error
  handling starts. A token the store refuses as a path (one containing `.`, `#`, `$`, `[`,
  `]` or a control character, such as most URLs or any multi-line payload) makes the lookup throw past its `catch`: the error is cleared and
  nothing else changes (`Scanner.Decoded`).

## Model

| member | source | states |
|---|---|---|
| `Store.WithAvailable` | src/pages/QrGenerator/QrGenerator.jsx:92-93 | writing only the `available` child sets that flag and keeps the seat's `status`; a missing seat gets a record with no status |
| `Store.Database.Perform` | src/pages/Admin/Admin.jsx:67-78 | a store call changes the store exactly as the corresponding `Write` says (set of a ticket, a seat, a seat's `available` child, the slot; removal of `tickets` or of the slot) |
| `Generator.GeneratorPage.constructor` | src/pages/QrGenerator/QrGenerator.jsx:8-18 | the page starts with the four empty form fields, an empty snapshot, no error, no QR value, no details and `isGenerating` false |
| `Generator.FormatAvailability` | src/pages/QrGenerator/QrGenerator.jsx:29-32 | the loop builds a map with exactly the store's seat keys, each mapped to that seat's `available` flag |
| `Generator.LoadSeats` | src/pages/QrGenerator/QrGenerator.jsx:22-41 | a read failure sets only "Failed to load seat availability."; an empty `seats` region leaves the page unchanged; otherwise only the snapshot changes: it has exactly the store's seat IDs, each mapped to that seat's `available` flag (false ones included), so a seat is open in it iff the store has it with `available` true |
| `Generator.GeneratorPage.FetchSeatAvailability` | src/pages/QrGenerator/QrGenerator.jsx:22-41 | the mount loader changes the page state as `LoadSeats` says and writes nothing to the store |
| `Generator.GeneratorPage.HandleChange` | src/pages/QrGenerator/QrGenerator.jsx:43-45 | sets the named form field to the typed value; nothing else changes |
| `Generator.GeneratorPage.HandleSeatSelection` | src/pages/QrGenerator/QrGenerator.jsx:47-49 | sets the form's `seatId`; nothing else changes |
| `Generator.Submit` | src/pages/QrGenerator/QrGenerator.jsx:51-104 | an empty name, destination, date or seat gives "Please fill in all fields and select a seat." with no write; a day before today gives "Please select a date that is not in the past." with no write, and today passes; a seat missing from the snapshot or false in it gives "The selected seat is not available." with no write; if the ticket write fails nothing is stored, and if the seat flip fails the ticket stays stored, both giving "Failed to create the ticket."; on success `tickets[ticketId]` is the form's fields with `createdAt = now`, overwriting any ticket with that ID, the seat is unavailable with its `status` kept, and a seat missing from the store is created as `{available: false}` with no status, other seats and the slot are unchanged, `qrValue` is the ID, the details are the record and the form becomes `{name, phone, seatId}`, all empty; `isGenerating` ends false once validation passed; the snapshot never changes |
| `Generator.GeneratorPage.Persist` | src/pages/QrGenerator/QrGenerator.jsx:75-93 | the two writes, ticket first and then the seat flip, run only while `isGenerating` is true; the result says whether both completed |
| `Generator.GeneratorPage.HandleSubmit` | src/pages/QrGenerator/QrGenerator.jsx:51-104 | the handler leaves the page and the store exactly as `Submit` says |
| `Admin.AdminPage.constructor` | src/pages/Admin/Admin.jsx:7-11 | the dashboard starts with empty tables, no error, not resetting, no success flag |
| `Admin.TicketsOfRows` | src/pages/Admin/Admin.jsx:20-23 | each ticket row carries its key as `ticketId` and that key's record, so reading the rows back gives the tickets at the listed keys |
| `Admin.SeatsOfRows` | src/pages/Admin/Admin.jsx:33-37 | each seat row carries its key and that seat's `available` and `status`, so reading the rows back gives the seats at the listed keys |
| `Admin.TicketTableFaithful` | src/pages/Admin/Admin.jsx:17-28 | the tickets table has one row per ticket key with distinct IDs, reading it back gives the `tickets` region, and it is empty when there are no tickets |
| `Admin.SeatTableFaithful` | src/pages/Admin/Admin.jsx:30-42 | the seats table has one row per seat key with distinct IDs, reading it back gives the `seats` region, and it is empty when there are no seats |
| `Admin.AdminPage.OnTicketsValue` | src/pages/Admin/Admin.jsx:17-28 | the tickets listener replaces the table with the rows of the current `tickets` region, including the empty region; nothing else changes |
| `Admin.AdminPage.OnSeatsValue` | src/pages/Admin/Admin.jsx:30-42 | the seats listener replaces the table with the rows of the current `seats` region, including the empty region; nothing else changes |
| `Admin.Reset` | src/pages/Admin/Admin.jsx:50-92 | a declined confirmation changes neither the page nor the store; a confirmed reset always ends with error "Failed to reset the system. Please try again.", `resetSuccess` false and `isResetting` false |
| `Admin.ReleaseKeys` | src/pages/Admin/Admin.jsx:66-70 | after `{available: true}` is written to each listed seat, the seat IDs are the old ones plus the listed ones, each listed seat is exactly `{available: true}` and every other seat keeps its record |
| `Admin.SeatResetsPrefix` | src/pages/Admin/Admin.jsx:64-71 | after the first n whole-record seat writes, exactly those n seats are `{available: true}` and everything else is as it was |
| `Admin.ResetStoreEffect` | src/pages/Admin/Admin.jsx:61-78 | the set of seat IDs never changes; a failure during the seat writes leaves tickets and the slot as they were; a failure at the slot removal leaves every seat released and no tickets; after all writes every seat is exactly `{available: true}` (status dropped), `tickets` is empty and the slot is absent, also when there are no seats |
| `Admin.ResetIdempotent` | src/pages/Admin/Admin.jsx:61-78 | a completed reset followed by a second completed reset leaves the store as the first one did |
| `Admin.AdminPage.HandleReset` | src/pages/Admin/Admin.jsx:50-92 | the handler performs the seat writes in key order, then the ticket removal and the slot removal, stopping at the failing write, and leaves the page and the store exactly as `Reset` says |
| `Scanner.ScanPage.constructor` | src/pages/QrScan/QrScan.jsx:8-10 | the scanner starts with no data, no error and not scanning |
| `Scanner.Start` | src/pages/QrScan/QrScan.jsx:42-70 | starting clears the error, then either sets `isScanning` or sets the error to "Error starting scanner: " followed by the reason; the data is untouched |
| `Scanner.ScanPage.StartScanner` | src/pages/QrScan/QrScan.jsx:42-70 | the method changes the page as `Start` says |
| `Scanner.ScanPage.StopScanner` | src/pages/QrScan/QrScan.jsx:72-81 | a successful stop clears `isScanning`; a failing stop changes nothing |
| `Scanner.ScanPage.FetchTicketData` | src/pages/QrScan/QrScan.jsx:83-101 | the lookup changes only the page, as `Fetch` says, and never writes the store; a token that is not a valid path segment only clears the error |
| `Scanner.ScanPage.PublishCurrentTicket` | src/pages/QrScan/QrScan.jsx:23-40 | non-null data is written to `current_ticket` as `{name, ticket_id, seat_id}` unless the write fails; null data leaves the slot untouched |
| `Scanner.Decoded` | src/pages/QrScan/QrScan.jsx:54-101 | `tickets` and `seats` never change; a token equal to the seen data's ID changes nothing; a token containing `.`, `#`, `$`, `[`, `]` or a control character (U+0000 to U+001F, U+007F) only clears the error, keeps the data and publishes nothing; otherwise an existing ID sets the data to the stored record with `ticketId` the scanned ID, clears the error, stops the scanner unless stopping fails, and publishes `{name, ticket_id, seat_id}` unless that write fails; a missing ID gives "No data found for this ticket ID." and a lookup failure "Failed to fetch ticket details.", both with null data and the slot unchanged |
| `Scanner.RepeatedTokenSuppressed` | src/pages/QrScan/QrScan.jsx:55-57 | once a valid token has been resolved, decoding it again changes nothing, provided the callback sees the resolved data |
| `Scanner.ScanPage.OnDecoded` | src/pages/QrScan/QrScan.jsx:54-58 | the decode callback, followed by the effect, leaves the page and the store exactly as `Decoded` says |
| `Scanner.ResetScan` | src/pages/QrScan/QrScan.jsx:103-117 | if removing the slot fails nothing changes; otherwise the slot is absent, the data is null and nothing else in the store changes, and the scanner restarts with no error, or with the start error and `isScanning` false unless it was running and would not stop |
| `Scanner.ScanPage.HandleReset` | src/pages/QrScan/QrScan.jsx:103-117 | the reset button leaves the page and the store exactly as `ResetScan` says |
| `Lifecycle.IssuedTicketResolves` | src/pages/QrGenerator/QrGenerator.jsx:82-93 | after a successful issue, scanning the new ID yields the submitted name, destination, date and seat, `createdAt = now` and the scanned ID, and publishes `{name, ticket_id, seat_id}` |
| `Lifecycle.ResetReleasesIssuedSeat` | src/pages/Admin/Admin.jsx:61-78 | after an issue, a completed reset makes the issued seat exactly `{available: true}` and leaves no tickets and no current ticket |
| `Lifecycle.SnapshotAdmitsSecondIssue` | src/pages/QrGenerator/QrGenerator.jsx:70-97 | since the snapshot is not refreshed, a second complete form for the same seat passes the availability check, and two stored tickets then hold that seat |
| `Lifecycle.ClearedFormRefusesResubmit` | src/pages/QrGenerator/QrGenerator.jsx:95-97 | after a successful issue, entering only a name and a seat is refused with the missing-fields message and writes nothing |

## Left out

- src/App.jsx holds only routing, with no logic.
- Rendering, styles, the QR canvas and the PNG download (QrGenerator.jsx:106-120) are not modelled.
- The camera library is reduced to the `isScanning` flag plus start and stop outcomes passed in. Decoding is a stream of token strings.
- The database SDK is replaced by the `Database` class with failure points, so transport, network behaviour and listener delivery timing are not modelled. The listeners are methods the caller invokes.
- Concurrency is not modelled: each handler runs as one sequence of steps. This covers the `Promise.all` seat writes, taken here one at a time in key order; races between two issuers; and a reset that overlaps an issue.
- Dates are day numbers. Parsing the date string, time zones, and the millisecond comparison against local midnight are not modelled.
- Scanner.Fetch: a token is a flat key of `tickets`. In the code it is spliced into the path `tickets/{token}`, so a token containing `/` reads a nested child, and an empty token reads the whole `tickets` region; those two readings are not modelled. The characters the store refuses in a path (`.`, `#`, `$`, `[`, `]`, U+0000 to U+001F and U+007F) are modelled by `Scanner.InvalidPath`.
- Ticket IDs come from `Date.now()` and `Math.random()`. Here the ID and `createdAt` are parameters, their `ticket_<ms>_<random>` format is not modelled, and uniqueness is not assumed.
- `window.confirm` is the `confirmed` parameter.
- The `setTimeout` success flash is not modelled. The success branch that sets it cannot be reached.
- Console logging is not modelled.
- React closures are not modelled. The `userData` seen by the decode callback is the `seen` parameter. The `isScanning` read in the unmount cleanup (QrScan.jsx:16-20) is not modelled.
- Seat records whose `available` is missing or not a boolean are not modelled; `Seat.available` is a `bool`.
- Only records of the issuing page's shape are modelled in `tickets`. So the merge of a stored record that has its own `ticketId` field is not modelled.
- A failure of the reset's first read of `seats` is not a separate case. It writes nothing, which is the same store outcome as `failAt = 0`.
- Generator.GeneratorPage.HandleSubmit: its contract gives `isGenerating` only before and after the call. That the flag is true while the writes run is stated by `Persist`'s precondition.
