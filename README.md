# ZapShare booking core in Dafny

This project models the booking core of ZapShare, a charger-sharing web application: the booking
lifecycle routes and the midnight maintenance sweep of `src/routers/booking.js`, and the
host-facing read queries of `src/routers/host.js`. MongoDB collections become values of an
in-memory store. Every route is one sequential method, or one function for the read-only queries.

## Structure

- `records.dfy` (`Records`): the documents. These are bookings (charger, client, time window,
  state, cost, feedback and accepted flags), chargers, users, notifications and reviews. It also
  holds the result kinds of a route: `Ok`, `NotFound`, `BadRequest` and `ServerError`, which
  stand for 200/201, 404, 400 and 500.
- `tables.dfy` (`Tables`): a collection of documents keyed by id, listed in the store's natural
  order. `Valid()` says each stored id appears exactly once in that order. `Get` is `findById`,
  `Put` is `save` (an upsert), `Remove` is `findByIdAndRemove`, `MapRows` is `updateMany` and
  `Restrict` keeps what `deleteMany` leaves.
- `seqs.dfy` (`Seqs`): `Filter` and `Flatten` and their laws. `Filter` plays the part of `find`
  with an equality filter and of JavaScript's `filter`. It keeps order. `Flatten` is `[].concat.apply([], xs)`.
- `cost.dfy` (`Cost`): the cost `rate × (end − start) × (25/9)·1e-7`, rounded to two decimals.
  It is computed on exact rationals. The scale is one hour per 3,600,000 milliseconds.
- `booking.dfy` (`BookingRouter`): the class `BookingStore` with one method per route, the sweep
  functions, and the allow-list check of the patch route.
- `host.dfy` (`HostRouter`): `getChargerBookings`, `getHostBookings`, `getChargerReviews` and
  `/allChargerReviews` as functions, with lemmas relating each result to the store.

## Behaviour as the code has it

The model follows the code, with one exception: in cancel, where the code as written loses a
PAID booking, the route method restores it (see "Findings"). These behaviours of the code are easy
to miss:

- Cancel removes the booking first. It then reads `booking.charger` before checking for null, so
  an unknown id throws and gives 500 (`ServerError`), not 400 or 404.
- A PAID booking that is cancelled is already removed when the route calls `booking.save()` on
  the removed document. That document is not new, so `save` updates by id, finds nothing stored
  and does not insert it: the booking is lost, and the reply is 500 either way
  (`BookingStore.CancelAsWritten`). The call is evidently there to put the booking back, and
  `BookingStore.Cancel` does that as an upsert: the identical document returns, last in the
  natural order.
- Cancel of a booking whose charger no longer exists saves the client's CANCELLED notification.
  It then throws on `charger.owner`: the booking stays removed and only one notification is added.
- The cancel route reads `req.bUID`, not `req.body.bUID` (`src/routers/booking.js:117`). Express
  never sets `req.bUID`, so as written the route is called with an undefined id. The model takes
  the booking id as a parameter, which is what the other routes do with `req.body.bUID`.
- Accept and pay overwrite the state whatever it was. An unknown id throws on the null document
  and gives 400 with no notification. Accept answers with the document as it was before the update.
- Pay stores PAID before it looks up the charger. If that lookup fails, PAID stays and no
  notification is added.
- The sweep's two bulk operations share one `try`. If the completion step throws, the deletion
  step does not run, so the two steps are not independent.
- In a booking listing, a failed join leaves an undefined slot (`None`) rather than dropping the
  element. So a listing always has one slot per matching booking.
- One unknown reviewer makes a whole review listing fail.
- No window validation happens in these files, so a negative duration gives a negative cost.
- Times are milliseconds, so the formula charges rate 10 over 3600 ms as 0.01, and over one hour
  as 10.00 (`Cost.CostExamples`).
- Creation sets state PENDING, `userFeedback` false and `accepted` false. These are the schema
  defaults, which these files do not show, so they are an assumption.

## Model

| member | source | states |
|---|---|---|
| BookingRouter.BookingStore.CreateBooking | src/routers/booking.js:23-45 | With a known charger: the new booking has the authenticated client, PENDING and the computed cost. It is stored under a fresh id, and exactly one NEWREQ notification to that charger's owner follows. With an unknown charger: 400 and nothing stored, no notification. |
| BookingRouter.BookingStore.Accept | src/routers/booking.js:48-66 | A stored booking becomes UNPAID whatever its state, and exactly one ACCEPTED notification goes to its client. The reply is the pre-update document. An unknown id gives 400 and changes nothing. |
| BookingRouter.BookingStore.Decline | src/routers/booking.js:69-90 | A stored booking is removed in any state, and exactly one DECLINED notification goes to the removed booking's client. An unknown id gives 404 and changes nothing. |
| BookingRouter.BookingStore.Pay | src/routers/booking.js:93-111 | A stored booking becomes PAID whatever its state. With its charger known, exactly one PAID notification goes to the owner and is the reply. With the charger unknown, PAID stays, the reply is 400 and nothing is added. An unknown id gives 400 and changes nothing. |
| BookingRouter.BookingStore.Cancel | src/routers/booking.js:114-150 | The route with the save-back as evidently intended. An unknown id gives 500 and changes nothing. A PAID booking is put back with its document unchanged (an upsert), no notification, 500. Any other state: removed, then CANCELLED to the client and then to the owner. If the charger is unknown, only the client's notification is added and the reply is 500. |
| BookingRouter.BookingStore.CancelAsWritten | src/routers/booking.js:114-150 | The route as written. As `Cancel`, except that a PAID booking stays removed: `save` on the removed document puts nothing back. The reply is 500, with no notification. |
| BookingRouter.PaidCancelCompared | src/routers/booking.js:117-126 | On a store with one PAID booking, both versions answer 500. The as-written route no longer holds the booking; the intended one holds it unchanged. |
| BookingRouter.BookingStore.Patch | src/routers/booking.js:152-179 | A key outside the allow-list gives 400 and changes nothing, before any lookup. An unknown id gives 404. Otherwise the patched booking is saved and returned, with no notification. |
| BookingRouter.BookingStore.Sweep | src/routers/booking.js:11-19 | Without failure the bookings become `Swept(old, now)`. If the first operation throws, nothing changes. If the second throws, only the completion is applied. No notification is ever added. |
| BookingRouter.Swept | src/routers/booking.js:14-15 | Exactly the bookings that are PENDING with timeStart ≤ now are deleted. PAID bookings with timeStart ≤ now become COMPLETED. Every other booking is kept unchanged. The survivors keep their natural order. |
| BookingRouter.CompleteDue | src/routers/booking.js:14 | `updateMany`: due bookings (PAID, timeStart ≤ now) become COMPLETED. All others, and the order, are unchanged. |
| BookingRouter.ReapStale | src/routers/booking.js:15 | `deleteMany`: stale bookings (PENDING, timeStart ≤ now) are gone. All others stay unchanged, in their natural order. |
| BookingRouter.SweptLeavesNothingToDo | src/routers/booking.js:14-15 | After a sweep no booking is due or stale for the same clock. |
| BookingRouter.SweptIdempotent | src/routers/booking.js:11-19 | Sweeping twice with the same clock equals sweeping once. |
| BookingRouter.SweepTwice | src/routers/booking.js:11-19 | Two sweep runs in a row leave the store as one run does and add no notification. |
| BookingRouter.DeclineTwice | src/routers/booking.js:72-76 | Declining an id twice: the second call is always 404 and adds no notification. |
| BookingRouter.IsValidOperation | src/routers/booking.js:156-158 | `every`/`includes`: true exactly when every update key is in the allowed list. |
| BookingRouter.PatchAllowList | src/routers/booking.js:154-162 | `Object.keys(req.body)` checked against `['accepted']`: a body passes exactly when every one of its keys is `accepted`. The empty body passes. |
| BookingRouter.AcceptedValue | src/routers/booking.js:166 | The body gives `accepted` a value exactly when it has that key, and that value comes from the body. |
| BookingRouter.Patched | src/routers/booking.js:166 | `findByIdAndUpdate` with the body: only `accepted` can change. It takes the body's value when the body has the key, and the booking is unchanged otherwise. |
| BookingRouter.NewBooking | src/routers/booking.js:26-29 | The new booking has the request's charger and window, the authenticated client and state PENDING. Its cost is within half a hundredth of the exact cost, and non-negative for a non-negative rate and a forward window. |
| BookingRouter.AcceptedValueLastWins | src/routers/booking.js:166 | Of repeated `accepted` keys the last one counts. Other keys do not change the value. |
| Cost.BookingCost | src/routers/booking.js:29 | The cost is the exact cost rounded to the hundredth, within half a hundredth. It is non-negative for a non-negative rate and a forward window. |
| Cost.Hundredths | src/routers/booking.js:29 | `toFixed(2)` on an exact value: the nearest hundredth, with ties going away from zero. |
| Cost.HundredthsMonotone | src/routers/booking.js:29 | Rounding keeps order. |
| Cost.CostMonotone | src/routers/booking.js:29 | At a non-negative rate a longer window never costs less. |
| Cost.ScaleIsPerHour | src/routers/booking.js:29 | (25/9)·1e-7 times 3,600,000 is 1: the rate is per hour of milliseconds. |
| Cost.CostExamples | src/routers/booking.js:29 | One hour at rate 10 costs 10.00, and 3600 ms at rate 10 costs 0.01. |
| Tables.Table.Put | src/routers/booking.js:124 | `save` as an upsert keeps the table valid. It replaces a stored document in place and appends a new id last. |
| Tables.RemovePutRestores | src/routers/booking.js:117-124 | Removing a document and saving it back restores every document. Only its place in the natural order moves, to last. |
| Tables.Table.Remove | src/routers/booking.js:72 | Removing keeps the table valid. Only that document goes, and the others keep their order. |
| HostRouter.ToView | src/routers/host.js:111-136 | A slot is filled exactly when charger and client both resolve. It copies the window and cost from the booking, address, city, province and name from the charger, and name and id from the client. bookingID is present exactly for PENDING and COMPLETED, reviewStatus (= userFeedback) exactly for COMPLETED. |
| HostRouter.MatchingIds | src/routers/host.js:109 | Only bookings of that charger in that state are listed. |
| HostRouter.ChargerBookings | src/routers/host.js:107-139 | One slot per matching booking, in `find` order. Slot i is the join of the i-th match, and a failed join leaves its slot empty rather than dropping it. |
| HostRouter.ChargerBookingsCount | src/routers/host.js:109-139 | The listing's length is the number of stored bookings with that charger and state. |
| HostRouter.ChargerBookingsComplete | src/routers/host.js:109-139 | Every stored booking with that charger and state has its join in the listing. |
| HostRouter.OwnedChargers | src/routers/host.js:96 | `Charger.find({ owner })`, also at line 66: only chargers of that owner, and every stored charger of that owner. |
| HostRouter.HostBookings | src/routers/host.js:94-100 | The host listing is exactly as long as the charger listings of the owner's chargers together. What it holds is stated by `HostBookingsSound` and `HostBookingsComplete`. |
| HostRouter.HostBookingsSound | src/routers/host.js:94-100 | Every filled slot of the host listing joins a stored booking in that state on a charger the owner owns. |
| HostRouter.HostBookingsComplete | src/routers/host.js:94-100 | Every stored booking in that state on a charger the owner owns has its join in the host listing. |
| HostRouter.NameReviewers | src/routers/host.js:79-85 | Succeeds exactly when every reviewer resolves. Each element is the review with its reviewer replaced by the name, in order. |
| HostRouter.ChargerReviews | src/routers/host.js:76-86 | Succeeds exactly when every review addressed to the charger names a known user. It then has one element per such review. |
| HostRouter.ChargerReviewsMember | src/routers/host.js:78-86 | A successful listing holds exactly the named reviews addressed to the charger. |
| HostRouter.AllChargerReviews | src/routers/host.js:64-73 | The route answers exactly when every review addressed to one of the owner's chargers names a known user. What it holds is stated by `AllChargerReviewsSound` and `AllChargerReviewsComplete`. |
| HostRouter.AllChargerReviewsSucceeds | src/routers/host.js:64-73 | The route answers exactly when every review of every charger of the owner names a known user. |
| HostRouter.AllChargerReviewsSound | src/routers/host.js:66-70 | Every element of a successful answer is a named review of one of the owner's chargers. |
| HostRouter.AllChargerReviewsComplete | src/routers/host.js:66-70 | Every review of one of the owner's chargers appears, named, in a successful answer. |
| Seqs.Filter | src/routers/host.js:109 | A filter keeps exactly the elements that satisfy the predicate, in order. |
| Seqs.FilterCongruent | src/routers/booking.js:14-15 | A filter depends only on the predicate's values on the elements, so the deletion keeps the same bookings however the completion changed them. |
| Seqs.Flatten | src/routers/host.js:99 | `[].concat.apply([], xs)`, also at line 69: the result is as long as the parts together. |
| Seqs.FlattenMember | src/routers/host.js:99 | An element is in the flattened list exactly when it is in one of the parts. |

## Findings

| source | as written | input that shows it | evidently intended | confidence | as-written member | corrected member |
|---|---|---|---|---|---|---|
| src/routers/booking.js:117-124 | The booking is removed first. On the PAID path, `booking.save()` on the removed document updates by id, matches nothing and does not reinsert it. | Cancel a stored booking whose state is PAID: the reply is 500 and the booking is gone for good. | A PAID booking cannot be cancelled; it stays stored, unchanged, and the route answers 500. | not executed | BookingRouter.BookingStore.CancelAsWritten, BookingRouter.PaidCancelCompared | BookingRouter.BookingStore.Cancel |

## Left out

- BookingRouter.BookingStore.Cancel: the upsert is the evidently intended save-back. As written, the PAID booking is lost; `CancelAsWritten` models that.

- `src/app.js`, `public/js/accept_reject.js` and `public/js/map.js`: these are server wiring, page rendering, geocoding and browser UI.
- Authentication and route-parameter extraction: the client id and every booking, charger and owner id are parameters. This includes `req.cUID` and `req.query.cUID` at `src/routers/host.js:39-57`, and `req.bUID` in cancel.
- Errors thrown by the store inside a route are not modelled. This covers a failed `save`, a failed `notification.save` after the booking changed, malformed ids, and schema validation on create or patch. Only throws caused by a lookup that returned nothing are modelled. In the sweep, a failing operation is modelled through `SweepFault`.
- BookingRouter.BookingStore.Sweep: a failing `updateMany` is modelled as changing nothing. A partly applied bulk update is not modelled.
- The `catch` blocks of `getChargerBookings` and `getChargerReviews` refer to an undefined `res`. They, and failures of `Booking.find`, `Charger.find` and `Review.find`, are not modelled. One unknown reviewer gives `None` ("the call fails").
- Floating point: cost is computed on exact rationals. Rounding follows the definition of `toFixed` on the exact value, not JavaScript's binary doubles. The string `toFixed` returns, and its conversion back to a number, are not modelled. Cost is kept in hundredths.
- BookingRouter.BookingStore.CreateBooking: only the request's charger and window are read. `new Booking(req.body)` would also copy any other schema field the client sends, state included. Those fields take their assumed schema defaults here.
- BookingRouter.BookingStore.Patch: a patch value is a boolean. A non-boolean `accepted` value, which the validators would refuse with 400, is not modelled.
- Cron scheduling (`'0 0 * * *'`, `start()`): the sweep takes one `now` for both operations, where the source reads `Date.now()` twice.
- Concurrency: the `Promise.all` fan-outs, and races between the sweep and live requests, are modelled as sequential.
- Review documents: their fields other than reviewee and reviewer are kept as one opaque `content` string.
- Users are read only by the host queries, which take them as a map. The booking routes never read users.
