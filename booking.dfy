/**
 * The booking lifecycle routes and the midnight maintenance sweep.
 * The store is a class whose fields are the collections the routes change;
 * each route is a method that performs the route's store operations in the route's order.
 */
module BookingRouter {

  import opened Wrappers
  import opened Seqs
  import opened Tables
  import opened Records
  import opened Cost

  // ---------------------------------------------------------------------------
  // The midnight sweep

  /** The sweep's update filter: a paid booking whose window has started. */
  predicate Due(b: Booking, now: int)
  {
    b.state == State.PAID && b.timeStart <= now
  }

  /** The sweep's delete filter: a pending booking whose window has started. */
  predicate Stale(b: Booking, now: int)
  {
    b.state == PENDING && b.timeStart <= now
  }

  /** The update `{ $set: { state: 'COMPLETED' } }` applied where the filter matches. */
  function Complete(b: Booking, now: int): Booking
  {
    if Due(b, now) then b.(state := COMPLETED) else b
  }

  function Completer(now: int): Booking -> Booking
  {
    b => Complete(b, now)
  }

  function NotStale(now: int): Booking -> bool
  {
    b => !Stale(b, now)
  }

  /** `updateMany` of the sweep: every due booking becomes COMPLETED, nothing else changes. */
  function CompleteDue(t: Table<BookingId, Booking>, now: int): (u: Table<BookingId, Booking>)
    requires t.Valid()
    ensures u.Valid() && u.keys == t.keys && u.rows.Keys == t.rows.Keys
    ensures forall k :: k in t.rows && Due(t.rows[k], now) ==> u.rows[k] == t.rows[k].(state := COMPLETED)
    ensures forall k :: k in t.rows && !Due(t.rows[k], now) ==> u.rows[k] == t.rows[k]
  {
    t.MapRows(Completer(now))
  }

  /** `deleteMany` of the sweep: every stale booking is gone, the rest is untouched. */
  function ReapStale(t: Table<BookingId, Booking>, now: int): (u: Table<BookingId, Booking>)
    requires t.Valid()
    ensures u.Valid()
    ensures forall k :: k in u.rows ==> k in t.rows && !Stale(t.rows[k], now) && u.rows[k] == t.rows[k]
    ensures forall k :: k in t.rows && !Stale(t.rows[k], now) ==> k in u.rows
    ensures u.keys == Filter(t.keys, KeptBy(t.rows, NotStale(now)))
  {
    t.Restrict(NotStale(now))
  }

  /**
   * Both bulk operations in the source's order. Stale bookings are deleted; every other
   * booking stays, completed if it was due and unchanged otherwise.
   */
  function Swept(t: Table<BookingId, Booking>, now: int): (u: Table<BookingId, Booking>)
    requires t.Valid()
    ensures u.Valid()
    ensures forall k :: k in u.rows ==> k in t.rows && !Stale(t.rows[k], now)
    ensures forall k :: k in t.rows && !Stale(t.rows[k], now) ==> k in u.rows
    ensures forall k :: k in u.rows && Due(t.rows[k], now) ==> u.rows[k] == t.rows[k].(state := COMPLETED)
    ensures forall k :: k in u.rows && !Due(t.rows[k], now) ==> u.rows[k] == t.rows[k]
    ensures u.keys == Filter(t.keys, KeptBy(t.rows, NotStale(now)))
  {
    var c := CompleteDue(t, now);
    FilterCongruent(t.keys, KeptBy(c.rows, NotStale(now)), KeptBy(t.rows, NotStale(now)));
    ReapStale(c, now)
  }

  /** After a sweep nothing is due or stale any more. */
  lemma SweptLeavesNothingToDo(t: Table<BookingId, Booking>, now: int, k: BookingId)
    requires t.Valid() && k in Swept(t, now).rows
    ensures !Due(Swept(t, now).rows[k], now) && !Stale(Swept(t, now).rows[k], now)
  {
  }

  /** Completing a table in which nothing is due changes nothing. */
  lemma CompleteDueNoop(t: Table<BookingId, Booking>, now: int)
    requires t.Valid()
    requires forall k :: k in t.rows ==> !Due(t.rows[k], now)
    ensures CompleteDue(t, now) == t
  {
    assert CompleteDue(t, now).rows == t.rows;
  }

  /** Reaping a table in which nothing is stale changes nothing. */
  lemma ReapStaleNoop(t: Table<BookingId, Booking>, now: int)
    requires t.Valid()
    requires forall k :: k in t.rows ==> !Stale(t.rows[k], now)
    ensures ReapStale(t, now) == t
  {
    FilterKeepsAll(t.keys, KeptBy(t.rows, NotStale(now)));
    assert ReapStale(t, now).rows == t.rows;
  }

  /** Running the sweep twice with the same clock is the same as running it once. */
  lemma SweptIdempotent(t: Table<BookingId, Booking>, now: int)
    requires t.Valid()
    ensures Swept(Swept(t, now), now) == Swept(t, now)
  {
    var u := Swept(t, now);
    forall k | k in u.rows
      ensures !Due(u.rows[k], now) && !Stale(u.rows[k], now)
    {
      SweptLeavesNothingToDo(t, now, k);
    }
    CompleteDueNoop(u, now);
    ReapStaleNoop(u, now);
  }

  // ---------------------------------------------------------------------------
  // PATCH /bookings/:id

  /** The one key a patch may carry. */
  const AllowedUpdates: seq<string> := ["accepted"]

  /** One key-value pair of a request body, in the body's key order. */
  datatype Field = Field(name: string, value: bool)

  /** `Object.keys(req.body)`. */
  function Updates(body: seq<Field>): (names: seq<string>)
    ensures |names| == |body|
    ensures forall i :: 0 <= i < |body| ==> names[i] == body[i].name
  {
    seq(|body|, i requires 0 <= i < |body| => body[i].name)
  }

  /** `updates.every(update => allowed.includes(update))`. */
  function IsValidOperation(updates: seq<string>, allowed: seq<string>): (ok: bool)
    ensures ok <==> forall i :: 0 <= i < |updates| ==> updates[i] in allowed
  {
    if updates == [] then true
    else updates[0] in allowed && IsValidOperation(updates[1..], allowed)
  }

  /** A patch passes the allow-list exactly when every key is `accepted`; an empty body passes. */
  lemma PatchAllowList(body: seq<Field>)
    ensures IsValidOperation(Updates(body), AllowedUpdates) <==>
            forall i :: 0 <= i < |body| ==> body[i].name == "accepted"
    ensures IsValidOperation(Updates([]), AllowedUpdates)
  {
  }

  /** The value a body gives `accepted`; of repeated keys the last one counts, as in JSON parsing. */
  function AcceptedValue(body: seq<Field>): (v: Option<bool>)
    ensures v.None? <==> forall i :: 0 <= i < |body| ==> body[i].name != "accepted"
    ensures v.Some? ==> Field("accepted", v.value) in body
  {
    if body == [] then None
    else if body[|body| - 1].name == "accepted" then Some(body[|body| - 1].value)
    else
      var front := body[..|body| - 1];
      assert forall i :: 0 <= i < |front| ==> front[i] == body[i];
      AcceptedValue(front)
  }

  /** A later `accepted` key overrides the earlier ones; other keys leave the value alone. */
  lemma AcceptedValueLastWins(body: seq<Field>, f: Field)
    ensures f.name == "accepted" ==> AcceptedValue(body + [f]) == Some(f.value)
    ensures f.name != "accepted" ==> AcceptedValue(body + [f]) == AcceptedValue(body)
  {
    assert (body + [f])[..|body|] == body;
  }

  /** `findByIdAndUpdate(id, req.body)` on a body that passed the allow-list. */
  function Patched(b: Booking, body: seq<Field>): (p: Booking)
    ensures p.(accepted := b.accepted) == b
    ensures AcceptedValue(body).Some? ==> p.accepted == AcceptedValue(body).value
    ensures AcceptedValue(body).None? ==> p == b
  {
    match AcceptedValue(body)
    case None => b
    case Some(v) => b.(accepted := v)
  }

  // ---------------------------------------------------------------------------
  // The store and its routes

  /** How the sweep's `try` block ends: normally, or by an error thrown by one of its two operations. */
  datatype SweepFault = NoFault | CompleteFails | ReapFails

  /** The fields of a creation request the model uses. */
  datatype BookingRequest = BookingRequest(charger: ChargerId, timeStart: int, timeEnd: int)

  /**
   * The booking `/newBooking` saves: the request's fields, the authenticated client, the cost
   * from the charger's rate, and the schema defaults (PENDING, no feedback, not accepted).
   */
  function NewBooking(req: BookingRequest, client: UserId, charger: Charger): (b: Booking)
    ensures b.charger == req.charger && b.client == client && b.state == PENDING
    ensures b.timeStart == req.timeStart && b.timeEnd == req.timeEnd
    ensures 100.0 * ExactCost(charger.rate, req.timeStart, req.timeEnd) - 0.5 <= b.cost as real
    ensures b.cost as real <= 100.0 * ExactCost(charger.rate, req.timeStart, req.timeEnd) + 0.5
    ensures charger.rate >= 0.0 && req.timeStart <= req.timeEnd ==> b.cost >= 0
  {
    Booking(req.charger, client, req.timeStart, req.timeEnd, PENDING,
            BookingCost(charger.rate, req.timeStart, req.timeEnd), false, false)
  }

  /** The collections the routes use: bookings and notifications change, chargers are read. */
  class BookingStore {

    var bookings: Table<BookingId, Booking>
    const chargers: Table<ChargerId, Charger>
    /** Append-only: routes add notifications, nothing here removes or edits one. */
    var notifications: seq<Notification>
    /** Every id at or above nextId is unused; stands for the store's fresh object ids. */
    var nextId: BookingId

    ghost predicate Valid()
      reads this
    {
      && bookings.Valid()
      && chargers.Valid()
      && (forall k :: k in bookings.rows ==> k < nextId)
      && (forall i :: 0 <= i < |notifications| ==> notifications[i].booking < nextId)
    }

    /** Every booking names a stored charger; the routes keep this when it holds. */
    ghost predicate ChargersResolve()
      reads this
    {
      forall k :: k in bookings.rows ==> bookings.rows[k].charger in chargers.rows
    }

    constructor (bookings0: Table<BookingId, Booking>, chargers0: Table<ChargerId, Charger>, nextId0: BookingId)
      requires bookings0.Valid() && chargers0.Valid()
      requires forall k :: k in bookings0.rows ==> k < nextId0
      ensures Valid()
      ensures bookings == bookings0 && chargers == chargers0 && notifications == [] && nextId == nextId0
    {
      bookings := bookings0;
      chargers := chargers0;
      notifications := [];
      nextId := nextId0;
    }

    /** POST /newBooking. An unknown charger throws before anything is saved (400). */
    method CreateBooking(client: UserId, req: BookingRequest) returns (status: Status, sent: Option<Booking>)
      requires Valid()
      modifies this
      ensures Valid()
      ensures old(ChargersResolve()) ==> ChargersResolve()
      ensures req.charger !in chargers.rows ==>
                status == BadRequest && sent == None && unchanged(this)
      ensures req.charger in chargers.rows ==>
                var b := NewBooking(req, client, chargers.rows[req.charger]);
                && old(nextId) !in old(bookings.rows)
                && status == Ok && sent == Some(b)
                && bookings == old(bookings).Put(old(nextId), b)
                && nextId == old(nextId) + 1
                && notifications == old(notifications) + [Notification(old(nextId), chargers.rows[req.charger].owner, NEWREQ, false)]
    {
      match chargers.Get(req.charger)
      case None =>
        status, sent := BadRequest, None;
      case Some(charger) =>
        var b := NewBooking(req, client, charger);
        bookings := bookings.Put(nextId, b);
        notifications := notifications + [Notification(nextId, charger.owner, NEWREQ, false)];
        nextId := nextId + 1;
        status, sent := Ok, Some(b);
    }

    /**
     * POST /acceptBooking. The state becomes UNPAID whatever it was; the reply is the document as it
     * was before the update. An unknown id makes `booking.client` throw (400).
     */
    method Accept(id: BookingId) returns (status: Status, sent: Option<Booking>)
      requires Valid()
      modifies this
      ensures Valid()
      ensures old(ChargersResolve()) ==> ChargersResolve()
      ensures id !in old(bookings.rows) ==>
                status == BadRequest && sent == None && unchanged(this)
      ensures id in old(bookings.rows) ==>
                var b := old(bookings.rows[id]);
                && status == Ok && sent == Some(b)
                && bookings == old(bookings).Put(id, b.(state := UNPAID))
                && notifications == old(notifications) + [Notification(id, b.client, ACCEPTED, false)]
                && nextId == old(nextId)
    {
      match bookings.Get(id)
      case None =>
        status, sent := BadRequest, None;
      case Some(b) =>
        bookings := bookings.Put(id, b.(state := UNPAID));
        notifications := notifications + [Notification(id, b.client, ACCEPTED, false)];
        status, sent := Ok, Some(b);
    }

    /** DELETE /declineBooking. Removes the booking in any state; an unknown id is reported as 404. */
    method Decline(id: BookingId) returns (status: Status, sent: Option<Booking>)
      requires Valid()
      modifies this
      ensures Valid()
      ensures old(ChargersResolve()) ==> ChargersResolve()
      ensures id !in old(bookings.rows) ==>
                status == NotFound && sent == None && unchanged(this)
      ensures id in old(bookings.rows) ==>
                var b := old(bookings.rows[id]);
                && status == Ok && sent == Some(b)
                && bookings == old(bookings).Remove(id)
                && notifications == old(notifications) + [Notification(id, b.client, DECLINED, false)]
                && nextId == old(nextId)
    {
      match bookings.Get(id)
      case None =>
        status, sent := NotFound, None;
      case Some(b) =>
        bookings := bookings.Remove(id);
        notifications := notifications + [Notification(id, b.client, DECLINED, false)];
        status, sent := Ok, Some(b);
    }

    /**
     * POST /payBooking. The state becomes PAID whatever it was; then the owner is notified and the
     * notification is the reply. If the charger is gone, `charger.owner` throws (400) and PAID stays.
     */
    method Pay(id: BookingId) returns (status: Status, sent: Option<Notification>)
      requires Valid()
      modifies this
      ensures Valid()
      ensures old(ChargersResolve()) ==> ChargersResolve()
      ensures id !in old(bookings.rows) ==>
                status == BadRequest && sent == None && unchanged(this)
      ensures id in old(bookings.rows) ==>
                var b := old(bookings.rows[id]);
                && bookings == old(bookings).Put(id, b.(state := State.PAID))
                && nextId == old(nextId)
                && (b.charger in chargers.rows ==>
                      var n := Notification(id, chargers.rows[b.charger].owner, Tag.PAID, false);
                      status == Ok && sent == Some(n) && notifications == old(notifications) + [n])
                && (b.charger !in chargers.rows ==>
                      status == BadRequest && sent == None && notifications == old(notifications))
    {
      match bookings.Get(id)
      case None =>
        status, sent := BadRequest, None;
      case Some(b) =>
        bookings := bookings.Put(id, b.(state := State.PAID));
        match chargers.Get(b.charger)
        case None =>
          status, sent := BadRequest, None;
        case Some(charger) =>
          var n := Notification(id, charger.owner, Tag.PAID, false);
          notifications := notifications + [n];
          status, sent := Ok, Some(n);
    }

    /**
     * DELETE /cancelBooking: remove first, then decide. An unknown id makes `booking.charger` throw
     * before the null check (500). A PAID booking is put back (500), as the `save()` call intends:
     * its document is as before and it now comes last in the natural order. Otherwise it stays removed, the client is notified and
     * then the owner; if the charger is gone, the second notification throws (500).
     */
    method Cancel(id: BookingId) returns (status: Status, sent: Option<Booking>)
      requires Valid()
      modifies this
      ensures Valid()
      ensures old(ChargersResolve()) ==> ChargersResolve()
      ensures nextId == old(nextId)
      ensures id !in old(bookings.rows) ==>
                status == ServerError && sent == None && unchanged(this)
      ensures id in old(bookings.rows) && old(bookings.rows[id]).state == State.PAID ==>
                && status == ServerError && sent == None
                && bookings.rows == old(bookings.rows)
                && bookings == old(bookings).Remove(id).Put(id, old(bookings.rows[id]))
                && notifications == old(notifications)
      ensures id in old(bookings.rows) && old(bookings.rows[id]).state != State.PAID ==>
                && bookings == old(bookings).Remove(id)
                && CancelNotified(old(bookings.rows[id]), id, status, sent, old(notifications))
    {
      if id !in bookings.rows {
        return ServerError, None;
      }
      var b := bookings.rows[id];
      bookings := bookings.Remove(id);
      if b.state == State.PAID {
        bookings := bookings.Put(id, b);
        RemovePutRestores(old(bookings), id);
        status, sent := ServerError, None;
      } else {
        status, sent := NotifyCancelled(id, b);
      }
    }

    /**
     * What cancel sends after removing a booking that was not PAID: CANCELLED to the client, then to
     * the owner; if the charger is gone, the second notification throws (500).
     */
    /**
     * DELETE /cancelBooking exactly as written: `save()` on the removed document updates by id,
     * matches no stored document and so does not put it back. A PAID booking is lost.
     */
    method CancelAsWritten(id: BookingId) returns (status: Status, sent: Option<Booking>)
      requires Valid()
      modifies this
      ensures Valid()
      ensures nextId == old(nextId)
      ensures id !in old(bookings.rows) ==>
                status == ServerError && sent == None && unchanged(this)
      ensures id in old(bookings.rows) && old(bookings.rows[id]).state == State.PAID ==>
                && status == ServerError && sent == None
                && bookings == old(bookings).Remove(id) && id !in bookings.rows
                && notifications == old(notifications)
      ensures id in old(bookings.rows) && old(bookings.rows[id]).state != State.PAID ==>
                && bookings == old(bookings).Remove(id)
                && CancelNotified(old(bookings.rows[id]), id, status, sent, old(notifications))
    {
      if id !in bookings.rows {
        return ServerError, None;
      }
      var b := bookings.rows[id];
      bookings := bookings.Remove(id);
      if b.state == State.PAID {
        status, sent := ServerError, None;
      } else {
        status, sent := NotifyCancelled(id, b);
      }
    }

    ghost predicate CancelNotified(b: Booking, id: BookingId, status: Status, sent: Option<Booking>, before: seq<Notification>)
      reads this
    {
      var toClient := Notification(id, b.client, CANCELLED, false);
      && (b.charger in chargers.rows ==>
            && status == Ok && sent == Some(b)
            && notifications == before + [toClient, Notification(id, chargers.rows[b.charger].owner, CANCELLED, false)])
      && (b.charger !in chargers.rows ==>
            status == ServerError && sent == None && notifications == before + [toClient])
    }

    /** The notifying half of cancel: only the notifications change. */
    method NotifyCancelled(id: BookingId, b: Booking) returns (status: Status, sent: Option<Booking>)
      requires Valid() && id < nextId
      modifies this`notifications
      ensures Valid()
      ensures CancelNotified(b, id, status, sent, old(notifications))
    {
      notifications := notifications + [Notification(id, b.client, CANCELLED, false)];
      match chargers.Get(b.charger)
      case None =>
        status, sent := ServerError, None;
      case Some(c) =>
        notifications := notifications + [Notification(id, c.owner, CANCELLED, false)];
        status, sent := Ok, Some(b);
    }

    /**
     * PATCH /bookings/:id. Any key outside the allow-list is refused before the store is touched (400);
     * an unknown id is 404; otherwise the patched document is saved and is the reply.
     */
    method Patch(id: BookingId, body: seq<Field>) returns (status: Status, sent: Option<Booking>)
      requires Valid()
      modifies this
      ensures Valid()
      ensures old(ChargersResolve()) ==> ChargersResolve()
      ensures !IsValidOperation(Updates(body), AllowedUpdates) ==>
                status == BadRequest && sent == None && unchanged(this)
      ensures IsValidOperation(Updates(body), AllowedUpdates) && id !in old(bookings.rows) ==>
                status == NotFound && sent == None && unchanged(this)
      ensures IsValidOperation(Updates(body), AllowedUpdates) && id in old(bookings.rows) ==>
                var b := Patched(old(bookings.rows[id]), body);
                && status == Ok && sent == Some(b)
                && bookings == old(bookings).Put(id, b)
                && notifications == old(notifications) && nextId == old(nextId)
    {
      if !IsValidOperation(Updates(body), AllowedUpdates) {
        return BadRequest, None;
      }
      match bookings.Get(id)
      case None =>
        status, sent := NotFound, None;
      case Some(b) =>
        var patched := Patched(b, body);
        bookings := bookings.Put(id, patched);
        status, sent := Ok, Some(patched);
    }

    /**
     * The midnight job with one clock reading `now`. Both bulk operations sit in one `try`:
     * if the first throws, the second never runs. No notification is sent.
     */
    method Sweep(now: int, fault: SweepFault)
      requires Valid()
      modifies this
      ensures Valid()
      ensures old(ChargersResolve()) ==> ChargersResolve()
      ensures fault == NoFault ==> bookings == Swept(old(bookings), now)
      ensures fault == CompleteFails ==> bookings == old(bookings)
      ensures fault == ReapFails ==> bookings == CompleteDue(old(bookings), now)
      ensures notifications == old(notifications) && nextId == old(nextId)
    {
      if fault == CompleteFails {
        return;
      }
      bookings := CompleteDue(bookings, now);
      if fault == ReapFails {
        return;
      }
      bookings := ReapStale(bookings, now);
    }
  }

  /** Declining the same id twice: the second call always reports 404 and adds nothing. */
  method DeclineTwice(store: BookingStore, id: BookingId) returns (first: Status, second: Status)
    requires store.Valid()
    modifies store
    ensures store.Valid()
    ensures (first == Ok) == (id in old(store.bookings.rows))
    ensures second == NotFound
    ensures |store.notifications| == |old(store.notifications)| + (if first == Ok then 1 else 0)
  {
    var sent;
    first, sent := store.Decline(id);
    second, sent := store.Decline(id);
  }

  /** The sweep run twice in a row leaves the bookings as one run does. */
  method SweepTwice(store: BookingStore, now: int)
    requires store.Valid()
    modifies store
    ensures store.Valid()
    ensures store.bookings == Swept(old(store.bookings), now)
    ensures store.notifications == old(store.notifications)
  {
    store.Sweep(now, NoFault);
    store.Sweep(now, NoFault);
    SweptIdempotent(old(store.bookings), now);
  }

  /**
   * One PAID booking, cancelled once: the route as written loses it, the upsert that the
   * `save()` call is there for keeps it, unchanged.
   */
  method PaidCancelCompared() returns (lostAsWritten: bool, keptIntended: bool)
    ensures lostAsWritten && keptIntended
  {
    var b := Booking(0, 0, 0, 3600000, State.PAID, 100, false, true);
    var t := Table([0], map[0 := b]);
    var none: Table<ChargerId, Charger> := Table([], map[]);
    assert Distinct(t.keys) && Distinct(none.keys);
    var asWritten := new BookingStore(t, none, 1);
    var intended := new BookingStore(t, none, 1);
    var s1, r1 := asWritten.CancelAsWritten(0);
    var s2, r2 := intended.Cancel(0);
    lostAsWritten := s1 == ServerError && 0 !in asWritten.bookings.rows;
    keptIntended := s2 == ServerError && 0 in intended.bookings.rows && intended.bookings.rows[0] == b;
  }
}
