/**
 * The host-facing read queries: joins of bookings with their charger and client, and of reviews
 * with their reviewer, filtered by charger and state and fanned out over an owner's chargers.
 * `Promise.all` over `map` keeps the order of its input, so each fan-out is a sequential map.
 */
module HostRouter {

  import opened Wrappers
  import opened Seqs
  import opened Tables
  import opened Records

  // ---------------------------------------------------------------------------
  // getChargerBookings / getHostBookings

  /** One element of a booking listing. bookingID and reviewStatus are None where the source leaves the key out. */
  datatype BookingView = BookingView(
    startTime: int,
    endTime: int,
    cost: int,
    address: string,
    city: string,
    province: string,
    client: string,
    clientID: UserId,
    chargername: string,
    bookingID: Option<BookingId>,
    reviewStatus: Option<bool>)

  /**
   * The join for one booking. None is the undefined slot left when the charger or the client
   * lookup comes back empty and reading a field of it throws.
   */
  function ToView(id: BookingId, b: Booking, chargers: Table<ChargerId, Charger>, users: map<UserId, User>, state: State): (v: Option<BookingView>)
    ensures v.Some? <==> b.charger in chargers.rows && b.client in users
    ensures v.Some? ==>
              var c := chargers.rows[b.charger];
              && v.value.startTime == b.timeStart && v.value.endTime == b.timeEnd && v.value.cost == b.cost
              && v.value.address == c.address && v.value.city == c.city
              && v.value.province == c.province && v.value.chargername == c.chargername
              && v.value.client == users[b.client].name && v.value.clientID == b.client
              && (v.value.bookingID.Some? <==> state == PENDING || state == COMPLETED)
              && (v.value.bookingID.Some? ==> v.value.bookingID.value == id)
              && (v.value.reviewStatus.Some? <==> state == COMPLETED)
              && (v.value.reviewStatus.Some? ==> v.value.reviewStatus.value == b.userFeedback)
  {
    match chargers.Get(b.charger)
    case None => None
    case Some(c) =>
      if b.client !in users then None
      else
        Some(BookingView(
               b.timeStart, b.timeEnd, b.cost,
               c.address, c.city, c.province,
               users[b.client].name, b.client, c.chargername,
               if state == PENDING || state == COMPLETED then Some(id) else None,
               if state == COMPLETED then Some(b.userFeedback) else None))
  }

  /** The filter `{ charger: c, state: state }`. */
  function Matching(rows: map<BookingId, Booking>, c: ChargerId, state: State): BookingId -> bool
  {
    id => id in rows && rows[id].charger == c && rows[id].state == state
  }

  /** `Booking.find({ charger: c, state: state })`: the matching ids, in natural order. */
  function MatchingIds(bookings: Table<BookingId, Booking>, c: ChargerId, state: State): (ids: seq<BookingId>)
    ensures forall i :: 0 <= i < |ids| ==>
              ids[i] in bookings.rows && bookings.rows[ids[i]].charger == c && bookings.rows[ids[i]].state == state
  {
    var ids := Filter(bookings.keys, Matching(bookings.rows, c, state));
    assert forall i :: 0 <= i < |ids| ==> ids[i] in ids;
    ids
  }

  /** getChargerBookings(c, state): one slot per matching booking, in the order `find` returns them. */
  function ChargerBookings(bookings: Table<BookingId, Booking>, chargers: Table<ChargerId, Charger>,
                           users: map<UserId, User>, c: ChargerId, state: State): (r: seq<Option<BookingView>>)
    ensures |r| == |MatchingIds(bookings, c, state)|
    ensures forall i :: 0 <= i < |r| ==>
              var id := MatchingIds(bookings, c, state)[i];
              && id in bookings.rows && bookings.rows[id].charger == c && bookings.rows[id].state == state
              && r[i] == ToView(id, bookings.rows[id], chargers, users, state)
  {
    var ids := MatchingIds(bookings, c, state);
    seq(|ids|, i requires 0 <= i < |ids| => ToView(ids[i], bookings.rows[ids[i]], chargers, users, state))
  }

  /** The listing has exactly one slot per stored booking of that charger in that state. */
  lemma ChargerBookingsCount(bookings: Table<BookingId, Booking>, chargers: Table<ChargerId, Charger>,
                             users: map<UserId, User>, c: ChargerId, state: State)
    requires bookings.Valid()
    ensures |ChargerBookings(bookings, chargers, users, c, state)| ==
            |set id | id in bookings.rows && bookings.rows[id].charger == c && bookings.rows[id].state == state|
  {
    var ids := MatchingIds(bookings, c, state);
    FilterDistinct(bookings.keys, Matching(bookings.rows, c, state));
    assert Elems(ids) == set id | id in bookings.rows && bookings.rows[id].charger == c && bookings.rows[id].state == state;
    DistinctCard(ids);
  }

  /** Every stored booking of that charger in that state has its join in the listing. */
  lemma ChargerBookingsComplete(bookings: Table<BookingId, Booking>, chargers: Table<ChargerId, Charger>,
                                users: map<UserId, User>, c: ChargerId, state: State, id: BookingId)
    requires bookings.Valid()
    requires id in bookings.rows && bookings.rows[id].charger == c && bookings.rows[id].state == state
    ensures ToView(id, bookings.rows[id], chargers, users, state) in ChargerBookings(bookings, chargers, users, c, state)
  {
    var ids := MatchingIds(bookings, c, state);
    assert id in Elems(bookings.keys);
    assert id in ids;
    var i :| 0 <= i < |ids| && ids[i] == id;
    assert ChargerBookings(bookings, chargers, users, c, state)[i] == ToView(id, bookings.rows[id], chargers, users, state);
  }

  /** The filter `{ owner: owner }` on chargers. */
  function OwnedBy(rows: map<ChargerId, Charger>, owner: UserId): ChargerId -> bool
  {
    k => k in rows && rows[k].owner == owner
  }

  /** `Charger.find({ owner })`: the owner's chargers, in natural order. */
  function OwnedChargers(chargers: Table<ChargerId, Charger>, owner: UserId): (cs: seq<ChargerId>)
    ensures forall k :: k in cs ==> k in chargers.rows && chargers.rows[k].owner == owner
    ensures forall k :: k in chargers.keys && k in chargers.rows && chargers.rows[k].owner == owner ==> k in cs
    ensures |cs| <= |chargers.keys|
  {
    Filter(chargers.keys, OwnedBy(chargers.rows, owner))
  }

  /** The fan-out: the listing of each charger of cs, in the order of cs. */
  function PerCharger(bookings: Table<BookingId, Booking>, chargers: Table<ChargerId, Charger>,
                      users: map<UserId, User>, cs: seq<ChargerId>, state: State): (rs: seq<seq<Option<BookingView>>>)
    ensures |rs| == |cs|
    ensures forall i :: 0 <= i < |cs| ==> rs[i] == ChargerBookings(bookings, chargers, users, cs[i], state)
  {
    seq(|cs|, i requires 0 <= i < |cs| => ChargerBookings(bookings, chargers, users, cs[i], state))
  }

  /**
   * getHostBookings(owner, state): the per-charger listings of the owner's chargers, concatenated,
   * so exactly as long as those listings together.
   */
  function HostBookings(bookings: Table<BookingId, Booking>, chargers: Table<ChargerId, Charger>,
                        users: map<UserId, User>, owner: UserId, state: State): (r: seq<Option<BookingView>>)
    ensures |r| == SumLengths(PerCharger(bookings, chargers, users, OwnedChargers(chargers, owner), state))
  {
    Flatten(PerCharger(bookings, chargers, users, OwnedChargers(chargers, owner), state))
  }

  /** Every filled slot of the host listing joins a stored booking in that state on one of the owner's chargers. */
  lemma HostBookingsSound(bookings: Table<BookingId, Booking>, chargers: Table<ChargerId, Charger>,
                          users: map<UserId, User>, owner: UserId, state: State, v: BookingView)
    requires Some(v) in HostBookings(bookings, chargers, users, owner, state)
    ensures exists id :: && id in bookings.rows && bookings.rows[id].state == state
                         && bookings.rows[id].charger in chargers.rows
                         && chargers.rows[bookings.rows[id].charger].owner == owner
                         && ToView(id, bookings.rows[id], chargers, users, state) == Some(v)
  {
    var cs := OwnedChargers(chargers, owner);
    var rs := PerCharger(bookings, chargers, users, cs, state);
    FlattenMember(rs, Some(v));
    var i :| 0 <= i < |rs| && Some(v) in rs[i];
    var ids := MatchingIds(bookings, cs[i], state);
    var j :| 0 <= j < |rs[i]| && rs[i][j] == Some(v);
    var id := ids[j];
    assert cs[i] in cs;
    assert bookings.rows[id].charger == cs[i];
    assert ToView(id, bookings.rows[id], chargers, users, state) == Some(v);
  }

  /** Every stored booking in that state on one of the owner's chargers has its join in the host listing. */
  lemma HostBookingsComplete(bookings: Table<BookingId, Booking>, chargers: Table<ChargerId, Charger>,
                             users: map<UserId, User>, owner: UserId, state: State, id: BookingId)
    requires bookings.Valid() && chargers.Valid()
    requires id in bookings.rows && bookings.rows[id].state == state
    requires bookings.rows[id].charger in chargers.rows && chargers.rows[bookings.rows[id].charger].owner == owner
    ensures ToView(id, bookings.rows[id], chargers, users, state) in HostBookings(bookings, chargers, users, owner, state)
  {
    var c := bookings.rows[id].charger;
    var cs := OwnedChargers(chargers, owner);
    var rs := PerCharger(bookings, chargers, users, cs, state);
    assert c in Elems(chargers.keys);
    assert c in cs;
    var i :| 0 <= i < |cs| && cs[i] == c;
    ChargerBookingsComplete(bookings, chargers, users, c, state, id);
    assert ToView(id, bookings.rows[id], chargers, users, state) in rs[i];
    FlattenMember(rs, ToView(id, bookings.rows[id], chargers, users, state));
  }

  // ---------------------------------------------------------------------------
  // getChargerReviews / allChargerReviews

  /** A review as the listing returns it: the reviewer id replaced by the reviewer's name. */
  datatype ReviewView = ReviewView(reviewee: ChargerId, reviewer: string, content: string)

  function Named(r: Review, name: string): ReviewView
  {
    ReviewView(r.reviewee, name, r.content)
  }

  /** The filter `{ reviewee: c }`. */
  function AddressedTo(c: ChargerId): Review -> bool
  {
    (r: Review) => r.reviewee == c
  }

  /**
   * Resolving every reviewer under one `Promise.all`: one unknown reviewer rejects the whole list,
   * otherwise each review gets its reviewer's name, in order.
   */
  function NameReviewers(rs: seq<Review>, users: map<UserId, User>): (r: Option<seq<ReviewView>>)
    ensures r.Some? <==> forall i :: 0 <= i < |rs| ==> rs[i].reviewer in users
    ensures r.Some? ==> |r.value| == |rs|
    ensures r.Some? ==> forall i :: 0 <= i < |rs| ==> r.value[i] == Named(rs[i], users[rs[i].reviewer].name)
  {
    if rs == [] then Some([])
    else if rs[0].reviewer !in users then None
    else
      match NameReviewers(rs[1..], users)
      case None => None
      case Some(tail) => Some([Named(rs[0], users[rs[0].reviewer].name)] + tail)
  }

  /** getChargerReviews(c): the reviews of c with reviewer names, or failure. */
  function ChargerReviews(reviews: seq<Review>, users: map<UserId, User>, c: ChargerId): (r: Option<seq<ReviewView>>)
    ensures r.Some? <==> forall x :: x in reviews && x.reviewee == c ==> x.reviewer in users
    ensures r.Some? ==> |r.value| == |Filter(reviews, AddressedTo(c))|
  {
    var rs := Filter(reviews, AddressedTo(c));
    assert forall i :: 0 <= i < |rs| ==> rs[i] in rs;
    NameReviewers(rs, users)
  }

  /** A successful review listing holds exactly the named reviews addressed to c. */
  lemma ChargerReviewsMember(reviews: seq<Review>, users: map<UserId, User>, c: ChargerId, y: ReviewView)
    requires ChargerReviews(reviews, users, c).Some?
    ensures y in ChargerReviews(reviews, users, c).value <==>
            exists x :: x in reviews && x.reviewee == c && x.reviewer in users && y == Named(x, users[x.reviewer].name)
  {
    var rs := Filter(reviews, AddressedTo(c));
    var r := ChargerReviews(reviews, users, c).value;
    if y in r {
      var i :| 0 <= i < |r| && r[i] == y;
      assert rs[i] in rs;
    }
    if exists x :: x in reviews && x.reviewee == c && x.reviewer in users && y == Named(x, users[x.reviewer].name) {
      var x :| x in reviews && x.reviewee == c && x.reviewer in users && y == Named(x, users[x.reviewer].name);
      assert x in rs;
      var i :| 0 <= i < |rs| && rs[i] == x;
      assert r[i] == y;
    }
  }

  /** The fan-out: the review listing of each charger of cs, in the order of cs. */
  function ReviewsPerCharger(reviews: seq<Review>, users: map<UserId, User>, cs: seq<ChargerId>): (rs: seq<Option<seq<ReviewView>>>)
    ensures |rs| == |cs|
    ensures forall i :: 0 <= i < |cs| ==> rs[i] == ChargerReviews(reviews, users, cs[i])
  {
    seq(|cs|, i requires 0 <= i < |cs| => ChargerReviews(reviews, users, cs[i]))
  }

  /** The values of listings that all succeeded, what `Promise.all` resolves to. */
  function Resolved(lists: seq<Option<seq<ReviewView>>>): (parts: seq<seq<ReviewView>>)
    requires forall i :: 0 <= i < |lists| ==> lists[i].Some?
    ensures |parts| == |lists|
    ensures forall i :: 0 <= i < |lists| ==> parts[i] == lists[i].value
  {
    seq(|lists|, i requires 0 <= i < |lists| => lists[i].value)
  }

  /** /allChargerReviews: all listings concatenated once every one succeeded; any failure fails the route. */
  function AllChargerReviews(reviews: seq<Review>, users: map<UserId, User>,
                             chargers: Table<ChargerId, Charger>, owner: UserId): (r: Option<seq<ReviewView>>)
    ensures r.Some? <==> forall x :: x in reviews && x.reviewee in OwnedChargers(chargers, owner) ==> x.reviewer in users
  {
    var cs := OwnedChargers(chargers, owner);
    var lists := ReviewsPerCharger(reviews, users, cs);
    assert (forall i :: 0 <= i < |lists| ==> lists[i].Some?) <==>
           (forall x :: x in reviews && x.reviewee in cs ==> x.reviewer in users) by {
      if forall i :: 0 <= i < |lists| ==> lists[i].Some? {
        forall x | x in reviews && x.reviewee in cs
          ensures x.reviewer in users
        {
          var i :| 0 <= i < |cs| && cs[i] == x.reviewee;
          assert lists[i].Some?;
        }
      }
    }
    if forall i :: 0 <= i < |lists| ==> lists[i].Some? then Some(Flatten(Resolved(lists))) else None
  }

  /** The route answers exactly when every review of every charger of the owner names a known user. */
  lemma AllChargerReviewsSucceeds(reviews: seq<Review>, users: map<UserId, User>,
                                  chargers: Table<ChargerId, Charger>, owner: UserId)
    requires chargers.Valid()
    ensures AllChargerReviews(reviews, users, chargers, owner).Some? <==>
            forall x :: x in reviews && x.reviewee in chargers.rows && chargers.rows[x.reviewee].owner == owner ==>
                          x.reviewer in users
  {
    var cs := OwnedChargers(chargers, owner);
    var lists := ReviewsPerCharger(reviews, users, cs);
    if AllChargerReviews(reviews, users, chargers, owner).Some? {
      forall x | x in reviews && x.reviewee in chargers.rows && chargers.rows[x.reviewee].owner == owner
        ensures x.reviewer in users
      {
        assert x.reviewee in Elems(chargers.keys);
        assert x.reviewee in cs;
        var i :| 0 <= i < |cs| && cs[i] == x.reviewee;
        assert lists[i].Some?;
      }
    }
  }

  /** A successful answer holds only named reviews of the owner's chargers. */
  lemma AllChargerReviewsSound(reviews: seq<Review>, users: map<UserId, User>,
                               chargers: Table<ChargerId, Charger>, owner: UserId, y: ReviewView)
    requires AllChargerReviews(reviews, users, chargers, owner).Some?
    requires y in AllChargerReviews(reviews, users, chargers, owner).value
    ensures exists x :: && x in reviews && x.reviewee in chargers.rows && chargers.rows[x.reviewee].owner == owner
                        && x.reviewer in users && y == Named(x, users[x.reviewer].name)
  {
    var cs := OwnedChargers(chargers, owner);
    var lists := ReviewsPerCharger(reviews, users, cs);
    var parts := Resolved(lists);
    FlattenMember(parts, y);
    var i :| 0 <= i < |parts| && y in parts[i];
    assert cs[i] in cs;
    ChargerReviewsMember(reviews, users, cs[i], y);
  }

  /** A successful answer holds every named review of the owner's chargers. */
  lemma AllChargerReviewsComplete(reviews: seq<Review>, users: map<UserId, User>,
                                  chargers: Table<ChargerId, Charger>, owner: UserId, x: Review)
    requires chargers.Valid()
    requires AllChargerReviews(reviews, users, chargers, owner).Some?
    requires x in reviews && x.reviewee in chargers.rows && chargers.rows[x.reviewee].owner == owner
    ensures x.reviewer in users
    ensures Named(x, users[x.reviewer].name) in AllChargerReviews(reviews, users, chargers, owner).value
  {
    AllChargerReviewsSucceeds(reviews, users, chargers, owner);
    var cs := OwnedChargers(chargers, owner);
    var lists := ReviewsPerCharger(reviews, users, cs);
    var parts := Resolved(lists);
    var y := Named(x, users[x.reviewer].name);
    assert x.reviewee in Elems(chargers.keys);
    assert x.reviewee in cs;
    var i :| 0 <= i < |cs| && cs[i] == x.reviewee;
    ChargerReviewsMember(reviews, users, cs[i], y);
    assert y in parts[i];
    FlattenMember(parts, y);
  }
}
