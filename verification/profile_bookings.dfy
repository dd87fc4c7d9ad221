/**
  The customer's booking history page: how it reads the bookings out of the
  `GET /api/bookings` response, its status filter, the day count of each
  booking, what each row shows and offers, and the summary cards.

  The route answers `{ success, data }`, while the page reads a property
  named `bookings` and falls back to `[]`. `LoadedBookingsAsWritten` models
  that read and `LoadedBookings` the evidently intended one.
 */
module ProfileBookings {
  import opened Common
  import opened Domain
  import opened Seqs
  import BookingAdmission

  // ---------------------------------------------------------------------------
  // Loading

  /** The JSON body of a successful `GET /api/bookings`. */
  datatype BookingsBody = BookingsBody(success: bool, data: seq<Booking>)

  /** Reading a list property of the body: the only one it has is `data`. */
  function ListProperty(body: BookingsBody, name: string): (r: Option<seq<Booking>>)
    ensures r.Some? <==> name == "data"
    ensures name == "data" ==> r == Some(body.data)
  {
    if name == "data" then Some(body.data) else None
  }

  /** `setBookings(data.bookings || [])` as written. */
  function LoadedBookingsAsWritten(body: BookingsBody): (r: seq<Booking>)
    ensures |r| <= |body.data|
  {
    ListProperty(body, "bookings").GetOr([])
  }

  /** As written, the page never holds a booking, whatever the route returns. */
  lemma LoadedBookingsAsWrittenIsEmpty(body: BookingsBody)
    ensures LoadedBookingsAsWritten(body) == []
  {
  }

  /** In particular, a booking the route returns is not listed. */
  lemma RouteBookingNotShownAsWritten(b: Booking)
    ensures b in BookingAdmission.ListBookings([b])
    ensures LoadedBookingsAsWritten(BookingsBody(true, BookingAdmission.ListBookings([b]))) == []
  {
    assert b in multiset([b]);
    LoadedBookingsAsWrittenIsEmpty(BookingsBody(true, BookingAdmission.ListBookings([b])));
  }

  /** The intended read: the response's `data`, or `[]` when it has none. */
  function LoadedBookings(body: BookingsBody): (r: seq<Booking>)
    ensures r == body.data
  {
    ListProperty(body, "data").GetOr([])
  }

  /** With the intended read, the page holds exactly the bookings the route lists. */
  lemma RouteBookingsAreShown(bookings: seq<Booking>)
    ensures forall b :: b in LoadedBookings(BookingsBody(true, BookingAdmission.ListBookings(bookings))) <==> b in bookings
  {
    var listed := BookingAdmission.ListBookings(bookings);
    forall b
      ensures b in listed <==> b in bookings
    {
      assert b in listed <==> b in multiset(listed);
      assert b in bookings <==> b in multiset(bookings);
    }
  }

  // ---------------------------------------------------------------------------
  // Filter and rows

  /** `filteredBookings`: `'ALL'` keeps every booking, a status keeps exactly that status. */
  function FilterBookings(bookings: seq<Booking>, filter: Choice<BookingStatus>): (r: seq<Booking>)
    ensures IsSubsequence(r, bookings)
    ensures forall i :: 0 <= i < |r| ==> Admits(filter, r[i].status)
    ensures forall i :: 0 <= i < |bookings| && Admits(filter, bookings[i].status) ==> bookings[i] in r
    ensures forall x :: multiset(r)[x] == if Admits(filter, x.status) then multiset(bookings)[x] else 0
  {
    FilterIsSubsequence(bookings, (b: Booking) => Admits(filter, b.status));
    FilterMultiplicity(bookings, (b: Booking) => Admits(filter, b.status));
    Filter(bookings, (b: Booking) => Admits(filter, b.status))
  }

  lemma AllFilterShowsEverything(bookings: seq<Booking>)
    ensures FilterBookings(bookings, All) == bookings
  {
    FilterAll(bookings, (b: Booking) => Admits(All, b.status));
  }

  /** `calculateDays` on two timestamps: the whole days between them, rounded up, in either order. */
  function CalculateDays(start: int, end: int): (d: nat)
    ensures (d - 1) * MillisPerDay < (if end >= start then end - start else start - end) <= d * MillisPerDay
  {
    var diff := if end >= start then end - start else start - end;
    (diff + MillisPerDay - 1) / MillisPerDay
  }

  /** The day count is symmetric in its two dates and 0 exactly when they are equal. */
  lemma CalculateDaysSymmetric(start: int, end: int)
    ensures CalculateDays(start, end) == CalculateDays(end, start)
    ensures CalculateDays(start, end) == 0 <==> start == end
  {
  }

  /** On midnight timestamps, which is what stored dates are, it is the distance between the day numbers. */
  lemma CalculateDaysOfDays(s: int, e: int)
    ensures CalculateDays(s * MillisPerDay, e * MillisPerDay) == if e >= s then e - s else s - e
  {
    var d := CalculateDays(s * MillisPerDay, e * MillisPerDay);
    var n := if e >= s then e - s else s - e;
    assert (if e * MillisPerDay >= s * MillisPerDay then e * MillisPerDay - s * MillisPerDay
            else s * MillisPerDay - e * MillisPerDay) == n * MillisPerDay;
    assert (d - 1) * MillisPerDay < n * MillisPerDay <= d * MillisPerDay;
  }

  /** For a booking the route accepted with `start <= end`, the shown days times the daily price is the stored price. */
  lemma ShownDaysGiveServerPrice(s: int, e: int, pricePerDay: int)
    requires s <= e
    ensures CalculateDays(s * MillisPerDay, e * MillisPerDay) * pricePerDay == BookingAdmission.ServerPrice(s, e, pricePerDay)
  {
    CalculateDaysOfDays(s, e);
  }

  /** The arrow and return location of a row: only when one is stored and it differs from the pickup. */
  function ShownReturnLocation(b: Booking): (r: Option<string>)
    ensures r.Some? <==> b.returnLocation != "" && b.returnLocation != b.pickupLocation
    ensures r.Some? ==> r.value == b.returnLocation
  {
    if b.returnLocation != "" && b.returnLocation != b.pickupLocation then Some(b.returnLocation) else None
  }

  /** A booking returned where it was picked up shows no return location. */
  lemma SameReturnLocationHidden(b: Booking)
    requires b.returnLocation == b.pickupLocation
    ensures ShownReturnLocation(b).None?
  {
  }

  /** The cancel button is offered for pending bookings only. */
  predicate CancelOffered(b: Booking)
  {
    b.status == Pending
  }

  /**
    The PENDING tab lists exactly the bookings that carry a cancel button, and
    such a booking still holds its vehicle against other requests.
   */
  lemma CancelOfferedUnderPendingTab(bookings: seq<Booking>)
    ensures forall i :: 0 <= i < |FilterBookings(bookings, Only(Pending))| ==>
      CancelOffered(FilterBookings(bookings, Only(Pending))[i])
    ensures forall i :: 0 <= i < |bookings| && CancelOffered(bookings[i]) ==>
      bookings[i] in FilterBookings(bookings, Only(Pending))
    ensures forall b :: CancelOffered(b) ==> BookingAdmission.Blocking(b.status)
  {
  }

  // ---------------------------------------------------------------------------
  // Summary

  datatype Summary = Summary(total: nat, active: nat, amount: int, completed: nat)

  /** The four cards, over all the user's bookings; shown only when there is at least one. */
  function PageSummary(bookings: seq<Booking>): (s: Option<Summary>)
    ensures s.Some? <==> |bookings| > 0
    ensures s.Some? ==>
      && s.value.total == |bookings|
      && s.value.active == Count(bookings, (b: Booking) => b.status == Active || b.status == Confirmed)
      && s.value.completed == Count(bookings, (b: Booking) => b.status == Completed)
      && s.value.amount == Sum(bookings, (b: Booking) => b.totalPrice)
      && s.value.active + s.value.completed <= s.value.total
  {
    CountDisjoint(bookings, (b: Booking) => b.status == Active || b.status == Confirmed,
                  (b: Booking) => b.status == Completed);
    if |bookings| == 0 then None
    else Some(Summary(
      |bookings|,
      Count(bookings, (b: Booking) => b.status == Active || b.status == Confirmed),
      Sum(bookings, (b: Booking) => b.totalPrice),
      Count(bookings, (b: Booking) => b.status == Completed)))
  }

  /** The cards count every booking, also those the status filter hides. */
  lemma SummaryCoversFilteredList(bookings: seq<Booking>, f: Choice<BookingStatus>)
    requires |bookings| > 0
    ensures |FilterBookings(bookings, f)| <= PageSummary(bookings).value.total
  {
  }
}
