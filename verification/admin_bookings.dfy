/**
  The admin bookings page: search and status/payment filters over the
  bookings the route returns, the local update after a status change, the
  actions offered per booking, and the summary counts of the filtered list.
 */
module AdminBookings {
  import opened Common
  import opened Domain
  import opened Seqs
  import opened Text

  /** A booking with its payment status and the user and vehicle the route includes. */
  datatype BookingRow = BookingRow(booking: Booking, paymentStatus: PaymentStatus, user: User, vehicle: Vehicle)

  datatype BookingFilter = BookingFilter(term: string, status: Choice<BookingStatus>, payment: Choice<PaymentStatus>)

  /** The seven searched fields. */
  function SearchedFields(row: BookingRow): (fs: seq<string>)
    ensures |fs| == 7
  {
    [row.user.firstName, row.user.lastName, row.user.email, row.vehicle.brand,
     row.vehicle.model, row.vehicle.licensePlate, row.booking.pickupLocation]
  }

  /** The search term occurs, ignoring case, in one of the seven fields. */
  predicate MatchesSearch(term: string, row: BookingRow)
  {
    exists i :: 0 <= i < 7 && ContainsIgnoringCase(SearchedFields(row)[i], term)
  }

  predicate Matches(f: BookingFilter, row: BookingRow)
  {
    MatchesSearch(f.term, row) && Admits(f.status, row.booking.status) && Admits(f.payment, row.paymentStatus)
  }

  /** `filteredBookings`. */
  function FilterBookings(rows: seq<BookingRow>, f: BookingFilter): (r: seq<BookingRow>)
    ensures IsSubsequence(r, rows)
    ensures forall i :: 0 <= i < |r| ==> Matches(f, r[i])
    ensures forall i :: 0 <= i < |rows| && Matches(f, rows[i]) ==> rows[i] in r
    ensures forall x :: multiset(r)[x] == if Matches(f, x) then multiset(rows)[x] else 0
  {
    FilterIsSubsequence(rows, (row: BookingRow) => Matches(f, row));
    FilterMultiplicity(rows, (row: BookingRow) => Matches(f, row));
    Filter(rows, (row: BookingRow) => Matches(f, row))
  }

  /** The empty search term matches every booking. */
  lemma EmptySearchMatchesAll(row: BookingRow)
    ensures MatchesSearch("", row)
  {
    EmptyTermMatches(SearchedFields(row)[0]);
  }

  /** With no search term and both filters on `'ALL'`, the whole list is shown. */
  lemma DefaultFilterShowsAll(rows: seq<BookingRow>)
    ensures FilterBookings(rows, BookingFilter("", All, All)) == rows
  {
    forall row | row in rows
      ensures Matches(BookingFilter("", All, All), row)
    {
      EmptySearchMatchesAll(row);
    }
    FilterAll(rows, (row: BookingRow) => Matches(BookingFilter("", All, All), row));
  }

  /** A status filter other than `'ALL'` shows only bookings in exactly that status. */
  lemma StatusFilterIsExact(rows: seq<BookingRow>, f: BookingFilter, s: BookingStatus)
    requires f.status == Only(s)
    ensures forall row :: row in FilterBookings(rows, f) ==> row.booking.status == s
  {
  }

  // ---------------------------------------------------------------------------
  // Status changes

  /**
    `handleStatusChange`: when the request succeeds (`ok`), the bookings with
    that id take the new status; otherwise the list is unchanged.
   */
  function ChangeStatus(rows: seq<BookingRow>, id: string, status: BookingStatus, ok: bool): (r: seq<BookingRow>)
    ensures |r| == |rows|
    ensures !ok ==> r == rows
    ensures ok ==> forall i :: 0 <= i < |rows| ==>
      r[i] == if rows[i].booking.id == id then rows[i].(booking := rows[i].booking.(status := status)) else rows[i]
  {
    if !ok then rows
    else MapWhere(rows, (row: BookingRow) => row.booking.id == id,
                  (row: BookingRow) => row.(booking := row.booking.(status := status)))
  }

  /** A status change touches nothing but the status: ids, prices, dates and payment are kept. */
  lemma ChangeStatusKeepsOtherFields(rows: seq<BookingRow>, id: string, status: BookingStatus, ok: bool)
    ensures forall i :: 0 <= i < |rows| ==>
      ChangeStatus(rows, id, status, ok)[i].booking.(status := rows[i].booking.status) == rows[i].booking
    ensures forall i :: 0 <= i < |rows| ==>
      ChangeStatus(rows, id, status, ok)[i].(booking := rows[i].booking) == rows[i]
  {
  }

  /** Setting the same status twice is the same as setting it once. */
  lemma ChangeStatusIdempotent(rows: seq<BookingRow>, id: string, status: BookingStatus)
    ensures ChangeStatus(ChangeStatus(rows, id, status, true), id, status, true) == ChangeStatus(rows, id, status, true)
  {
  }

  /** Every status is one of the five, in declaration order. */
  lemma StatusesListed()
    ensures forall s: BookingStatus :: s in [Pending, Confirmed, Active, Completed, Cancelled]
  {
    forall s: BookingStatus ensures s in [Pending, Confirmed, Active, Completed, Cancelled] {
      match s
      case Pending =>
      case Confirmed =>
      case Active =>
      case Completed =>
      case Cancelled =>
    }
  }

  /**
    The statuses the select offers: all five, once each, whatever the
    booking's current status. There is no transition table, so any status can
    be chosen from any other, even out of a final one.
   */
  function SelectOptions(): (opts: seq<BookingStatus>)
    ensures |opts| == 5 && NoDuplicates(opts)
    ensures Pending in opts && Confirmed in opts && Active in opts && Completed in opts && Cancelled in opts
    ensures forall s: BookingStatus :: s in opts
  {
    StatusesListed();
    [Pending, Confirmed, Active, Completed, Cancelled]
  }

  /** The quick actions: confirm and cancel, offered only for a pending booking. */
  function QuickActions(s: BookingStatus): (acts: seq<BookingStatus>)
    ensures s == Pending ==> acts == [Confirmed, Cancelled]
    ensures s != Pending ==> acts == []
  {
    if s == Pending then [Confirmed, Cancelled] else []
  }

  // ---------------------------------------------------------------------------
  // Summary

  datatype Summary = Summary(total: nat, pending: nat, active: nat, paid: nat, revenue: int)

  /** The summary cards over the filtered list. */
  function Summarize(rows: seq<BookingRow>): (s: Summary)
    ensures s.total == |rows|
    ensures s.pending == Count(rows, (r: BookingRow) => r.booking.status == Pending)
    ensures s.active == Count(rows, (r: BookingRow) => r.booking.status == Confirmed || r.booking.status == Active)
    ensures s.paid == Count(rows, (r: BookingRow) => r.paymentStatus == Paid)
    ensures s.pending + s.active <= s.total && s.paid <= s.total
    ensures s.revenue == Sum(rows, (r: BookingRow) => r.booking.totalPrice)
  {
    CountDisjoint(rows, (r: BookingRow) => r.booking.status == Pending,
                  (r: BookingRow) => r.booking.status == Confirmed || r.booking.status == Active);
    Summary(
      |rows|,
      Count(rows, (r: BookingRow) => r.booking.status == Pending),
      Count(rows, (r: BookingRow) => r.booking.status == Confirmed || r.booking.status == Active),
      Count(rows, (r: BookingRow) => r.paymentStatus == Paid),
      Sum(rows, (r: BookingRow) => r.booking.totalPrice))
  }

  /** Filtering never raises a count: the filtered summary is bounded by the full list's. */
  lemma FilteredSummaryBounded(rows: seq<BookingRow>, f: BookingFilter)
    ensures Summarize(FilterBookings(rows, f)).total <= |rows|
    ensures Summarize(FilterBookings(rows, f)).pending <= Count(rows, (r: BookingRow) => r.booking.status == Pending)
  {
    SubsequenceCount(FilterBookings(rows, f), rows, (r: BookingRow) => r.booking.status == Pending);
  }
}
