/**
  The admin dashboard: statistics over the vehicles and bookings the routes
  return, and the five most recent bookings. Timestamps are milliseconds since
  the epoch; the calendar day of one is its ISO date prefix (UTC).
 */
module Dashboard {
  import opened Common
  import opened Domain
  import opened Seqs

  const RecentCount: nat := 5

  /** The UTC calendar day of a timestamp, the `YYYY-MM-DD` prefix of its ISO form. */
  function Day(t: int): int
  {
    t / MillisPerDay
  }

  datatype DashboardStats = DashboardStats(
    totalVehicles: nat,
    availableVehicles: nat,
    totalBookings: nat,
    pendingBookings: nat,
    completedBookings: nat,
    totalRevenue: int,
    todayBookings: nat,
    activeUsers: nat)

  /** The distinct user ids of the bookings, `new Set(bookings.map(b => b.userId))`. */
  function UserIds(bs: seq<Booking>): (ids: set<string>)
    ensures forall id :: id in ids <==> exists i :: 0 <= i < |bs| && bs[i].userId == id
  {
    set i | 0 <= i < |bs| :: bs[i].userId
  }

  /** There are no more distinct user ids than bookings. */
  lemma {:induction false} UserIdsBound(bs: seq<Booking>)
    ensures |UserIds(bs)| <= |bs|
    decreases |bs|
  {
    if |bs| > 0 {
      UserIdsBound(bs[1..]);
      var rest := UserIds(bs[1..]);
      assert UserIds(bs) == {bs[0].userId} + rest by {
        forall id | id in UserIds(bs)
          ensures id in {bs[0].userId} + rest
        {
          var i :| 0 <= i < |bs| && bs[i].userId == id;
          if i > 0 {
            assert bs[1..][i - 1].userId == id;
          }
        }
        forall id | id in rest
          ensures id in UserIds(bs)
        {
          var i :| 0 <= i < |bs[1..]| && bs[1..][i].userId == id;
          assert bs[i + 1].userId == id;
        }
      }
      assert |{bs[0].userId} + rest| <= 1 + |rest|;
    }
  }

  /** `fetchDashboardData`'s statistics, on day `today`. */
  function Stats(vehicles: seq<Vehicle>, bookings: seq<Booking>, today: int): (s: DashboardStats)
    ensures s.totalVehicles == |vehicles| && s.totalBookings == |bookings|
    ensures s.availableVehicles == Count(vehicles, (v: Vehicle) => v.isAvailable)
    ensures s.availableVehicles <= s.totalVehicles
    ensures s.pendingBookings == Count(bookings, (b: Booking) => b.status == Pending)
    ensures s.completedBookings == Count(bookings, (b: Booking) => b.status == Completed)
    ensures s.pendingBookings + s.completedBookings <= s.totalBookings
    ensures s.totalRevenue == Sum(bookings, (b: Booking) => b.totalPrice)
    ensures s.todayBookings == Count(bookings, (b: Booking) => Day(b.createdAt) == today)
    ensures s.todayBookings <= s.totalBookings
    ensures s.activeUsers == |UserIds(bookings)| && s.activeUsers <= s.totalBookings
    ensures s.activeUsers == 0 <==> |bookings| == 0
  {
    CountDisjoint(bookings, (b: Booking) => b.status == Pending, (b: Booking) => b.status == Completed);
    UserIdsBound(bookings);
    assert |bookings| > 0 ==> bookings[0].userId in UserIds(bookings);
    DashboardStats(
      |vehicles|,
      Count(vehicles, (v: Vehicle) => v.isAvailable),
      |bookings|,
      Count(bookings, (b: Booking) => b.status == Pending),
      Count(bookings, (b: Booking) => b.status == Completed),
      Sum(bookings, (b: Booking) => b.totalPrice),
      Count(bookings, (b: Booking) => Day(b.createdAt) == today),
      |UserIds(bookings)|)
  }

  /** Two timestamps of the same day are at most a day apart. */
  lemma SameDayWithinADay(a: int, b: int)
    requires Day(a) == Day(b)
    ensures -MillisPerDay < a - b < MillisPerDay
  {
  }

  /** With no negative prices, the revenue is at least each booking's price. */
  lemma {:induction false} RevenueCoversEachBooking(bookings: seq<Booking>, i: int)
    requires forall b :: b in bookings ==> b.totalPrice >= 0
    requires 0 <= i < |bookings|
    ensures Sum(bookings, (b: Booking) => b.totalPrice) >= bookings[i].totalPrice
    decreases |bookings|
  {
    if i == 0 {
      NonNegativeSum(bookings[1..]);
    } else {
      RevenueCoversEachBooking(bookings[1..], i - 1);
    }
  }

  lemma {:induction false} NonNegativeSum(bookings: seq<Booking>)
    requires forall b :: b in bookings ==> b.totalPrice >= 0
    ensures Sum(bookings, (b: Booking) => b.totalPrice) >= 0
    decreases |bookings|
  {
    if |bookings| > 0 {
      NonNegativeSum(bookings[1..]);
    }
  }

  predicate NewerFirst(a: Booking, b: Booking)
  {
    a.createdAt >= b.createdAt
  }

  /** The five most recent bookings, newest first. */
  function RecentBookings(bookings: seq<Booking>): (r: seq<Booking>)
    ensures |r| == Min(RecentCount, |bookings|)
    ensures multiset(r) <= multiset(bookings)
    ensures forall i, j :: 0 <= i < j < |r| ==> r[i].createdAt >= r[j].createdAt
    ensures forall b, i :: b in multiset(bookings) - multiset(r) && 0 <= i < |r| ==> b.createdAt <= r[i].createdAt
  {
    var sorted := SortBy(bookings, NewerFirst);
    assert Total(NewerFirst) && Transitive(NewerFirst);
    SortedAllPairs(sorted, NewerFirst);
    TakeSorted(sorted, RecentCount, NewerFirst);
    var r := Take(sorted, RecentCount);
    r
  }
}
