/**
  The reviews route: `POST /api/reviews` validates a review and stores it;
  `GET /api/reviews` filters, orders, limits and formats stored reviews.
 */
module Reviews {
  import opened Common
  import opened Domain
  import opened Seqs

  /** The request body. A missing string is `""`; a missing rating is `None`. */
  datatype ReviewRequest = ReviewRequest(
    userId: string,
    vehicleId: string,
    bookingId: string,
    rating: Option<int>,
    comment: string)

  /** The vehicle fields a review response carries. */
  datatype VehicleSummary = VehicleSummary(vehicleType: VehicleType, brand: string, model: string)

  /** The `POST` response data. */
  datatype CreatedReview = CreatedReview(
    id: string,
    rating: int,
    comment: Option<string>,
    createdAt: int,
    userName: string,
    vehicle: VehicleSummary)

  function Summary(v: Vehicle): VehicleSummary
  {
    VehicleSummary(v.vehicleType, v.brand, v.model)
  }

  /** The displayed user name: first name, one space, last name. */
  function DisplayName(firstName: string, lastName: string): (r: string)
    ensures |r| == |firstName| + 1 + |lastName|
    ensures r[..|firstName|] == firstName && r[|firstName|] == ' ' && r[|firstName| + 1..] == lastName
  {
    firstName + " " + lastName
  }

  /** The rating is present and not 0 (a 0 rating is falsy). */
  predicate HasRequiredFields(req: ReviewRequest)
  {
    req.userId != "" && req.vehicleId != "" && req.rating.Some? && req.rating.value != 0
  }

  predicate RatingInRange(r: int)
  {
    1 <= r <= 5
  }

  function FindUser(st: Store, id: string): (r: Option<User>)
    ensures r.Some? ==> r.value in st.users && r.value.id == id
    ensures r.None? <==> !HasUser(st, id)
  {
    Find(st.users, (u: User) => u.id == id)
  }

  function FindBooking(st: Store, id: string): (r: Option<Booking>)
    ensures r.Some? ==> r.value in st.bookings && r.value.id == id
    ensures r.None? <==> forall b :: b in st.bookings ==> b.id != id
  {
    Find(st.bookings, (b: Booking) => b.id == id)
  }

  /** The checks on an optional booking id: absent, or naming a booking of this user and vehicle. */
  function CheckBooking(st: Store, req: ReviewRequest): (r: Option<(int, string)>)
    ensures r.None? <==> (|| req.bookingId == ""
                          || exists b :: FindBooking(st, req.bookingId) == Some(b)
                               && b.userId == req.userId && b.vehicleId == req.vehicleId)
    ensures req.bookingId != "" && FindBooking(st, req.bookingId).None? ==>
      r == Some((NotFound, "Booking not found"))
    ensures req.bookingId != "" && FindBooking(st, req.bookingId).Some? &&
            (FindBooking(st, req.bookingId).value.userId != req.userId
             || FindBooking(st, req.bookingId).value.vehicleId != req.vehicleId) ==>
      r == Some((BadRequest, "Booking does not match user and vehicle"))
  {
    if req.bookingId == "" then None
    else
      match FindBooking(st, req.bookingId)
      case None => Some((NotFound, "Booking not found"))
      case Some(b) =>
        if b.userId != req.userId || b.vehicleId != req.vehicleId then
          Some((BadRequest, "Booking does not match user and vehicle"))
        else None
  }

  /** `POST /api/reviews`. */
  function CreateReview(st: Store, req: ReviewRequest, newId: string, now: int): (r: (Response<CreatedReview>, Store))
    ensures r.0.Fail? ==> r.1 == st
    ensures !HasRequiredFields(req) ==>
      r.0 == Fail(BadRequest, "Missing required fields: userId, vehicleId, rating")
    ensures HasRequiredFields(req) && !RatingInRange(req.rating.value) ==>
      r.0 == Fail(BadRequest, "Rating must be between 1 and 5")
    ensures HasRequiredFields(req) && RatingInRange(req.rating.value) && !HasUser(st, req.userId) ==>
      r.0 == Fail(NotFound, "User not found")
    ensures (HasRequiredFields(req) && RatingInRange(req.rating.value) && HasUser(st, req.userId)
             && !HasVehicle(st, req.vehicleId)) ==> r.0 == Fail(NotFound, "Vehicle not found")
    ensures (HasRequiredFields(req) && RatingInRange(req.rating.value) && HasUser(st, req.userId)
             && HasVehicle(st, req.vehicleId) && CheckBooking(st, req).Some?) ==>
      r.0 == Fail(CheckBooking(st, req).value.0, CheckBooking(st, req).value.1)
    ensures r.0.Ok? <==>
      && HasRequiredFields(req) && RatingInRange(req.rating.value)
      && HasUser(st, req.userId) && HasVehicle(st, req.vehicleId)
      && CheckBooking(st, req).None?
    ensures r.0.Ok? ==>
      && (req.bookingId != "" ==>
            exists b :: b in st.bookings && b.id == req.bookingId && b.userId == req.userId && b.vehicleId == req.vehicleId)
      && r.1 == st.(reviews := st.reviews + [Review(newId, req.userId, req.vehicleId, req.rating.value,
                                                    if req.comment == "" then None else Some(req.comment), now)])
      && r.0.data.id == newId && r.0.data.createdAt == now
      && r.0.data.rating == req.rating.value
      && r.0.data.comment == (if req.comment == "" then None else Some(req.comment))
      && r.0.data.userName == DisplayName(FindUser(st, req.userId).value.firstName, FindUser(st, req.userId).value.lastName)
      && r.0.data.vehicle == VehicleSummary(FindVehicle(st, req.vehicleId).value.vehicleType,
                                            FindVehicle(st, req.vehicleId).value.brand,
                                            FindVehicle(st, req.vehicleId).value.model)
  {
    if !HasRequiredFields(req) then
      (Fail(BadRequest, "Missing required fields: userId, vehicleId, rating"), st)
    else if !RatingInRange(req.rating.value) then
      (Fail(BadRequest, "Rating must be between 1 and 5"), st)
    else
      match FindUser(st, req.userId)
      case None => (Fail(NotFound, "User not found"), st)
      case Some(u) =>
        match FindVehicle(st, req.vehicleId)
        case None => (Fail(NotFound, "Vehicle not found"), st)
        case Some(v) =>
          match CheckBooking(st, req)
          case Some(err) => (Fail(err.0, err.1), st)
          case None =>
            var review := Review(newId, req.userId, req.vehicleId, req.rating.value,
                                 if req.comment == "" then None else Some(req.comment), now);
            var data := CreatedReview(review.id, review.rating, review.comment, review.createdAt,
                                      DisplayName(u.firstName, u.lastName), Summary(v));
            (Ok(data), st.(reviews := st.reviews + [review]))
  }

  /** Every stored review has a rating between 1 and 5. */
  ghost predicate RatingsInRange(reviews: seq<Review>)
  {
    forall rv :: rv in reviews ==> RatingInRange(rv.rating)
  }

  /** Creating a review keeps every stored rating in `[1, 5]`. */
  lemma CreateReviewKeepsRatingsInRange(st: Store, req: ReviewRequest, newId: string, now: int)
    requires RatingsInRange(st.reviews)
    ensures RatingsInRange(CreateReview(st, req, newId, now).1.reviews)
  {
  }

  /** A booking id naming another user's booking is refused with 400 and stores nothing. */
  lemma ForeignBookingRefused(st: Store, req: ReviewRequest, b: Booking, newId: string, now: int)
    requires HasRequiredFields(req) && RatingInRange(req.rating.value)
    requires HasUser(st, req.userId) && HasVehicle(st, req.vehicleId)
    requires req.bookingId != "" && FindBooking(st, req.bookingId) == Some(b)
    requires b.userId != req.userId
    ensures CreateReview(st, req, newId, now) == (Fail(BadRequest, "Booking does not match user and vehicle"), st)
  {
  }

  // ---------------------------------------------------------------------------
  // GET /api/reviews

  /** A review joined with its user and vehicle, as the database query includes them. */
  datatype ReviewRow = ReviewRow(review: Review, user: User, vehicle: Vehicle)

  /** Query parameters: `vehicleId` (`""` when absent), `limit` (`None` when absent), `featured`. */
  datatype ReviewQuery = ReviewQuery(vehicleId: string, limit: Option<nat>, featured: string)

  const DefaultLimit: nat := 10

  /** One formatted review of the `GET` response. */
  datatype ReviewListing = ReviewListing(
    id: string,
    rating: int,
    comment: Option<string>,
    createdAt: int,
    userName: string,
    firstName: string,
    lastName: string,
    vehicle: VehicleSummary)

  datatype ReviewPage = ReviewPage(data: seq<ReviewListing>, count: nat)

  predicate MatchesQuery(q: ReviewQuery, row: ReviewRow)
  {
    && (q.vehicleId != "" ==> row.review.vehicleId == q.vehicleId)
    && (q.featured == "true" ==> row.review.rating >= 4)
  }

  /** Higher rating first; among equal ratings, newer first. */
  predicate RankedBefore(a: ReviewRow, b: ReviewRow)
  {
    a.review.rating > b.review.rating
    || (a.review.rating == b.review.rating && a.review.createdAt >= b.review.createdAt)
  }

  function Limit(q: ReviewQuery): nat
  {
    q.limit.GetOr(DefaultLimit)
  }

  /** The rows the query selects: matching, ranked, at most `limit` of them. */
  function SelectReviews(rows: seq<ReviewRow>, q: ReviewQuery): (r: seq<ReviewRow>)
    ensures |r| == Min(Limit(q), Count(rows, (row: ReviewRow) => MatchesQuery(q, row)))
    ensures forall i :: 0 <= i < |r| ==> r[i] in rows && MatchesQuery(q, r[i])
    ensures multiset(r) <= multiset(Filter(rows, (row: ReviewRow) => MatchesQuery(q, row)))
    ensures forall i, j :: 0 <= i < j < |r| ==> RankedBefore(r[i], r[j])
    ensures forall x, i ::
      x in multiset(Filter(rows, (row: ReviewRow) => MatchesQuery(q, row))) - multiset(r) && 0 <= i < |r| ==>
      RankedBefore(r[i], x)
  {
    var matching := Filter(rows, (row: ReviewRow) => MatchesQuery(q, row));
    var ranked := SortBy(matching, RankedBefore);
    assert Total(RankedBefore) && Transitive(RankedBefore);
    SortedAllPairs(ranked, RankedBefore);
    forall i | 0 <= i < |ranked|
      ensures ranked[i] in rows && MatchesQuery(q, ranked[i])
    {
      assert ranked[i] in multiset(matching);
    }
    TakeSorted(ranked, Limit(q), RankedBefore);
    var r := Take(ranked, Limit(q));
    r
  }

  function Format(row: ReviewRow): (l: ReviewListing)
    ensures l.userName == DisplayName(row.user.firstName, row.user.lastName)
    ensures l.id == row.review.id && l.rating == row.review.rating
    ensures l.comment == row.review.comment && l.createdAt == row.review.createdAt
    ensures l.firstName == row.user.firstName && l.lastName == row.user.lastName
    ensures l.vehicle == Summary(row.vehicle)
  {
    ReviewListing(
      row.review.id, row.review.rating, row.review.comment, row.review.createdAt,
      DisplayName(row.user.firstName, row.user.lastName), row.user.firstName, row.user.lastName,
      Summary(row.vehicle))
  }

  /** `GET /api/reviews`. */
  function ListReviews(rows: seq<ReviewRow>, q: ReviewQuery): (r: ReviewPage)
    ensures r.count == |r.data| <= Limit(q)
    ensures q.featured == "true" ==> forall i :: 0 <= i < |r.data| ==> r.data[i].rating >= 4
    ensures forall i, j :: 0 <= i < j < |r.data| ==> r.data[i].rating >= r.data[j].rating
    ensures forall i, j :: 0 <= i < j < |r.data| && r.data[i].rating == r.data[j].rating ==>
      r.data[i].createdAt >= r.data[j].createdAt
    ensures |r.data| == |SelectReviews(rows, q)|
    ensures forall i :: 0 <= i < |r.data| ==> r.data[i] == Format(SelectReviews(rows, q)[i])
  {
    var selected := SelectReviews(rows, q);
    var data := seq(|selected|, i requires 0 <= i < |selected| => Format(selected[i]));
    ReviewPage(data, |data|)
  }

  /** With a vehicle id, every listed review is a review of that vehicle. */
  lemma ListedReviewsBelongToVehicle(rows: seq<ReviewRow>, q: ReviewQuery)
    requires q.vehicleId != ""
    ensures forall row :: row in SelectReviews(rows, q) ==> row.review.vehicleId == q.vehicleId
  {
  }
}
