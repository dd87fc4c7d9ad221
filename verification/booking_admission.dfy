/**
  Booking admission, the `POST /api/bookings` handler: validate the request,
  look the vehicle up, reject it when an existing booking of the vehicle in
  PENDING, CONFIRMED or ACTIVE status collides with the requested dates, price
  it, create a placeholder user when needed, and append one PENDING booking.
  Also the `GET /api/bookings` ordering.

  The handler is a function from the store and the request to the response and
  the new store. The database's generated id and the clock are parameters.
 */
module BookingAdmission {
  import opened Common
  import opened Domain
  import opened Seqs

  /** The request body. Dates are day numbers, `None` when the field is missing
      or empty; a missing string field is `""`. `userId` is `None` when absent. */
  datatype BookingRequest = BookingRequest(
    vehicleId: string,
    startDate: Option<int>,
    endDate: Option<int>,
    pickupLocation: string,
    returnLocation: string,
    pickupTime: string,
    returnTime: string,
    userId: Option<string>)

  /** The user id used when the request carries none. */
  const TempUserId: string := "temp-user-id"

  predicate HasRequiredFields(req: BookingRequest)
  {
    && req.vehicleId != ""
    && req.startDate.Some?
    && req.endDate.Some?
    && req.pickupLocation != ""
    && req.pickupTime != ""
  }

  function RequestUserId(req: BookingRequest): string
  {
    req.userId.GetOr(TempUserId)
  }

  /** The statuses in which a booking holds its vehicle. */
  predicate Blocking(s: BookingStatus)
  {
    s == Pending || s == Confirmed || s == Active
  }

  /** The three OR-ed date clauses of the conflict query, for a request `[s, e]`. */
  predicate ThreeClauseMatch(b: Booking, s: int, e: int)
  {
    || (b.startDate <= s && b.endDate >= s)
    || (b.startDate <= e && b.endDate >= e)
    || (b.startDate >= s && b.endDate <= e)
  }

  /** The whole conflict query: same vehicle, blocking status, colliding dates. */
  predicate ConflictsWith(b: Booking, vehicleId: string, s: int, e: int)
  {
    b.vehicleId == vehicleId && Blocking(b.status) && ThreeClauseMatch(b, s, e)
  }

  /** Inclusive overlap of the day ranges `[aStart, aEnd]` and `[bStart, bEnd]`. */
  predicate Overlaps(aStart: int, aEnd: int, bStart: int, bEnd: int)
  {
    aStart <= bEnd && bStart <= aEnd
  }

  /** `findFirst` for a conflicting booking. */
  function FindConflict(bookings: seq<Booking>, vehicleId: string, s: int, e: int): (r: Option<Booking>)
    ensures r.Some? ==> r.value in bookings && ConflictsWith(r.value, vehicleId, s, e)
    ensures r.None? <==> forall b :: b in bookings ==> !ConflictsWith(b, vehicleId, s, e)
  {
    Find(bookings, (b: Booking) => ConflictsWith(b, vehicleId, s, e))
  }

  /** The server's price: whole days between the dates times the daily price, with no floor. */
  function ServerPrice(s: int, e: int, pricePerDay: int): int
  {
    (e - s) * pricePerDay
  }

  const PlaceholderEmail: string := "temp@example.com"

  /** The user created when the booking's user id is unknown. */
  function PlaceholderUser(id: string): User
  {
    User(id, PlaceholderEmail, "temp-password", "Temp", "User", None, Client)
  }

  /**
    Creating the placeholder user for an unknown id breaks the unique e-mail
    constraint once a placeholder account exists; the handler's catch-all then
    answers 500 and stores nothing.
   */
  predicate PlaceholderClash(st: Store, uid: string)
  {
    !HasUser(st, uid) && EmailTaken(st, PlaceholderEmail)
  }

  /** The booking the handler inserts once every check has passed. */
  function NewBooking(req: BookingRequest, v: Vehicle, newId: string, now: int): (b: Booking)
    requires HasRequiredFields(req)
    ensures b.status == Pending
    ensures b.vehicleId == req.vehicleId && b.userId == RequestUserId(req)
    ensures b.startDate == req.startDate.value && b.endDate == req.endDate.value
    ensures b.returnLocation == OrElse(req.returnLocation, req.pickupLocation)
    ensures b.returnTime == OrElse(req.returnTime, req.pickupTime)
    ensures b.id == newId && b.createdAt == now
    ensures b.pickupLocation == req.pickupLocation && b.pickupTime == req.pickupTime
    ensures b.totalPrice == ServerPrice(b.startDate, b.endDate, v.pricePerDay)
  {
    var s := req.startDate.value;
    var e := req.endDate.value;
    Booking(
      newId, RequestUserId(req), req.vehicleId, s, e, ServerPrice(s, e, v.pricePerDay),
      req.pickupLocation, OrElse(req.returnLocation, req.pickupLocation),
      req.pickupTime, OrElse(req.returnTime, req.pickupTime),
      Pending, now)
  }

  /** Whether the request passes every check, in terms of the store's contents. */
  predicate Admissible(st: Store, req: BookingRequest)
  {
    && HasRequiredFields(req)
    && (exists v :: v in st.vehicles && v.id == req.vehicleId)
    && FindVehicle(st, req.vehicleId).value.isAvailable
    && (forall b :: b in st.bookings ==> !ConflictsWith(b, req.vehicleId, req.startDate.value, req.endDate.value))
    && !PlaceholderClash(st, RequestUserId(req))
  }

  /** `POST /api/bookings`. */
  function Admit(st: Store, req: BookingRequest, newId: string, now: int): (r: (Response<Booking>, Store))
    // a rejected request leaves the store as it was
    ensures r.0.Fail? ==> r.1 == st
    // the failure modes, in the order the handler checks them
    ensures !HasRequiredFields(req) ==> r.0 == Fail(BadRequest, "Missing required fields")
    ensures HasRequiredFields(req) && !HasVehicle(st, req.vehicleId) ==>
      r.0 == Fail(NotFound, "Vehicle not found")
    ensures HasRequiredFields(req) && HasVehicle(st, req.vehicleId) && !FindVehicle(st, req.vehicleId).value.isAvailable ==>
      r.0 == Fail(BadRequest, "Vehicle is not available")
    ensures (&& HasRequiredFields(req) && HasVehicle(st, req.vehicleId)
             && FindVehicle(st, req.vehicleId).value.isAvailable
             && exists b :: b in st.bookings && ConflictsWith(b, req.vehicleId, req.startDate.value, req.endDate.value))
      ==> r.0 == Fail(Conflict, "Vehicle is already booked for the selected dates")
    ensures (&& HasRequiredFields(req) && HasVehicle(st, req.vehicleId)
             && FindVehicle(st, req.vehicleId).value.isAvailable
             && (forall b :: b in st.bookings ==> !ConflictsWith(b, req.vehicleId, req.startDate.value, req.endDate.value))
             && PlaceholderClash(st, RequestUserId(req)))
      ==> r.0 == Fail(ServerError, "Failed to create booking")
    ensures r.0.Ok? <==> Admissible(st, req)
    // on success exactly one PENDING booking is appended and nothing else changes
    ensures r.0.Ok? ==>
      && r.1.bookings == st.bookings + [r.0.data]
      && r.0.data == NewBooking(req, FindVehicle(st, req.vehicleId).value, newId, now)
      && r.0.data.totalPrice == (req.endDate.value - req.startDate.value) * FindVehicle(st, req.vehicleId).value.pricePerDay
      && r.1.vehicles == st.vehicles && r.1.reviews == st.reviews && r.1.plans == st.plans
    // the placeholder user exists afterwards; known users are left alone
    ensures r.0.Ok? && HasUser(st, RequestUserId(req)) ==> r.1.users == st.users
    ensures r.0.Ok? && !HasUser(st, RequestUserId(req)) ==>
      r.1.users == st.users + [PlaceholderUser(RequestUserId(req))]
  {
    if !HasRequiredFields(req) then
      (Fail(BadRequest, "Missing required fields"), st)
    else
      match FindVehicle(st, req.vehicleId)
      case None => (Fail(NotFound, "Vehicle not found"), st)
      case Some(v) =>
        if !v.isAvailable then
          (Fail(BadRequest, "Vehicle is not available"), st)
        else
          var s := req.startDate.value;
          var e := req.endDate.value;
          if FindConflict(st.bookings, req.vehicleId, s, e).Some? then
            (Fail(Conflict, "Vehicle is already booked for the selected dates"), st)
          else
            var uid := RequestUserId(req);
            var known := Find(st.users, (u: User) => u.id == uid).Some?;
            if !known && Find(st.users, (u: User) => u.email == PlaceholderEmail).Some? then
              (Fail(ServerError, "Failed to create booking"), st)
            else
              var users := if known then st.users else st.users + [PlaceholderUser(uid)];
              var b := NewBooking(req, v, newId, now);
              (Ok(b), st.(users := users, bookings := st.bookings + [b]))
  }

  // ---------------------------------------------------------------------------
  // The conflict query and interval overlap

  /** Inclusive overlap always satisfies one of the three clauses, whatever the order of the dates. */
  lemma OverlapImpliesThreeClause(b: Booking, s: int, e: int)
    requires Overlaps(b.startDate, b.endDate, s, e)
    ensures ThreeClauseMatch(b, s, e)
  {
  }

  /** For well-ordered ranges the three clauses say exactly "the ranges overlap". */
  lemma ThreeClauseIsOverlap(b: Booking, s: int, e: int)
    requires s <= e && b.startDate <= b.endDate
    ensures ThreeClauseMatch(b, s, e) <==> Overlaps(b.startDate, b.endDate, s, e)
  {
  }

  /** Without ordered request dates the clauses match more than the overlap. */
  lemma ThreeClauseNeedsOrderedRequest()
    ensures var b := Booking("b", "u", "v", 6, 10, 0, "", "", "", "", Pending, 0);
      ThreeClauseMatch(b, 8, 5) && !Overlaps(6, 10, 8, 5)
  {
  }

  // ---------------------------------------------------------------------------
  // No double booking

  /** No two distinct bookings of one vehicle that hold it have overlapping dates. */
  ghost predicate NoDoubleBooking(bs: seq<Booking>)
  {
    forall i, j :: 0 <= i < |bs| && 0 <= j < |bs| && i != j
      && bs[i].vehicleId == bs[j].vehicleId && Blocking(bs[i].status) && Blocking(bs[j].status)
      ==> !Overlaps(bs[i].startDate, bs[i].endDate, bs[j].startDate, bs[j].endDate)
  }

  /** No request gives two accounts one e-mail address: the placeholder is created only while its address is free. */
  lemma AdmitKeepsEmailsUnique(st: Store, req: BookingRequest, newId: string, now: int)
    requires UniqueEmails(st.users)
    ensures UniqueEmails(Admit(st, req, newId, now).1.users)
  {
    var r := Admit(st, req, newId, now);
    if r.0.Ok? && !HasUser(st, RequestUserId(req)) {
      var us := r.1.users;
      forall i | 0 <= i < |st.users|
        ensures us[i].email != PlaceholderEmail
      {
        assert us[i] in st.users;
      }
    }
  }

  /** A successful admission keeps the store free of double bookings. */
  lemma AdmitPreservesNoDoubleBooking(st: Store, req: BookingRequest, newId: string, now: int)
    requires NoDoubleBooking(st.bookings)
    ensures NoDoubleBooking(Admit(st, req, newId, now).1.bookings)
  {
    var r := Admit(st, req, newId, now);
    if r.0.Ok? {
      var nb := r.0.data;
      var bs := r.1.bookings;
      assert bs == st.bookings + [nb];
      forall i | 0 <= i < |st.bookings| && bs[i].vehicleId == nb.vehicleId && Blocking(bs[i].status)
        ensures !Overlaps(bs[i].startDate, bs[i].endDate, nb.startDate, nb.endDate)
      {
        assert bs[i] in st.bookings;
        assert !ConflictsWith(bs[i], req.vehicleId, nb.startDate, nb.endDate);
        if Overlaps(bs[i].startDate, bs[i].endDate, nb.startDate, nb.endDate) {
          OverlapImpliesThreeClause(bs[i], nb.startDate, nb.endDate);
        }
      }
    }
  }

  /** Every blocking booking of vehicle `vid` has its start no later than its end. */
  ghost predicate WellOrderedBookings(bs: seq<Booking>, vid: string)
  {
    forall b :: b in bs && b.vehicleId == vid && Blocking(b.status) ==> b.startDate <= b.endDate
  }

  /** For an otherwise valid request with ordered dates, the answer is 409 exactly when an
      existing booking holding the vehicle overlaps the requested range. */
  lemma ConflictIffOverlap(st: Store, req: BookingRequest, newId: string, now: int)
    requires HasRequiredFields(req) && HasVehicle(st, req.vehicleId)
    requires FindVehicle(st, req.vehicleId).value.isAvailable
    requires req.startDate.value <= req.endDate.value
    requires WellOrderedBookings(st.bookings, req.vehicleId)
    ensures (Admit(st, req, newId, now).0.Fail? && Admit(st, req, newId, now).0.code == Conflict) <==>
      exists b :: b in st.bookings && b.vehicleId == req.vehicleId && Blocking(b.status)
        && Overlaps(b.startDate, b.endDate, req.startDate.value, req.endDate.value)
    ensures Admit(st, req, newId, now).0.Fail? ==>
      Admit(st, req, newId, now).0.code == Conflict || Admit(st, req, newId, now).0.code == ServerError
  {
    var s, e := req.startDate.value, req.endDate.value;
    forall b | b in st.bookings && b.vehicleId == req.vehicleId && Blocking(b.status)
      ensures ConflictsWith(b, req.vehicleId, s, e) <==> Overlaps(b.startDate, b.endDate, s, e)
    {
      ThreeClauseIsOverlap(b, s, e);
    }
  }

  /** Bounds are inclusive: a booking ending on day `d` blocks a request starting on day `d`. */
  lemma SharedBoundaryDayConflicts(st: Store, req: BookingRequest, b: Booking, newId: string, now: int)
    requires HasRequiredFields(req) && HasVehicle(st, req.vehicleId)
    requires FindVehicle(st, req.vehicleId).value.isAvailable
    requires b in st.bookings && b.vehicleId == req.vehicleId && Blocking(b.status)
    requires b.startDate <= b.endDate == req.startDate.value
    ensures Admit(st, req, newId, now).0 == Fail(Conflict, "Vehicle is already booked for the selected dates")
    ensures Admit(st, req, newId, now).1 == st
  {
    assert ConflictsWith(b, req.vehicleId, req.startDate.value, req.endDate.value);
  }

  /** CANCELLED and COMPLETED bookings never block a request. */
  lemma FinishedBookingsNeverConflict(b: Booking, vid: string, s: int, e: int)
    requires b.status == Cancelled || b.status == Completed
    ensures !ConflictsWith(b, vid, s, e)
  {
  }

  // ---------------------------------------------------------------------------
  // Pricing

  /** A same-day booking is admitted at price 0. */
  lemma SameDayBookingIsFree(st: Store, req: BookingRequest, newId: string, now: int)
    requires Admissible(st, req)
    requires req.startDate.value == req.endDate.value
    ensures Admit(st, req, newId, now).0.Ok?
    ensures Admit(st, req, newId, now).0.data.totalPrice == 0
  {
  }

  /** An end date before the start date is not rejected; such a booking gets a negative
      price when the vehicle has a positive daily price. */
  lemma ReversedRangeIsAdmitted(st: Store, req: BookingRequest, newId: string, now: int)
    requires Admissible(st, req)
    requires req.endDate.value < req.startDate.value
    requires FindVehicle(st, req.vehicleId).value.pricePerDay > 0
    ensures Admit(st, req, newId, now).0.Ok?
    ensures Admit(st, req, newId, now).0.data.totalPrice < 0
  {
    var p := FindVehicle(st, req.vehicleId).value.pricePerDay;
    var d := req.endDate.value - req.startDate.value;
    assert d * p < 0 by {
      assert d <= -1;
      assert d * p <= -1 * p;
    }
  }

  // ---------------------------------------------------------------------------
  // GET /api/bookings

  predicate NewerFirst(a: Booking, b: Booking)
  {
    a.createdAt >= b.createdAt
  }

  /** All bookings, newest first. */
  function ListBookings(bookings: seq<Booking>): (r: seq<Booking>)
    ensures multiset(r) == multiset(bookings)
    ensures forall i, j :: 0 <= i < j < |r| ==> r[i].createdAt >= r[j].createdAt
  {
    var r := SortBy(bookings, NewerFirst);
    assert Total(NewerFirst);
    assert Transitive(NewerFirst);
    SortedAllPairs(r, NewerFirst);
    r
  }
}
