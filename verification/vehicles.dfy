/**
  The vehicles route: `GET /api/vehicles` filters the fleet and attaches each
  vehicle's average rating; `POST /api/vehicles` validates and stores a new
  vehicle, joining its feature and image lists into comma-separated strings.
 */
module Vehicles {
  import opened Common
  import opened Domain
  import opened Seqs
  import opened Text

  /** A list-valued body field: absent, an array of strings, or some other (string) value. */
  datatype ListField = Absent | Items(items: seq<string>) | Text(text: string)

  /** The request body. A missing string is `""`; missing numbers are `None`. */
  datatype VehicleInput = VehicleInput(
    vehicleType: string,
    brand: string,
    model: string,
    year: Option<int>,
    licensePlate: string,
    color: Option<string>,
    description: Option<string>,
    pricePerDay: Option<int>,
    location: string,
    features: ListField,
    images: ListField)

  /** A number field is truthy when present and not 0. */
  predicate Truthy(n: Option<int>)
  {
    n.Some? && n.value != 0
  }

  predicate HasRequiredFields(inp: VehicleInput)
  {
    && inp.vehicleType != "" && inp.brand != "" && inp.model != "" && Truthy(inp.year)
    && inp.licensePlate != "" && Truthy(inp.pricePerDay) && inp.location != ""
  }

  /** How a list field is stored: an array (default `[]`) is comma-joined, anything else kept. */
  function StoredList(f: ListField): (r: string)
    ensures f.Absent? ==> r == ""
    ensures f.Text? ==> r == f.text
  {
    match f
    case Absent => Join([], ',')
    case Items(xs) => Join(xs, ',')
    case Text(t) => t
  }

  predicate PlateTaken(st: Store, plate: string)
  {
    exists v :: v in st.vehicles && v.licensePlate == plate
  }

  /** `POST /api/vehicles`; the database's unique licence-plate constraint gives 409. */
  function CreateVehicle(st: Store, inp: VehicleInput, newId: string, now: int): (r: (Response<Vehicle>, Store))
    ensures r.0.Fail? ==> r.1 == st
    ensures !HasRequiredFields(inp) ==> r.0 == Fail(BadRequest, "Missing required fields")
    ensures HasRequiredFields(inp) && ParseType(Upper(inp.vehicleType)).None? ==>
      r.0 == Fail(BadRequest, "Invalid vehicle type")
    ensures HasRequiredFields(inp) && ParseType(Upper(inp.vehicleType)).Some? && PlateTaken(st, inp.licensePlate) ==>
      r.0 == Fail(Conflict, "License plate already exists")
    ensures r.0.Ok? <==> HasRequiredFields(inp) && ParseType(Upper(inp.vehicleType)).Some? && !PlateTaken(st, inp.licensePlate)
    ensures r.0.Ok? ==>
      && r.1 == st.(vehicles := st.vehicles + [r.0.data])
      && r.0.data.id == newId && r.0.data.createdAt == now
      && TypeName(r.0.data.vehicleType) == Upper(inp.vehicleType)
      && r.0.data.brand == inp.brand && r.0.data.model == inp.model
      && r.0.data.year == inp.year.value && r.0.data.pricePerDay == inp.pricePerDay.value
      && r.0.data.licensePlate == inp.licensePlate && r.0.data.location == inp.location
      && r.0.data.color == inp.color && r.0.data.description == inp.description
      && r.0.data.isAvailable
      && r.0.data.features == StoredList(inp.features) && r.0.data.images == StoredList(inp.images)
  {
    if !HasRequiredFields(inp) then
      (Fail(BadRequest, "Missing required fields"), st)
    else
      match ParseType(Upper(inp.vehicleType))
      case None => (Fail(BadRequest, "Invalid vehicle type"), st)
      case Some(t) =>
        if Find(st.vehicles, (v: Vehicle) => v.licensePlate == inp.licensePlate).Some? then
          (Fail(Conflict, "License plate already exists"), st)
        else
          var v := Vehicle(
            newId, t, inp.brand, inp.model, inp.year.value, inp.licensePlate, inp.color,
            inp.description, inp.pricePerDay.value, true, inp.location,
            StoredList(inp.features), StoredList(inp.images), now);
          (Ok(v), st.(vehicles := st.vehicles + [v]))
  }

  /** Only `CAR`, `BIKE` and `SCOOTER`, in any letter case, are accepted as a type. */
  lemma AcceptedTypes(inp: VehicleInput)
    ensures ParseType(Upper(inp.vehicleType)).Some? <==>
      Upper(inp.vehicleType) in {"CAR", "BIKE", "SCOOTER"}
  {
  }

  /** A lower-case type name is accepted and stored upper-cased. */
  lemma LowerCaseTypeAccepted()
    ensures Upper("scooter") == "SCOOTER" && ParseType(Upper("scooter")) == Some(Scooter)
  {
  }

  /** No two vehicles share a licence plate. */
  ghost predicate UniquePlates(vs: seq<Vehicle>)
  {
    forall i, j :: 0 <= i < j < |vs| ==> vs[i].licensePlate != vs[j].licensePlate
  }

  /** Creating a vehicle keeps licence plates unique. */
  lemma CreateVehicleKeepsPlatesUnique(st: Store, inp: VehicleInput, newId: string, now: int)
    requires UniquePlates(st.vehicles)
    ensures UniquePlates(CreateVehicle(st, inp, newId, now).1.vehicles)
  {
    var r := CreateVehicle(st, inp, newId, now);
    if r.0.Ok? {
      var vs := r.1.vehicles;
      forall i | 0 <= i < |st.vehicles|
        ensures vs[i].licensePlate != r.0.data.licensePlate
      {
        assert vs[i] in st.vehicles;
      }
    }
  }

  /** A stored list of plain entries splits back into the entries. */
  lemma StoredListSplits(xs: seq<string>)
    requires |xs| >= 1 && forall x :: x in xs ==> ',' !in x
    ensures Split(StoredList(Items(xs)), ',') == xs
  {
    SplitJoin(xs, ',');
  }

  // ---------------------------------------------------------------------------
  // GET /api/vehicles

  /** A vehicle joined with its reviews' ratings and its booking count. */
  datatype VehicleRow = VehicleRow(vehicle: Vehicle, ratings: seq<int>, bookingCount: nat)

  /** Query parameters, each `""` when absent. */
  datatype VehicleQuery = VehicleQuery(vehicleType: string, location: string, available: string)

  datatype VehicleListing = VehicleListing(
    vehicle: Vehicle,
    averageRating: real,
    totalReviews: nat,
    totalBookings: nat)

  predicate MatchesQuery(q: VehicleQuery, v: Vehicle)
  {
    && (q.vehicleType != "" ==> TypeName(v.vehicleType) == Upper(q.vehicleType))
    && (q.location != "" ==> ContainsIgnoringCase(v.location, q.location))
    && (q.available == "true" ==> v.isAvailable)
  }

  /** Only the exact value `"true"` restricts the list to available vehicles. */
  lemma AvailabilityFilterNeedsExactTrue(q: VehicleQuery, v: Vehicle)
    requires q.available != "true"
    ensures MatchesQuery(q, v) == MatchesQuery(q.(available := ""), v)
  {
  }

  /**
    `Math.round(10 * sum / n)`: the integer `t` with `t - 1/2 <= 10 * sum / n < t + 1/2`,
    stated multiplied through by `2 * n`.
   */
  function RoundedTenths(sum: int, n: int): (t: int)
    requires n > 0
    ensures n * (2 * t - 1) <= 20 * sum < n * (2 * t + 1)
  {
    (20 * sum + n) / (2 * n)
  }

  /** The average rating rounded to one decimal, 0 without reviews. */
  function AverageRating(ratings: seq<int>): (r: real)
    ensures |ratings| == 0 ==> r == 0.0
    ensures |ratings| > 0 ==> exists t: int :: IsRoundedTenth(r, t, ratings)
  {
    if |ratings| == 0 then 0.0
    else
      var t := RoundedTenths(Sum(ratings, (x: int) => x), |ratings|);
      assert IsRoundedTenth(t as real / 10.0, t, ratings);
      t as real / 10.0
  }

  /** `r` is `t / 10`, and `t` is ten times the mean rating rounded to the nearest integer, halves up. */
  predicate IsRoundedTenth(r: real, t: int, ratings: seq<int>)
  {
    var n, sum := |ratings|, Sum(ratings, (x: int) => x);
    r == t as real / 10.0 && n * (2 * t - 1) <= 20 * sum < n * (2 * t + 1)
  }

  /** With ratings in `[1, 5]` the rounded average lies in `[1, 5]`. */
  lemma AverageRatingBounds(ratings: seq<int>)
    requires |ratings| > 0 && forall x :: x in ratings ==> 1 <= x <= 5
    ensures 1.0 <= AverageRating(ratings) <= 5.0
  {
    var n := |ratings|;
    var s := Sum(ratings, (x: int) => x);
    SumBounds(ratings, (x: int) => x, 1, 5);
    var t := RoundedTenths(s, n);
    assert n * 20 < n * (2 * t + 1);
    CancelPositive(n, 20, 2 * t + 1);
    assert n * (2 * t - 1) < n * 101;
    CancelPositive(n, 2 * t - 1, 101);
  }

  function Listing(row: VehicleRow): (l: VehicleListing)
    ensures l.vehicle == row.vehicle && l.totalReviews == |row.ratings| && l.totalBookings == row.bookingCount
    ensures l.averageRating == AverageRating(row.ratings)
  {
    VehicleListing(row.vehicle, AverageRating(row.ratings), |row.ratings|, row.bookingCount)
  }

  predicate NewerFirst(a: VehicleRow, b: VehicleRow)
  {
    a.vehicle.createdAt >= b.vehicle.createdAt
  }

  /** The rows the query selects, newest vehicle first. */
  function SelectVehicles(rows: seq<VehicleRow>, q: VehicleQuery): (r: seq<VehicleRow>)
    ensures multiset(r) == multiset(Filter(rows, (row: VehicleRow) => MatchesQuery(q, row.vehicle)))
    ensures forall i :: 0 <= i < |r| ==> r[i] in rows && MatchesQuery(q, r[i].vehicle)
    ensures forall i, j :: 0 <= i < j < |r| ==> r[i].vehicle.createdAt >= r[j].vehicle.createdAt
  {
    var matching := Filter(rows, (row: VehicleRow) => MatchesQuery(q, row.vehicle));
    var r := SortBy(matching, NewerFirst);
    assert Total(NewerFirst) && Transitive(NewerFirst);
    SortedAllPairs(r, NewerFirst);
    forall i | 0 <= i < |r|
      ensures r[i] in rows && MatchesQuery(q, r[i].vehicle)
    {
      assert r[i] in multiset(matching);
    }
    r
  }

  /** `GET /api/vehicles`. */
  function ListVehicles(rows: seq<VehicleRow>, q: VehicleQuery): (r: seq<VehicleListing>)
    ensures |r| == Count(rows, (row: VehicleRow) => MatchesQuery(q, row.vehicle))
    ensures forall i :: 0 <= i < |r| ==> MatchesQuery(q, r[i].vehicle)
    ensures forall i :: 0 <= i < |r| ==> r[i] == Listing(SelectVehicles(rows, q)[i])
  {
    var selected := SelectVehicles(rows, q);
    seq(|selected|, i requires 0 <= i < |selected| => Listing(selected[i]))
  }
}
