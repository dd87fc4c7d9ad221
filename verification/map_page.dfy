/**
  The vehicle map page: its four filters over the vehicles `GET /api/vehicles`
  returns, the sorted list of distinct locations its location select offers,
  the counts shown above the list, and the booking link of each row.
 */
module MapPage {
  import opened Common
  import opened Domain
  import opened Seqs
  import opened Text
  import AdminVehicles

  datatype MapFilter = MapFilter(
    term: string,
    vehicleType: Choice<VehicleType>,
    availability: AdminVehicles.AvailabilityFilter,
    location: Choice<string>)

  /** The search term occurs, ignoring case, in the brand, model or location; the plate is not searched. */
  predicate MatchesSearch(term: string, v: Vehicle)
  {
    || ContainsIgnoringCase(v.brand, term)
    || ContainsIgnoringCase(v.model, term)
    || ContainsIgnoringCase(v.location, term)
  }

  predicate Matches(f: MapFilter, v: Vehicle)
  {
    && MatchesSearch(f.term, v)
    && Admits(f.vehicleType, v.vehicleType)
    && AdminVehicles.MatchesAvailability(f.availability, v)
    && Admits(f.location, v.location)
  }

  /** `filterVehicles`: the vehicles passing all four filters, in list order. */
  function FilterVehicles(vs: seq<Vehicle>, f: MapFilter): (r: seq<Vehicle>)
    ensures IsSubsequence(r, vs)
    ensures forall i :: 0 <= i < |r| ==> Matches(f, r[i])
    ensures forall i :: 0 <= i < |vs| && Matches(f, vs[i]) ==> vs[i] in r
    ensures forall x :: multiset(r)[x] == if Matches(f, x) then multiset(vs)[x] else 0
  {
    FilterIsSubsequence(vs, (v: Vehicle) => Matches(f, v));
    FilterMultiplicity(vs, (v: Vehicle) => Matches(f, v));
    Filter(vs, (v: Vehicle) => Matches(f, v))
  }

  /** A location picked in the select shows only vehicles at exactly that location. */
  lemma LocationFilterIsExact(vs: seq<Vehicle>, f: MapFilter, l: string)
    requires f.location == Only(l)
    ensures forall v :: v in FilterVehicles(vs, f) ==> v.location == l
  {
  }

  /** With no search term and every select on `'ALL'`, the whole fleet is shown. */
  lemma DefaultFilterShowsAll(vs: seq<Vehicle>)
    ensures FilterVehicles(vs, MapFilter("", All, AdminVehicles.AnyAvailability, All)) == vs
  {
    forall v | v in vs
      ensures Matches(MapFilter("", All, AdminVehicles.AnyAvailability, All), v)
    {
      EmptyTermMatches(v.brand);
    }
    FilterAll(vs, (v: Vehicle) => Matches(MapFilter("", All, AdminVehicles.AnyAvailability, All), v));
  }

  // ---------------------------------------------------------------------------
  // Locations

  /** `vehicles.map(v => v.location)`. */
  function Locations(vs: seq<Vehicle>): (ls: seq<string>)
    ensures |ls| == |vs|
    ensures forall i :: 0 <= i < |vs| ==> ls[i] == vs[i].location
  {
    seq(|vs|, i requires 0 <= i < |vs| => vs[i].location)
  }

  lemma StrLeIsTotalOrder()
    ensures Total(StrLe) && Transitive(StrLe)
  {
    forall a: string, b: string
      ensures StrLe(a, b) || StrLe(b, a)
    {
      StrLeTotal(a, b);
    }
    forall a: string, b: string, c: string | StrLe(a, b) && StrLe(b, c)
      ensures StrLe(a, c)
    {
      StrLeTransitive(a, b, c);
    }
  }

  /**
    `getUniqueLocations`: every vehicle location exactly once, in strictly
    increasing code-unit order, and nothing that is not a vehicle location.
   */
  function UniqueLocations(vs: seq<Vehicle>): (r: seq<string>)
    ensures NoDuplicates(r)
    ensures forall i :: 0 < i < |r| ==> StrLe(r[i - 1], r[i]) && r[i - 1] != r[i]
    ensures forall l :: l in r <==> exists i :: 0 <= i < |vs| && vs[i].location == l
  {
    var distinct := Dedupe(Locations(vs));
    var r := SortBy(distinct, StrLe);
    StrLeIsTotalOrder();
    PermutationKeepsNoDuplicates(distinct, r);
    assert forall l :: l in r <==> l in distinct by {
      forall l ensures l in r <==> l in multiset(distinct) {
        assert l in r <==> l in multiset(r);
      }
    }
    forall l | l in distinct
      ensures exists i :: 0 <= i < |vs| && vs[i].location == l
    {
      var k :| 0 <= k < |Locations(vs)| && Locations(vs)[k] == l;
      assert vs[k].location == l;
    }
    forall i | 0 <= i < |vs|
      ensures vs[i].location in distinct
    {
      assert Locations(vs)[i] == vs[i].location;
    }
    r
  }

  // ---------------------------------------------------------------------------
  // Counts and the booking link

  datatype VehicleStats = VehicleStats(total: nat, available: nat, cars: nat, bikes: nat, scooters: nat)

  /** `getVehicleStats` over the filtered list. */
  function Stats(vs: seq<Vehicle>): (s: VehicleStats)
    ensures s.total == |vs|
    ensures s.available == Count(vs, (v: Vehicle) => v.isAvailable) && s.available <= s.total
    ensures s.cars == Count(vs, (v: Vehicle) => v.vehicleType == Car)
    ensures s.bikes == Count(vs, (v: Vehicle) => v.vehicleType == Bike)
    ensures s.scooters == Count(vs, (v: Vehicle) => v.vehicleType == Scooter)
    ensures s.cars + s.bikes + s.scooters == s.total
  {
    FilterAll(vs, (v: Vehicle) => true);
    CountSplit(vs, (v: Vehicle) => true, (v: Vehicle) => v.vehicleType == Car, (v: Vehicle) => v.vehicleType != Car);
    CountSplit(vs, (v: Vehicle) => v.vehicleType != Car, (v: Vehicle) => v.vehicleType == Bike, (v: Vehicle) => v.vehicleType == Scooter);
    VehicleStats(
      |vs|,
      Count(vs, (v: Vehicle) => v.isAvailable),
      Count(vs, (v: Vehicle) => v.vehicleType == Car),
      Count(vs, (v: Vehicle) => v.vehicleType == Bike),
      Count(vs, (v: Vehicle) => v.vehicleType == Scooter))
  }

  const BookingPath := "/booking?vehicleId="

  /** The row's booking button: present only for an available vehicle, and it carries the vehicle's id. */
  function BookingLink(v: Vehicle): (r: Option<string>)
    ensures r.Some? <==> v.isAvailable
    ensures r.Some? ==> IsPrefix(BookingPath, r.value) && r.value[|BookingPath|..] == v.id
  {
    if v.isAvailable then Some(BookingPath + v.id) else None
  }

  /** Under the `'AVAILABLE'` filter every row can be booked; under `'UNAVAILABLE'` none can. */
  lemma AvailabilityFilterDecidesBooking(vs: seq<Vehicle>, f: MapFilter)
    ensures f.availability == AdminVehicles.AvailableOnly ==>
      forall v :: v in FilterVehicles(vs, f) ==> BookingLink(v).Some?
    ensures f.availability == AdminVehicles.UnavailableOnly ==>
      forall v :: v in FilterVehicles(vs, f) ==> BookingLink(v).None?
  {
  }
}
