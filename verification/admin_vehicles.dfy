/**
  The admin vehicle list: search, type and availability filters over the
  vehicles `GET /api/vehicles` returns, the local list updates after a
  successful availability toggle or delete, and the summary cards of the
  filtered list.
 */
module AdminVehicles {
  import opened Common
  import opened Domain
  import opened Seqs
  import opened Text

  /** The availability select: `'ALL'`, `'AVAILABLE'` or `'UNAVAILABLE'`. */
  datatype AvailabilityFilter = AnyAvailability | AvailableOnly | UnavailableOnly

  datatype VehicleFilter = VehicleFilter(term: string, vehicleType: Choice<VehicleType>, availability: AvailabilityFilter)

  /** The search term occurs, ignoring case, in the brand, model, plate or location. */
  predicate MatchesSearch(term: string, v: Vehicle)
  {
    || ContainsIgnoringCase(v.brand, term)
    || ContainsIgnoringCase(v.model, term)
    || ContainsIgnoringCase(v.licensePlate, term)
    || ContainsIgnoringCase(v.location, term)
  }

  predicate MatchesAvailability(a: AvailabilityFilter, v: Vehicle)
  {
    match a
    case AnyAvailability => true
    case AvailableOnly => v.isAvailable
    case UnavailableOnly => !v.isAvailable
  }

  predicate Matches(f: VehicleFilter, v: Vehicle)
  {
    MatchesSearch(f.term, v) && Admits(f.vehicleType, v.vehicleType) && MatchesAvailability(f.availability, v)
  }

  /** `filteredVehicles`: the vehicles passing all three filters, in list order. */
  function FilterVehicles(vs: seq<Vehicle>, f: VehicleFilter): (r: seq<Vehicle>)
    ensures IsSubsequence(r, vs)
    ensures forall i :: 0 <= i < |r| ==> Matches(f, r[i])
    ensures forall i :: 0 <= i < |vs| && Matches(f, vs[i]) ==> vs[i] in r
    ensures forall x :: multiset(r)[x] == if Matches(f, x) then multiset(vs)[x] else 0
  {
    FilterIsSubsequence(vs, (v: Vehicle) => Matches(f, v));
    FilterMultiplicity(vs, (v: Vehicle) => Matches(f, v));
    Filter(vs, (v: Vehicle) => Matches(f, v))
  }

  /** With no search term and both selects on `'ALL'`, every vehicle is listed. */
  lemma DefaultFilterShowsAll(vs: seq<Vehicle>)
    ensures FilterVehicles(vs, VehicleFilter("", All, AnyAvailability)) == vs
  {
    forall v | v in vs
      ensures Matches(VehicleFilter("", All, AnyAvailability), v)
    {
      EmptyTermMatches(v.brand);
    }
    FilterAll(vs, (v: Vehicle) => Matches(VehicleFilter("", All, AnyAvailability), v));
  }

  /** For a fixed search and type, `'AVAILABLE'` and `'UNAVAILABLE'` split the `'ALL'` list between them. */
  lemma AvailabilityPartitions(vs: seq<Vehicle>, term: string, t: Choice<VehicleType>)
    ensures |FilterVehicles(vs, VehicleFilter(term, t, AvailableOnly))|
          + |FilterVehicles(vs, VehicleFilter(term, t, UnavailableOnly))|
         == |FilterVehicles(vs, VehicleFilter(term, t, AnyAvailability))|
  {
    CountSplit(vs,
      (v: Vehicle) => Matches(VehicleFilter(term, t, AnyAvailability), v),
      (v: Vehicle) => Matches(VehicleFilter(term, t, AvailableOnly), v),
      (v: Vehicle) => Matches(VehicleFilter(term, t, UnavailableOnly), v));
  }

  // ---------------------------------------------------------------------------
  // List updates

  /**
    `handleToggleAvailability(id, current)`: after a successful request the
    vehicles with that id get availability `!current`; after a failed one the
    list is unchanged.
   */
  function ToggleAvailability(vs: seq<Vehicle>, id: string, current: bool, ok: bool): (r: seq<Vehicle>)
    ensures |r| == |vs|
    ensures !ok ==> r == vs
    ensures ok ==> forall i :: 0 <= i < |vs| ==>
      r[i] == if vs[i].id == id then vs[i].(isAvailable := !current) else vs[i]
  {
    if !ok then vs
    else MapWhere(vs, (v: Vehicle) => v.id == id, (v: Vehicle) => v.(isAvailable := !current))
  }

  /** When `current` is the target's own flag, a successful toggle flips it and touches nothing else. */
  lemma ToggleFlipsTarget(vs: seq<Vehicle>, i: int)
    requires 0 <= i < |vs|
    requires forall j :: 0 <= j < |vs| && vs[j].id == vs[i].id ==> j == i
    ensures ToggleAvailability(vs, vs[i].id, vs[i].isAvailable, true)[i].isAvailable == !vs[i].isAvailable
    ensures ToggleAvailability(vs, vs[i].id, vs[i].isAvailable, true)[i].(isAvailable := vs[i].isAvailable) == vs[i]
    ensures forall j :: 0 <= j < |vs| && j != i ==> ToggleAvailability(vs, vs[i].id, vs[i].isAvailable, true)[j] == vs[j]
  {
  }

  /** Toggling a vehicle twice, each time from the flag it shows, restores the list. */
  lemma ToggleTwiceRestores(vs: seq<Vehicle>, id: string, current: bool)
    requires forall i :: 0 <= i < |vs| && vs[i].id == id ==> vs[i].isAvailable == current
    ensures ToggleAvailability(ToggleAvailability(vs, id, current, true), id, !current, true) == vs
  {
  }

  /** `handleDeleteVehicle`: after a successful request the vehicles with that id are dropped. */
  function DeleteVehicle(vs: seq<Vehicle>, id: string, ok: bool): (r: seq<Vehicle>)
    ensures !ok ==> r == vs
    ensures IsSubsequence(r, vs)
    ensures ok ==> forall i :: 0 <= i < |r| ==> r[i].id != id
    ensures forall i :: 0 <= i < |vs| && vs[i].id != id ==> vs[i] in r
    ensures ok ==> forall v :: multiset(r)[v] == if v.id != id then multiset(vs)[v] else 0
  {
    if !ok then
      FilterAll(vs, (v: Vehicle) => true);
      FilterIsSubsequence(vs, (v: Vehicle) => true);
      vs
    else
      FilterIsSubsequence(vs, (v: Vehicle) => v.id != id);
      FilterMultiplicity(vs, (v: Vehicle) => v.id != id);
      Filter(vs, (v: Vehicle) => v.id != id)
  }

  /** Deleting an id no vehicle has changes nothing. */
  lemma DeleteAbsentVehicle(vs: seq<Vehicle>, id: string)
    requires forall i :: 0 <= i < |vs| ==> vs[i].id != id
    ensures DeleteVehicle(vs, id, true) == vs
  {
    FilterAll(vs, (v: Vehicle) => v.id != id);
  }

  // ---------------------------------------------------------------------------
  // Summary

  /** The four cards; the average price is shown only for a non-empty list. */
  datatype Summary = Summary(total: nat, available: nat, unavailable: nat, averagePrice: Option<int>)

  /** `Math.round(sum / n)` for `n > 0`: the integer nearest the mean, halves rounded up. */
  function RoundedMean(sum: int, n: int): (m: int)
    requires n > 0
    ensures n * (2 * m - 1) <= 2 * sum < n * (2 * m + 1)
  {
    (2 * sum + n) / (2 * n)
  }

  /** The summary cards over the filtered list. */
  function Summarize(vs: seq<Vehicle>): (s: Summary)
    ensures s.total == |vs|
    ensures s.available == Count(vs, (v: Vehicle) => v.isAvailable)
    ensures s.unavailable == Count(vs, (v: Vehicle) => !v.isAvailable)
    ensures s.available + s.unavailable == s.total
    ensures s.averagePrice.Some? <==> |vs| > 0
    ensures s.averagePrice.Some? ==>
      |vs| * (2 * s.averagePrice.value - 1) <= 2 * Sum(vs, (v: Vehicle) => v.pricePerDay) < |vs| * (2 * s.averagePrice.value + 1)
  {
    CountSplit(vs, (v: Vehicle) => true, (v: Vehicle) => v.isAvailable, (v: Vehicle) => !v.isAvailable);
    FilterAll(vs, (v: Vehicle) => true);
    Summary(
      |vs|,
      Count(vs, (v: Vehicle) => v.isAvailable),
      Count(vs, (v: Vehicle) => !v.isAvailable),
      if |vs| == 0 then None else Some(RoundedMean(Sum(vs, (v: Vehicle) => v.pricePerDay), |vs|)))
  }

  /** A mean of values in `[lo, hi]` rounds to a value in `[lo, hi]`. */
  lemma RoundedMeanBounds(sum: int, n: int, lo: int, hi: int)
    requires n > 0 && n * lo <= sum <= n * hi
    ensures lo <= RoundedMean(sum, n) <= hi
  {
    var m := RoundedMean(sum, n);
    assert n * (2 * lo) <= 2 * sum;
    CancelPositive(n, 2 * lo, 2 * m + 1);
    assert 2 * sum <= n * (2 * hi);
    CancelPositive(n, 2 * m - 1, 2 * hi + 1);
  }

  /** When every daily price lies in `[lo, hi]`, so does the shown average. */
  lemma AveragePriceBounds(vs: seq<Vehicle>, lo: int, hi: int)
    requires |vs| > 0
    requires forall v :: v in vs ==> lo <= v.pricePerDay <= hi
    ensures lo <= Summarize(vs).averagePrice.value <= hi
  {
    SumBounds(vs, (v: Vehicle) => v.pricePerDay, lo, hi);
    RoundedMeanBounds(Sum(vs, (v: Vehicle) => v.pricePerDay), |vs|, lo, hi);
  }
}
