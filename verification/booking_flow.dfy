/**
  The four-step booking wizard component: its step counter, the vehicles it
  offers, vehicle selection, the submitted price and the submit guard.

  The vehicles come from `GET /api/vehicles`, whose objects carry the
  availability flag under the name `isAvailable`; the component reads a
  property named `available`. `OfferedVehiclesAsWritten` models that read and
  `OfferedVehicles` the evidently intended one.
 */
module BookingFlow {
  import opened Common
  import opened Domain
  import opened Seqs
  import Vehicles

  const StepCount := 4

  predicate ValidStep(step: int)
  {
    1 <= step <= StepCount
  }

  function InitialStep(): (step: int)
    ensures ValidStep(step)
  {
    1
  }

  /** `nextStep`: one step forward, except on the last step. */
  function NextStep(step: int): (next: int)
    ensures step < StepCount ==> next == step + 1
    ensures step >= StepCount ==> next == step
    ensures ValidStep(step) ==> ValidStep(next)
  {
    if step < StepCount then step + 1 else step
  }

  /** `prevStep`: one step back, except on the first step. */
  function PrevStep(step: int): (prev: int)
    ensures step > 1 ==> prev == step - 1
    ensures step <= 1 ==> prev == step
    ensures ValidStep(step) ==> ValidStep(prev)
  {
    if step > 1 then step - 1 else step
  }

  /** Going back after going forward returns to the step, except on the last one. */
  lemma PrevUndoesNext(step: int)
    requires 1 <= step < StepCount
    ensures PrevStep(NextStep(step)) == step
  {
  }

  /** Every sequence of button presses keeps the step within 1 to 4. */
  lemma {:induction false} PressesKeepStepValid(step: int, presses: seq<bool>)
    requires ValidStep(step)
    ensures ValidStep(Replay(step, presses))
    decreases |presses|
  {
    if |presses| > 0 {
      PressesKeepStepValid(if presses[0] then NextStep(step) else PrevStep(step), presses[1..]);
    }
  }

  /** The step after a run of presses; `true` is forward, `false` back. */
  function Replay(step: int, presses: seq<bool>): int
    decreases |presses|
  {
    if |presses| == 0 then step
    else Replay(if presses[0] then NextStep(step) else PrevStep(step), presses[1..])
  }

  // ---------------------------------------------------------------------------
  // The offered vehicles

  /**
    Reading a boolean property of a vehicle object from `GET /api/vehicles`:
    the only boolean property such an object has is `isAvailable`.
   */
  function BooleanProperty(l: Vehicles.VehicleListing, name: string): (r: Option<bool>)
    ensures r.Some? <==> name == "isAvailable"
  {
    if name == "isAvailable" then Some(l.vehicle.isAvailable) else None
  }

  /** A property is truthy when it is present and `true`. */
  predicate Truthy(p: Option<bool>)
  {
    p == Some(true)
  }

  /** The component's filter as written: on the property `available`. */
  function OfferedVehiclesAsWritten(listings: seq<Vehicles.VehicleListing>): (r: seq<Vehicles.VehicleListing>)
    ensures IsSubsequence(r, listings)
  {
    FilterIsSubsequence(listings, (l: Vehicles.VehicleListing) => Truthy(BooleanProperty(l, "available")));
    Filter(listings, (l: Vehicles.VehicleListing) => Truthy(BooleanProperty(l, "available")))
  }

  /** As written, the component offers no vehicle at all, whatever the fleet. */
  lemma OfferedVehiclesAsWrittenIsEmpty(listings: seq<Vehicles.VehicleListing>)
    ensures OfferedVehiclesAsWritten(listings) == []
  {
  }

  /** In particular, an available vehicle is not offered. */
  lemma AvailableVehicleNotOfferedAsWritten(l: Vehicles.VehicleListing)
    requires l.vehicle.isAvailable
    ensures OfferedVehiclesAsWritten([l]) == []
  {
    OfferedVehiclesAsWrittenIsEmpty([l]);
  }

  /** The intended filter: on `isAvailable`. */
  function OfferedVehicles(listings: seq<Vehicles.VehicleListing>): (r: seq<Vehicles.VehicleListing>)
    ensures IsSubsequence(r, listings)
    ensures forall i :: 0 <= i < |r| ==> r[i].vehicle.isAvailable
    ensures forall i :: 0 <= i < |listings| && listings[i].vehicle.isAvailable ==> listings[i] in r
  {
    FilterIsSubsequence(listings, (l: Vehicles.VehicleListing) => Truthy(BooleanProperty(l, "isAvailable")));
    Filter(listings, (l: Vehicles.VehicleListing) => Truthy(BooleanProperty(l, "isAvailable")))
  }

  /** The intended filter offers exactly the available vehicles of the list. */
  lemma OfferedVehiclesAreTheAvailableOnes(listings: seq<Vehicles.VehicleListing>)
    ensures forall l :: l in OfferedVehicles(listings) <==> l in listings && l.vehicle.isAvailable
  {
  }

  // ---------------------------------------------------------------------------
  // Selection and submission

  datatype CustomerInfo = CustomerInfo(name: string, email: string, phone: string, drivingLicense: string)

  /** The wizard's partial booking data; unset fields are `None`. */
  datatype FlowData = FlowData(
    vehicleId: Option<string>,
    pickupLocation: Option<string>,
    dropoffLocation: Option<string>,
    pickupDate: Option<string>,
    dropoffDate: Option<string>,
    totalDays: Option<int>,
    customerInfo: Option<CustomerInfo>)

  datatype FlowState = FlowState(step: int, selected: Option<Vehicles.VehicleListing>, data: FlowData)

  function InitialState(): (s: FlowState)
    ensures s.step == 1 && s.selected.None? && s.data.vehicleId.None? && s.data.customerInfo.None?
  {
    FlowState(InitialStep(), None, FlowData(None, None, None, None, None, None, None))
  }

  /** `handleVehicleSelect`: select the vehicle and record its id; nothing else changes. */
  function SelectVehicle(s: FlowState, l: Vehicles.VehicleListing): (t: FlowState)
    ensures t.selected == Some(l) && t.data.vehicleId == Some(l.vehicle.id)
    ensures t.step == s.step
    ensures t.data.(vehicleId := s.data.vehicleId) == s.data
  {
    s.(selected := Some(l), data := s.data.(vehicleId := Some(l.vehicle.id)))
  }

  /** `calculateTotalPrice(vehicle, totalDays || 1)`: a missing or zero day count prices one day. */
  function SubmittedPrice(pricePerDay: int, totalDays: Option<int>): (p: int)
    ensures (totalDays.None? || totalDays.value == 0) ==> p == pricePerDay
    ensures (totalDays.Some? && totalDays.value != 0) ==> p == pricePerDay * totalDays.value
  {
    pricePerDay * (if totalDays.Some? && totalDays.value != 0 then totalDays.value else 1)
  }

  /** The body posted on submit. */
  datatype Submission = Submission(data: FlowData, vehicleId: string, totalPrice: int)

  predicate CanSubmit(s: FlowState)
  {
    s.selected.Some? && s.data.customerInfo.Some?
  }

  /** `handleBookingSubmit`: nothing without a selected vehicle and customer details. */
  function Submit(s: FlowState): (r: Option<Submission>)
    ensures r.Some? <==> CanSubmit(s)
    ensures r.Some? ==>
      && r.value.vehicleId == s.selected.value.vehicle.id
      && r.value.totalPrice == SubmittedPrice(s.selected.value.vehicle.pricePerDay, s.data.totalDays)
      && r.value.data == s.data
  {
    if !CanSubmit(s) then None
    else
      var v := s.selected.value.vehicle;
      Some(Submission(s.data, v.id, SubmittedPrice(v.pricePerDay, s.data.totalDays)))
  }

  /** Selecting a vehicle makes the submitted id the selected vehicle's, once customer details exist. */
  lemma SubmitAfterSelect(s: FlowState, l: Vehicles.VehicleListing)
    requires s.data.customerInfo.Some?
    ensures Submit(SelectVehicle(s, l)).Some?
    ensures Submit(SelectVehicle(s, l)).value.vehicleId == l.vehicle.id
  {
  }

  // ---------------------------------------------------------------------------
  // The forward button

  datatype ForwardAction = Disabled | Advance | SubmitBooking

  /** What the forward button does: disabled on step 1 with no vehicle, submits on the last step. */
  function Forward(s: FlowState): (a: ForwardAction)
    ensures a == Disabled <==> (s.selected.None? && s.step == 1)
    ensures a == SubmitBooking <==> (s.step == StepCount && !(s.selected.None? && s.step == 1))
  {
    if s.selected.None? && s.step == 1 then Disabled
    else if s.step == StepCount then SubmitBooking
    else Advance
  }

  /** The back button is disabled on the first step. */
  predicate BackDisabled(s: FlowState)
  {
    s.step == 1
  }

  // ---------------------------------------------------------------------------
  // What the wizard can do

  /** The inputs of the details step. */
  datatype DetailField = PickupLocationField | DropoffLocationField | PickupDateField | DropoffDateField

  /**
    Everything the rendered wizard lets a user do: press forward or back,
    pick a vehicle, or edit a details input. Steps 3 and 4 render placeholder
    text only, so no action writes the customer details.
   */
  datatype Action = Press(forward: bool) | Choose(listing: Vehicles.VehicleListing) | EditDetail(field: DetailField, value: string)

  function SetDetail(d: FlowData, field: DetailField, value: string): (e: FlowData)
    ensures e.customerInfo == d.customerInfo && e.vehicleId == d.vehicleId && e.totalDays == d.totalDays
  {
    match field
    case PickupLocationField => d.(pickupLocation := Some(value))
    case DropoffLocationField => d.(dropoffLocation := Some(value))
    case PickupDateField => d.(pickupDate := Some(value))
    case DropoffDateField => d.(dropoffDate := Some(value))
  }

  /** One action. Forward advances only when the button does; on the last step it submits and the state stays. */
  function Apply(s: FlowState, a: Action): (t: FlowState)
    ensures t.data.customerInfo == s.data.customerInfo
    ensures ValidStep(s.step) ==> ValidStep(t.step)
    ensures a.Choose? ==> t.selected == Some(a.listing)
  {
    match a
    case Press(fw) =>
      if !fw then s.(step := PrevStep(s.step))
      else if Forward(s) == Advance then s.(step := NextStep(s.step))
      else s
    case Choose(l) => SelectVehicle(s, l)
    case EditDetail(f, v) => s.(data := SetDetail(s.data, f, v))
  }

  function Run(s: FlowState, actions: seq<Action>): FlowState
    decreases |actions|
  {
    if |actions| == 0 then s else Run(Apply(s, actions[0]), actions[1..])
  }

  /** From the initial state, no sequence of actions ever reaches a state that submits. */
  lemma {:induction false} WizardNeverSubmits(s: FlowState, actions: seq<Action>)
    requires s.data.customerInfo.None?
    ensures Run(s, actions).data.customerInfo.None?
    ensures Submit(Run(s, actions)).None?
    decreases |actions|
  {
    if |actions| > 0 {
      WizardNeverSubmits(Apply(s, actions[0]), actions[1..]);
    }
  }
}
