/**
  The booking page's pure logic: the initial form state, the price preview and
  day count, the pickup/return time slots, the guards on its three steps, and
  the return location shown in the summary. The form is submitted as is, so
  its fields become the admission request.
 */
module BookingPage {
  import opened Common
  import opened Domain
  import BookingAdmission

  /** The booking form; a date is `None` while its input is empty. */
  datatype BookingForm = BookingForm(
    vehicleId: string,
    startDate: Option<int>,
    endDate: Option<int>,
    pickupLocation: string,
    returnLocation: string,
    pickupTime: string,
    returnTime: string)

  /** The customer form of step 2. */
  datatype CustomerForm = CustomerForm(
    firstName: string,
    lastName: string,
    email: string,
    phone: string,
    drivingLicense: string)

  /** The form as first shown, for the `vehicleId` query parameter if any. */
  function InitialForm(queryVehicleId: Option<string>): (f: BookingForm)
    ensures f.vehicleId == queryVehicleId.GetOr("")
    ensures f.startDate.None? && f.endDate.None?
    ensures f.pickupLocation == "" && f.returnLocation == ""
    ensures f.pickupTime == "09:00" && f.returnTime == "18:00"
  {
    BookingForm(queryVehicleId.GetOr(""), None, None, "", "", "09:00", "18:00")
  }

  /** The body the page posts: the form's fields, without a user id. */
  function Request(f: BookingForm): (req: BookingAdmission.BookingRequest)
    ensures req.userId.None?
    ensures req.vehicleId == f.vehicleId && req.startDate == f.startDate && req.endDate == f.endDate
    ensures req.pickupLocation == f.pickupLocation && req.returnLocation == f.returnLocation
    ensures req.pickupTime == f.pickupTime && req.returnTime == f.returnTime
  {
    BookingAdmission.BookingRequest(f.vehicleId, f.startDate, f.endDate, f.pickupLocation,
                                    f.returnLocation, f.pickupTime, f.returnTime, None)
  }

  // ---------------------------------------------------------------------------
  // Price preview

  /** The displayed number of days, never below 1. */
  function DisplayedDays(startDate: int, endDate: int): (d: int)
    ensures d >= 1
    ensures endDate - startDate >= 1 ==> d == endDate - startDate
    ensures endDate - startDate < 1 ==> d == 1
  {
    Max(1, endDate - startDate)
  }

  /** `calculateTotalPrice`: 0 without a vehicle or a date, else the displayed days times the daily price. */
  function PreviewPrice(vehicle: Option<Vehicle>, f: BookingForm): (p: int)
    ensures (vehicle.None? || f.startDate.None? || f.endDate.None?) ==> p == 0
    ensures (vehicle.Some? && f.startDate.Some? && f.endDate.Some?) ==>
      p == DisplayedDays(f.startDate.value, f.endDate.value) * vehicle.value.pricePerDay
  {
    if vehicle.None? || f.startDate.None? || f.endDate.None? then 0
    else DisplayedDays(f.startDate.value, f.endDate.value) * vehicle.value.pricePerDay
  }

  /**
    The preview agrees with the price the server stores exactly when the range
    spans at least one day or the vehicle is free.
   */
  lemma PreviewMatchesServerIff(v: Vehicle, s: int, e: int, f: BookingForm)
    requires f.startDate == Some(s) && f.endDate == Some(e)
    ensures PreviewPrice(Some(v), f) == BookingAdmission.ServerPrice(s, e, v.pricePerDay)
      <==> (e - s >= 1 || v.pricePerDay == 0)
  {
    var p := v.pricePerDay;
    if e - s < 1 {
      assert PreviewPrice(Some(v), f) - BookingAdmission.ServerPrice(s, e, p) == (1 - (e - s)) * p;
      if p != 0 {
        assert (1 - (e - s)) * p != 0;
      }
    }
  }

  /** A same-day range is previewed at one day's price, while the server stores 0. */
  lemma SameDayPreviewDiffers(v: Vehicle, d: int, f: BookingForm)
    requires f.startDate == Some(d) && f.endDate == Some(d) && v.pricePerDay > 0
    ensures PreviewPrice(Some(v), f) == v.pricePerDay
    ensures BookingAdmission.ServerPrice(d, d, v.pricePerDay) == 0
  {
  }

  // ---------------------------------------------------------------------------
  // Time slots

  function Digit(n: int): (c: char)
    requires 0 <= n < 10
  {
    (48 + n) as char
  }

  /** `n.toString()` for `0 <= n < 100`. */
  function DecimalString(n: int): (s: string)
    requires 0 <= n < 100
  {
    if n < 10 then [Digit(n)] else [Digit(n / 10), Digit(n % 10)]
  }

  /** `n` zero digits. */
  function Zeros(n: nat): (z: string)
    ensures |z| == n && forall i :: 0 <= i < n ==> z[i] == '0'
  {
    seq(n, _ => '0')
  }

  /** `s.padStart(2, '0')`: zeros in front of `s` up to two characters. */
  function PadStart2(s: string): (r: string)
    ensures |r| == if |s| >= 2 then |s| else 2
    ensures r == Zeros(|r| - |s|) + s
  {
    if |s| >= 2 then s else Zeros(2 - |s|) + s
  }

  const SlotCount := 12
  const FirstSlotHour := 8

  /** The option for hour `h`: its two decimal digits, then `:00`. */
  function Slot(h: int): (s: string)
    requires 0 <= h < 100
    ensures s == [Digit(h / 10), Digit(h % 10)] + ":00"
  {
    var d := DecimalString(h);
    assert h < 10 ==> PadStart2(d) == ['0', Digit(h)];
    PadStart2(d) + ":00"
  }

  /** The options of each time select: hours 8 to 19, zero-padded, on the hour. */
  function TimeSlots(): (slots: seq<string>)
    ensures |slots| == SlotCount
    ensures forall i :: 0 <= i < |slots| ==> slots[i] == Slot(i + FirstSlotHour)
  {
    seq(SlotCount, i requires 0 <= i < SlotCount => Slot(i + FirstSlotHour))
  }

  /** The hour an `HH:MM` slot stands for. */
  function SlotHour(s: string): int
    requires |s| >= 2
  {
    ((s[0] as int) - 48) * 10 + ((s[1] as int) - 48)
  }

  /** A slot reads back as its hour. */
  lemma SlotReadsBack(h: int)
    requires 0 <= h < 100
    ensures |Slot(h)| >= 2 && SlotHour(Slot(h)) == h
  {
    var s := Slot(h);
    assert s[0] == Digit(h / 10) && s[1] == Digit(h % 10);
  }

  /** Each slot reads back as its hour, so the slots are `08:00` to `19:00`, all distinct. */
  lemma TimeSlotHours()
    ensures forall i :: 0 <= i < SlotCount ==> SlotHour(TimeSlots()[i]) == FirstSlotHour + i
    ensures TimeSlots()[0] == "08:00" && TimeSlots()[SlotCount - 1] == "19:00"
    ensures forall i, j :: 0 <= i < j < SlotCount ==> TimeSlots()[i] != TimeSlots()[j]
  {
    var slots := TimeSlots();
    forall i | 0 <= i < SlotCount
      ensures SlotHour(slots[i]) == FirstSlotHour + i
    {
      SlotReadsBack(i + FirstSlotHour);
    }
    forall i, j | 0 <= i < j < SlotCount
      ensures slots[i] != slots[j]
    {
      SlotReadsBack(i + FirstSlotHour);
      SlotReadsBack(j + FirstSlotHour);
    }
    FirstAndLastSlot();
  }

  lemma FirstAndLastSlot()
    ensures Slot(8) == "08:00" && Slot(19) == "19:00"
  {
    assert Slot(8) == ['0', '8'] + ":00";
    assert Slot(19) == ['1', '9'] + ":00";
  }

  /** The initial pickup and return times are among the offered slots. */
  lemma InitialTimesAreSlots(q: Option<string>)
    ensures InitialForm(q).pickupTime == TimeSlots()[1]
    ensures InitialForm(q).returnTime == TimeSlots()[10]
  {
    assert TimeSlots()[1] == ['0', '9'] + ":00";
    assert TimeSlots()[10] == ['1', '8'] + ":00";
  }

  // ---------------------------------------------------------------------------
  // Steps: 1 details, 2 customer, 3 summary and payment

  predicate DetailsComplete(f: BookingForm)
  {
    f.startDate.Some? && f.endDate.Some? && f.pickupLocation != ""
  }

  predicate CustomerComplete(c: CustomerForm)
  {
    c.firstName != "" && c.lastName != "" && c.email != "" && c.phone != ""
  }

  /** The step after pressing "Dalej"; a disabled button leaves the step as it is. */
  function Forward(step: int, f: BookingForm, c: CustomerForm): (next: int)
    ensures step == 1 ==> (next == 2 <==> DetailsComplete(f))
    ensures step == 2 ==> (next == 3 <==> CustomerComplete(c))
    ensures next == step || next == step + 1
    ensures (step != 1 && step != 2) ==> next == step
  {
    if step == 1 && DetailsComplete(f) then 2
    else if step == 2 && CustomerComplete(c) then 3
    else step
  }

  /** The step after pressing "Wstecz". */
  function Back(step: int): (prev: int)
    ensures (step == 2 || step == 3) ==> prev == step - 1
    ensures (step != 2 && step != 3) ==> prev == step
  {
    if step == 2 then 1 else if step == 3 then 2 else step
  }

  /** The driving licence field never holds the customer step back. */
  lemma DrivingLicenceNotRequired(f: BookingForm, c: CustomerForm, licence: string)
    ensures Forward(2, f, c) == Forward(2, f, c.(drivingLicense := licence))
  {
  }

  /** The steps stay within 1 to 3. */
  lemma StepsStayInRange(step: int, f: BookingForm, c: CustomerForm)
    requires 1 <= step <= 3
    ensures 1 <= Forward(step, f, c) <= 3 && 1 <= Back(step) <= 3
  {
  }

  /** Reaching the payment step needs complete details: the request then passes the field check. */
  lemma DetailsStepGuardsRequiredFields(f: BookingForm)
    requires DetailsComplete(f) && f.vehicleId != "" && f.pickupTime != ""
    ensures BookingAdmission.HasRequiredFields(Request(f))
  {
  }

  // ---------------------------------------------------------------------------
  // Summary

  /** The return location in the summary: the chosen one, else the pickup location. */
  function ShownReturnLocation(f: BookingForm): (loc: string)
    ensures f.returnLocation != "" ==> loc == f.returnLocation
    ensures f.returnLocation == "" ==> loc == f.pickupLocation
  {
    OrElse(f.returnLocation, f.pickupLocation)
  }

  /** The summary shows the return location the server goes on to store. */
  lemma ShownReturnLocationIsStored(st: Store, f: BookingForm, newId: string, now: int)
    requires BookingAdmission.Admit(st, Request(f), newId, now).0.Ok?
    ensures BookingAdmission.Admit(st, Request(f), newId, now).0.data.returnLocation == ShownReturnLocation(f)
  {
  }
}
