/**
  The records the rental application stores: users, vehicles, bookings,
  reviews and subscription plans, and the in-memory store that stands for the
  relational database. Timestamps are integers (milliseconds); booking dates
  are whole day numbers; money is an integer amount.
 */
module Domain {
  import opened Common
  import opened Seqs

  datatype VehicleType = Car | Bike | Scooter

  /** The stored name of a vehicle type. */
  function TypeName(t: VehicleType): string
  {
    match t
    case Car => "CAR"
    case Bike => "BIKE"
    case Scooter => "SCOOTER"
  }

  /** The vehicle type with exactly this stored name, if any. */
  function ParseType(s: string): (r: Option<VehicleType>)
    ensures r.Some? ==> TypeName(r.value) == s
    ensures r.None? ==> s != "CAR" && s != "BIKE" && s != "SCOOTER"
  {
    if s == "CAR" then Some(Car)
    else if s == "BIKE" then Some(Bike)
    else if s == "SCOOTER" then Some(Scooter)
    else None
  }

  /** Every type name parses back to its type. */
  lemma ParseTypeName(t: VehicleType)
    ensures ParseType(TypeName(t)) == Some(t)
  {
  }

  datatype BookingStatus = Pending | Confirmed | Active | Completed | Cancelled

  datatype PaymentStatus = PaymentPending | Paid | Failed | Refunded

  datatype Role = Client | Manager | Admin

  datatype User = User(
    id: string,
    email: string,
    password: string,
    firstName: string,
    lastName: string,
    phone: Option<string>,
    role: Role)

  datatype Vehicle = Vehicle(
    id: string,
    vehicleType: VehicleType,
    brand: string,
    model: string,
    year: int,
    licensePlate: string,
    color: Option<string>,
    description: Option<string>,
    pricePerDay: int,
    isAvailable: bool,
    location: string,
    features: string,   // comma-joined list
    images: string,     // comma-joined list
    createdAt: int)

  datatype Booking = Booking(
    id: string,
    userId: string,
    vehicleId: string,
    startDate: int,
    endDate: int,
    totalPrice: int,
    pickupLocation: string,
    returnLocation: string,
    pickupTime: string,
    returnTime: string,
    status: BookingStatus,
    createdAt: int)

  datatype Review = Review(
    id: string,
    userId: string,
    vehicleId: string,
    rating: int,
    comment: Option<string>,
    createdAt: int)

  datatype Plan = Plan(
    id: string,
    name: string,
    price: int,
    currency: string,
    duration: string,
    features: string,   // comma-joined list
    isActive: bool)

  /** The database: one table per record kind, in insertion order. */
  datatype Store = Store(
    users: seq<User>,
    vehicles: seq<Vehicle>,
    bookings: seq<Booking>,
    reviews: seq<Review>,
    plans: seq<Plan>)

  predicate HasUser(st: Store, id: string)
  {
    exists u :: u in st.users && u.id == id
  }

  predicate HasVehicle(st: Store, id: string)
  {
    exists v :: v in st.vehicles && v.id == id
  }

  predicate EmailTaken(st: Store, email: string)
  {
    exists u :: u in st.users && u.email == email
  }

  /** No two accounts share an email address; the users table looks accounts up by e-mail. */
  ghost predicate UniqueEmails(users: seq<User>)
  {
    forall i, j :: 0 <= i < j < |users| ==> users[i].email != users[j].email
  }

  /** `prisma.vehicle.findUnique({ where: { id } })`. */
  function FindVehicle(st: Store, id: string): (r: Option<Vehicle>)
    ensures r.Some? ==> r.value in st.vehicles && r.value.id == id
    ensures r.None? <==> !HasVehicle(st, id)
  {
    Find(st.vehicles, (v: Vehicle) => v.id == id)
  }
}
