/** The ride records: a booked `Ride`, its enums and defaults, and the
    snapshot of a ride that is sent to riders and drivers. */
module RideSchema {
  import opened Results
  import UserSchema

  type RideId = nat
  type UserId = UserSchema.UserId
  type Millis = UserSchema.Millis
  type GeoPoint = UserSchema.GeoPoint

  datatype Status = Processing | Accepted | Started | Completed | Cancelled | Terminated | Failed
  datatype VehicleType = Bike | Car
  datatype PaymentMode = Cash | Online
  datatype CancelledBy = CancelledByUser | CancelledByDriver

  /** The first radius, in km, a new ride is sent to (the default of `sentToRadius`). */
  const DefaultRadius: int := 5
  /** The wider radius, in km, used when the first finds nobody. */
  const EscalatedRadius: int := 7

  // ---------------------------------------------------------------------------
  // Enum values as stored; a value outside an enum fails validation on write.

  function StatusName(s: Status): string
  {
    match s
    case Processing => "processing"
    case Accepted => "accepted"
    case Started => "started"
    case Completed => "completed"
    case Cancelled => "cancelled"
    case Terminated => "terminated"
    case Failed => "failed"
  }

  function ParseStatus(x: string): (r: Option<Status>)
    ensures r.Some? ==> StatusName(r.value) == x
  {
    if x == "processing" then Some(Processing)
    else if x == "accepted" then Some(Accepted)
    else if x == "started" then Some(Started)
    else if x == "completed" then Some(Completed)
    else if x == "cancelled" then Some(Cancelled)
    else if x == "terminated" then Some(Terminated)
    else if x == "failed" then Some(Failed)
    else None
  }

  /** The seven status strings are exactly the values the status path accepts. */
  lemma StatusEnum(x: string, s: Status)
    ensures ParseStatus(x) == Some(s) <==> x == StatusName(s)
  {
    match s
    case Processing =>
    case Accepted =>
    case Started =>
    case Completed =>
    case Cancelled =>
    case Terminated =>
    case Failed =>
  }

  function VehicleTypeName(v: VehicleType): string
  {
    match v
    case Bike => "bike"
    case Car => "car"
  }

  function ParseVehicleType(x: string): (r: Option<VehicleType>)
    ensures r.Some? ==> VehicleTypeName(r.value) == x
    ensures r.None? ==> x != "bike" && x != "car"
  {
    if x == "bike" then Some(Bike) else if x == "car" then Some(Car) else None
  }

  function PaymentModeName(m: PaymentMode): string
  {
    match m
    case Cash => "cash"
    case Online => "online"
  }

  function ParsePaymentMode(x: string): (r: Option<PaymentMode>)
    ensures r.Some? ==> PaymentModeName(r.value) == x
    ensures r.None? ==> x != "cash" && x != "online"
  {
    if x == "cash" then Some(Cash) else if x == "online" then Some(Online) else None
  }

  function CancelledByName(c: CancelledBy): string
  {
    match c
    case CancelledByUser => "user"
    case CancelledByDriver => "driver"
  }

  function ParseCancelledBy(x: string): (r: Option<CancelledBy>)
    ensures r.Some? ==> CancelledByName(r.value) == x
    ensures r.None? ==> x != "user" && x != "driver"
  {
    if x == "user" then Some(CancelledByUser) else if x == "driver" then Some(CancelledByDriver) else None
  }

  // ---------------------------------------------------------------------------
  // Records

  /** A ride. `distance`, `fare` and `paymentMode` are required by the schema
      but never supplied when a ride is booked, so they are optional here
      (see `RequiredPathsPresent`). Timestamps are kept by the store. */
  datatype Ride = Ride(
    id: RideId,
    bookedBy: UserId,
    driver: Option<UserId>,
    vehicleType: VehicleType,
    sentToRadius: int,
    distance: Option<real>,
    otp: Option<int>,
    fare: Option<real>,
    paymentMode: Option<PaymentMode>,
    status: Status,
    pickupLocation: GeoPoint,
    dropoffLocation: GeoPoint,
    cancelledBy: Option<CancelledBy>,
    createdAt: Millis,
    updatedAt: Millis)

  /** A ride as the schema completes a booking that gives only the rider,
      the vehicle type and the two points. */
  function NewRide(id: RideId, bookedBy: UserId, vehicleType: VehicleType,
                   pickup: seq<real>, dropoff: seq<real>, now: Millis): (r: Ride)
    ensures r.id == id && r.bookedBy == bookedBy && r.vehicleType == vehicleType
    ensures r.pickupLocation.coordinates == pickup && r.dropoffLocation.coordinates == dropoff
    ensures r.status == Processing && r.sentToRadius == 5
    ensures r.driver.None? && r.otp.None? && r.cancelledBy.None?
    ensures r.createdAt == now && r.updatedAt == now
  {
    Ride(id, bookedBy, None, vehicleType, DefaultRadius, None, None, None, None,
         Processing, UserSchema.GeoPoint(pickup), UserSchema.GeoPoint(dropoff), None, now, now)
  }

  /** The schema's required check on the three paths a booking never sets. */
  predicate RequiredPathsPresent(r: Ride)
  {
    r.distance.Some? && r.fare.Some? && r.paymentMode.Some?
  }

  // ---------------------------------------------------------------------------
  // Outbound snapshots

  /** The ride fields a notification carries; payment fields are never included. */
  datatype RideView = RideView(
    id: RideId,
    bookedBy: UserId,
    driver: Option<UserId>,
    vehicleType: VehicleType,
    status: Status,
    sentToRadius: Option<int>,
    pickupLocation: seq<real>,
    dropoffLocation: seq<real>)

  /** The projection used at booking and by the sweep: id, rider, vehicle
      type, status and the two coordinate pairs; no driver and no radius. */
  function Snapshot(r: Ride): (v: RideView)
    ensures v.id == r.id && v.bookedBy == r.bookedBy && v.status == r.status
    ensures v.driver.None? && v.sentToRadius.None?
  {
    RideView(r.id, r.bookedBy, None, r.vehicleType, r.status, None,
             r.pickupLocation.coordinates, r.dropoffLocation.coordinates)
  }

  /** The projection sent when a ride is accepted: the snapshot with the driver. */
  function AcceptedSnapshot(r: Ride): (v: RideView)
    ensures v.id == r.id && v.driver == r.driver && v.status == r.status && v.sentToRadius.None?
  {
    Snapshot(r).(driver := r.driver)
  }
}
