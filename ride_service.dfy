/** Booking and accepting rides. A booking is checked, stored as a
    `processing` ride at radius 5 and sent to the drivers found within 5 km,
    or, when there are none, to those within 7 km (raising the stored radius
    to 7); when both searches are empty the ride is deleted again and the
    booking fails. Accepting is a conditional update that succeeds only while
    the stored status is still `processing`. */
module RideService {
  import opened Results
  import opened RideSchema
  import opened RideStore
  import opened RideGateway
  import UserSchema

  /** How a coordinates field of the request arrived: absent or falsy, some
      other truthy value, or an array. */
  datatype CoordinatesField = Missing | NotAnArray | Array(values: seq<real>)

  datatype CreateRideRequest = CreateRideRequest(
    pickupLocationCoordinates: CoordinatesField,
    dropoffLocationCoordinates: CoordinatesField,
    vehicleType: Option<string>)

  datatype RideError =
    | UserNotFound
    | DropoffRequired
    | PickupRequired
    | VehicleTypeRequired
    | SchemaValidationFailed
    | NoDriverAvailable
    | NotADriver
    | AlreadyAcceptedOrNotFound

  /** `getNearbyDrivers` and the sweep's `$near` query: the accounts with
      role `driver` within `maxMeters` of a point, nearest first, and, when a
      vehicle type is given, only those whose vehicle details have that type. */
  type DriverSearch = (GeoPoint, int, Option<VehicleType>) -> seq<UserId>

  /** The search radius in metres for a radius in km. */
  function SearchMeters(radiusKm: int): int
  {
    radiusKm * 1000
  }

  /** An array of exactly two values. */
  predicate IsPair(f: CoordinatesField)
  {
    f.Array? && |f.values| == 2
  }

  /** A request that passed the checks of `createRide`. */
  datatype Booking = Booking(bookedBy: UserId, pickup: seq<real>, dropoff: seq<real>, vehicleType: string)

  /** The checks of `createRide`, in their order: a caller, then the dropoff
      pair, then the pickup pair, then a non-empty vehicle type. */
  function ValidateCreate(caller: Option<UserSchema.User>, req: CreateRideRequest): (r: Result<Booking, RideError>)
    ensures r.Ok? <==>
      caller.Some? && IsPair(req.dropoffLocationCoordinates) && IsPair(req.pickupLocationCoordinates)
      && req.vehicleType.Some? && req.vehicleType.value != ""
    ensures caller.None? ==> r == Err(UserNotFound)
    ensures caller.Some? && !IsPair(req.dropoffLocationCoordinates) ==> r == Err(DropoffRequired)
    ensures caller.Some? && IsPair(req.dropoffLocationCoordinates) && !IsPair(req.pickupLocationCoordinates)
            ==> r == Err(PickupRequired)
    ensures caller.Some? && IsPair(req.dropoffLocationCoordinates) && IsPair(req.pickupLocationCoordinates)
            && (req.vehicleType.None? || req.vehicleType.value == "")
            ==> r == Err(VehicleTypeRequired)
    ensures r.Err? ==> r.error in {UserNotFound, DropoffRequired, PickupRequired, VehicleTypeRequired}
    ensures r.Ok? ==> r.value == Booking(caller.value.id, req.pickupLocationCoordinates.values,
                                         req.dropoffLocationCoordinates.values, req.vehicleType.value)
  {
    if caller.None? then Err(UserNotFound)
    else if !IsPair(req.dropoffLocationCoordinates) then Err(DropoffRequired)
    else if !IsPair(req.pickupLocationCoordinates) then Err(PickupRequired)
    else if req.vehicleType.None? || req.vehicleType.value == "" then Err(VehicleTypeRequired)
    else Ok(Booking(caller.value.id, req.pickupLocationCoordinates.values,
                    req.dropoffLocationCoordinates.values, req.vehicleType.value))
  }

  /** The tier a new ride is dispatched at and the drivers it is sent to. */
  datatype Dispatch = Dispatch(radius: int, drivers: seq<UserId>)

  /** Tiered dispatch: the 5 km list when it is non-empty, else the 7 km list
      when that is non-empty, else nothing. */
  function PlanDispatch(within5: seq<UserId>, within7: seq<UserId>): (d: Option<Dispatch>)
    ensures d.None? <==> within5 == [] && within7 == []
    ensures within5 != [] ==> d == Some(Dispatch(DefaultRadius, within5))
    ensures within5 == [] && within7 != [] ==> d == Some(Dispatch(EscalatedRadius, within7))
  {
    if within5 != [] then Some(Dispatch(DefaultRadius, within5))
    else if within7 != [] then Some(Dispatch(EscalatedRadius, within7))
    else None
  }

  /** What one call does: its answer, the ride collection afterwards, and
      what it emitted. */
  datatype Outcome = Outcome(result: Result<RideView, RideError>, rides: seq<Ride>, emitted: seq<Emission>)

  /** The drivers of a vehicle type that a pickup point finds within `radiusKm`. */
  function Around(nearby: DriverSearch, pickup: seq<real>, vehicleType: VehicleType, radiusKm: int): seq<UserId>
  {
    nearby(UserSchema.GeoPoint(pickup), SearchMeters(radiusKm), Some(vehicleType))
  }

  /** The drivers a new ride's pickup point finds within `radiusKm`. */
  function Nearby(nearby: DriverSearch, r: Ride, radiusKm: int): seq<UserId>
  {
    Around(nearby, r.pickupLocation.coordinates, r.vehicleType, radiusKm)
  }

  /** A checked booking whose vehicle type is in the enum and for which one
      of the two searches around its pickup point finds a driver. */
  predicate Dispatchable(b: Booking, nearby: DriverSearch)
  {
    && ParseVehicleType(b.vehicleType).Some?
    && var vt := ParseVehicleType(b.vehicleType).value;
       (Around(nearby, b.pickup, vt, DefaultRadius) != [] || Around(nearby, b.pickup, vt, EscalatedRadius) != [])
  }

  /** `createRide` as one step. A failure of any kind leaves the collection
      as it was and emits nothing; a success appends exactly one
      `processing` ride of the caller, at radius 5 when the 5 km search found
      drivers and at 7 otherwise, and sends `ride-request` to exactly the
      drivers of that tier. */
  function CreateOutcome(table: seq<Ride>, nextId: RideId, connected: map<UserId, SocketId>,
                         caller: Option<UserSchema.User>, req: CreateRideRequest, now: Millis,
                         nearby: DriverSearch): (o: Outcome)
    ensures o.result.Err? ==> o.rides == table && o.emitted == []
    ensures ValidateCreate(caller, req).Err? ==> o.result == Err(ValidateCreate(caller, req).error)
    ensures o.result.Ok? <==> ValidateCreate(caller, req).Ok? && Dispatchable(ValidateCreate(caller, req).value, nearby)
    ensures ValidateCreate(caller, req).Ok? && ParseVehicleType(req.vehicleType.value).None?
            ==> o.result == Err(SchemaValidationFailed)
    ensures ValidateCreate(caller, req).Ok? && ParseVehicleType(req.vehicleType.value).Some?
            && !Dispatchable(ValidateCreate(caller, req).value, nearby)
            ==> o.result == Err(NoDriverAvailable)
    ensures o.result.Ok? ==> ValidateCreate(caller, req).Ok? && caller.Some?
    ensures o.result.Ok? ==>
      |o.rides| == |table| + 1 && o.rides[..|table|] == table
      && var r := o.rides[|table|];
         && r.pickupLocation == UserSchema.GeoPoint(req.pickupLocationCoordinates.values)
         && r.dropoffLocation == UserSchema.GeoPoint(req.dropoffLocationCoordinates.values)
         && r.vehicleType == ParseVehicleType(req.vehicleType.value).value
         && r.distance.None? && r.fare.None? && r.paymentMode.None? && r.otp.None? && r.cancelledBy.None?
         && r.id == nextId && r.bookedBy == caller.value.id
         && r.status == Processing && r.driver.None? && r.createdAt == now && r.updatedAt == now
         && o.result.value == Snapshot(r)
         && (Nearby(nearby, r, 5) != [] ==>
               r.sentToRadius == 5 && o.emitted == Broadcast(connected, Nearby(nearby, r, 5), RideRequest, Details(Snapshot(r))))
         && (Nearby(nearby, r, 5) == [] ==>
               r.sentToRadius == 7 && o.emitted == Broadcast(connected, Nearby(nearby, r, 7), RideRequest, Details(Snapshot(r))))
  {
    match ValidateCreate(caller, req)
    case Err(e) => Outcome(Err(e), table, [])
    case Ok(b) =>
      match ParseVehicleType(b.vehicleType)
      case None => Outcome(Err(SchemaValidationFailed), table, [])
      case Some(vt) =>
        var ride := NewRide(nextId, b.bookedBy, vt, b.pickup, b.dropoff, now);
        match PlanDispatch(Nearby(nearby, ride, DefaultRadius), Nearby(nearby, ride, EscalatedRadius))
        case None => Outcome(Err(NoDriverAvailable), table, [])
        case Some(d) =>
          var stored := if d.radius == DefaultRadius then ride else Apply(ride, SetRadius(EscalatedRadius), now);
          assert Snapshot(stored) == Snapshot(ride);
          Outcome(Ok(Snapshot(ride)), table + [stored],
                  Broadcast(connected, d.drivers, RideRequest, Details(Snapshot(ride))))
  }

  /** `acceptRide` as one step: a caller that is not a driver is refused; a
      ride that is not found with status `processing` is refused; otherwise
      that one ride gets the caller as driver and status `accepted`, and its
      rider is sent `ride-accepted`. */
  function AcceptOutcome(table: seq<Ride>, connected: map<UserId, SocketId>,
                         caller: Option<UserSchema.User>, rideId: RideId, now: Millis): (o: Outcome)
    ensures o.result.Err? ==> o.rides == table && o.emitted == []
    ensures caller.None? || caller.value.role != UserSchema.Driver ==> o.result == Err(NotADriver)
    ensures caller.Some? && caller.value.role == UserSchema.Driver && IndexOfIdWithStatus(table, rideId, Processing).None?
            ==> o.result == Err(AlreadyAcceptedOrNotFound)
    ensures o.result.Ok? <==>
      caller.Some? && caller.value.role == UserSchema.Driver && IndexOfIdWithStatus(table, rideId, Processing).Some?
    ensures o.result.Ok? ==>
      var i := IndexOfIdWithStatus(table, rideId, Processing).value;
      && |o.rides| == |table| && o.rides == table[i := o.rides[i]]
      && o.rides[i].id == rideId && o.rides[i].bookedBy == table[i].bookedBy
      && o.rides[i] == table[i].(driver := Some(caller.value.id), status := Accepted, updatedAt := now)
      && o.result.value == AcceptedSnapshot(o.rides[i])
      && o.emitted == Delivery(connected, table[i].bookedBy, RideAccepted, Details(o.result.value))
  {
    if caller.None? || caller.value.role != UserSchema.Driver then Outcome(Err(NotADriver), table, [])
    else
      match IndexOfIdWithStatus(table, rideId, Processing)
      case None => Outcome(Err(AlreadyAcceptedOrNotFound), table, [])
      case Some(i) =>
        var updated := Apply(table[i], AssignDriver(caller.value.id), now);
        Outcome(Ok(AcceptedSnapshot(updated)), table[i := updated],
                Delivery(connected, updated.bookedBy, RideAccepted, Details(AcceptedSnapshot(updated))))
  }

  // ---------------------------------------------------------------------------
  // Properties of the two operations

  /** The dispatch invariant: a ride waiting for a driver has none, an
      accepted ride has one, and the radius is one of the two tiers. */
  ghost predicate RideWellFormed(r: Ride)
  {
    && (r.status == Processing ==> r.driver.None?)
    && (r.status == Accepted ==> r.driver.Some?)
    && (r.sentToRadius == DefaultRadius || r.sentToRadius == EscalatedRadius)
  }

  ghost predicate TableWellFormed(rides: seq<Ride>)
  {
    IdsIncreasing(rides) && forall k :: 0 <= k < |rides| ==> RideWellFormed(rides[k])
  }

  lemma CreatePreservesWellFormed(table: seq<Ride>, nextId: RideId, connected: map<UserId, SocketId>,
                                  caller: Option<UserSchema.User>, req: CreateRideRequest, now: Millis,
                                  nearby: DriverSearch)
    requires TableWellFormed(table) && forall k :: 0 <= k < |table| ==> table[k].id < nextId
    ensures TableWellFormed(CreateOutcome(table, nextId, connected, caller, req, now, nearby).rides)
  {
    var o := CreateOutcome(table, nextId, connected, caller, req, now, nearby);
    if o.result.Ok? {
      var r := o.rides[|table|];
      assert o.rides == table + [r];
      assert RideWellFormed(r);
      AppendFresh(table, r);
      AppendWellFormed(table, r);
    }
  }

  /** Appending a well-formed ride keeps every stored ride well formed. */
  lemma AppendWellFormed(rides: seq<Ride>, r: Ride)
    requires IdsIncreasing(rides + [r])
    requires forall k :: 0 <= k < |rides| ==> RideWellFormed(rides[k])
    requires RideWellFormed(r)
    ensures TableWellFormed(rides + [r])
  {
    var all := rides + [r];
    forall k | 0 <= k < |all| ensures RideWellFormed(all[k]) {
      if k < |rides| {
        assert all[k] == rides[k];
      }
    }
  }

  /** Accepting keeps the invariant, and the ride it changes had no driver:
      a driver is set once, when the ride leaves `processing`, and never replaced. */
  lemma AcceptPreservesWellFormed(table: seq<Ride>, connected: map<UserId, SocketId>,
                                  caller: Option<UserSchema.User>, rideId: RideId, now: Millis)
    requires TableWellFormed(table)
    ensures var o := AcceptOutcome(table, connected, caller, rideId, now);
      && TableWellFormed(o.rides)
      && (o.result.Ok? ==> table[IndexOfIdWithStatus(table, rideId, Processing).value].driver.None?)
  {
    var o := AcceptOutcome(table, connected, caller, rideId, now);
    if o.result.Ok? {
      var i := IndexOfIdWithStatus(table, rideId, Processing).value;
      assert forall k :: 0 <= k < |table| && k != i ==> o.rides[k] == table[k];
      assert IdsIncreasing(o.rides) by {
        forall a, b | 0 <= a < b < |o.rides| ensures o.rides[a].id < o.rides[b].id {
          assert o.rides[a].id == table[a].id && o.rides[b].id == table[b].id;
        }
      }
    }
  }

  /** At most one accept of a ride succeeds: once an accept has gone through,
      every later accept of the same ride, by any caller, fails and changes nothing. */
  lemma SecondAcceptFails(table: seq<Ride>, c1: map<UserId, SocketId>, c2: map<UserId, SocketId>,
                          first: Option<UserSchema.User>, second: Option<UserSchema.User>,
                          rideId: RideId, t1: Millis, t2: Millis)
    requires IdsIncreasing(table)
    requires AcceptOutcome(table, c1, first, rideId, t1).result.Ok?
    ensures var after := AcceptOutcome(table, c1, first, rideId, t1).rides;
      && AcceptOutcome(after, c2, second, rideId, t2).result.Err?
      && AcceptOutcome(after, c2, second, rideId, t2).rides == after
  {
    var after := AcceptOutcome(table, c1, first, rideId, t1).rides;
    var i := IndexOfIdWithStatus(table, rideId, Processing).value;
    assert IdsIncreasing(after) by {
      forall a, b | 0 <= a < b < |after| ensures after[a].id < after[b].id {
        assert after[a].id == table[a].id && after[b].id == table[b].id;
      }
    }
    IndexOfDistinctId(after, i);
    IndexOfIdWithStatusUnique(after, rideId, Processing);
  }

  /** A ride just booked can be accepted by any driver. */
  lemma BookedRideIsAcceptable(table: seq<Ride>, nextId: RideId, connected: map<UserId, SocketId>,
                               caller: Option<UserSchema.User>, req: CreateRideRequest, now: Millis,
                               nearby: DriverSearch, driver: UserSchema.User, later: Millis)
    requires IdsIncreasing(table) && forall k :: 0 <= k < |table| ==> table[k].id < nextId
    requires CreateOutcome(table, nextId, connected, caller, req, now, nearby).result.Ok?
    requires driver.role == UserSchema.Driver
    ensures var booked := CreateOutcome(table, nextId, connected, caller, req, now, nearby).rides;
      AcceptOutcome(booked, connected, Some(driver), nextId, later).result.Ok?
  {
    var booked := CreateOutcome(table, nextId, connected, caller, req, now, nearby).rides;
    var n := |table|;
    assert booked == table + [booked[n]];
    assert booked[n].id == nextId && booked[n].status == Processing;
    AppendFresh(table, booked[n]);
    WaitingRideIsAcceptable(booked, n, connected, driver, later);
  }

  /** Appending a ride whose id exceeds every stored id keeps ids increasing. */
  lemma AppendFresh(rides: seq<Ride>, r: Ride)
    requires IdsIncreasing(rides) && forall k :: 0 <= k < |rides| ==> rides[k].id < r.id
    ensures IdsIncreasing(rides + [r])
  {
  }

  /** A ride still `processing` is accepted by the next driver that tries. */
  lemma WaitingRideIsAcceptable(rides: seq<Ride>, i: nat, connected: map<UserId, SocketId>,
                                driver: UserSchema.User, now: Millis)
    requires IdsIncreasing(rides) && i < |rides| && rides[i].status == Processing
    requires driver.role == UserSchema.Driver
    ensures AcceptOutcome(rides, connected, Some(driver), rides[i].id, now).result.Ok?
  {
    IndexOfDistinctId(rides, i);
    IndexOfIdWithStatusUnique(rides, rides[i].id, Processing);
  }

  // ---------------------------------------------------------------------------
  // The booking as written: the schema's required check on the insert

  /** `createRide` with the insert checked against the schema as it is
      declared: `distance`, `fare` and `paymentMode` are required, and a
      vehicle type outside the enum is refused. A booking never sets the
      three paths, so the branch that goes on to `CreateOutcome` is never
      taken (`BookingAsWrittenNeverStored`); it stands for what the code
      would do if the insert went through. */
  function CreateOutcomeAsWritten(table: seq<Ride>, nextId: RideId, connected: map<UserId, SocketId>,
                                  caller: Option<UserSchema.User>, req: CreateRideRequest, now: Millis,
                                  nearby: DriverSearch): (o: Outcome)
    ensures o.result.Err? ==> o.rides == table && o.emitted == []
  {
    match ValidateCreate(caller, req)
    case Err(e) => Outcome(Err(e), table, [])
    case Ok(b) =>
      match ParseVehicleType(b.vehicleType)
      case None => Outcome(Err(SchemaValidationFailed), table, [])
      case Some(vt) =>
        if RequiredPathsPresent(NewRide(nextId, b.bookedBy, vt, b.pickup, b.dropoff, now))
        then CreateOutcome(table, nextId, connected, caller, req, now, nearby)
        else Outcome(Err(SchemaValidationFailed), table, [])
  }

  /** As written, no booking is ever stored or dispatched: every request
      that passes the checks is refused by the schema's required check. */
  lemma BookingAsWrittenNeverStored(table: seq<Ride>, nextId: RideId, connected: map<UserId, SocketId>,
                                    caller: Option<UserSchema.User>, req: CreateRideRequest, now: Millis,
                                    nearby: DriverSearch)
    requires ValidateCreate(caller, req).Ok?
    ensures var o := CreateOutcomeAsWritten(table, nextId, connected, caller, req, now, nearby);
      o.result == Err(SchemaValidationFailed) && o.rides == table && o.emitted == []
  {
  }

  // ---------------------------------------------------------------------------
  // The service

  /** One `ride-request` per driver, in order: the loop both the booking and
      the sweep run over a driver search. */
  method NotifyDrivers(gateway: Gateway, drivers: seq<UserId>, view: RideView)
    modifies gateway`emitted
    ensures gateway.emitted == old(gateway.emitted) + Broadcast(gateway.connectedUsers, drivers, RideRequest, Details(view))
  {
    var j := 0;
    while j < |drivers|
      invariant 0 <= j <= |drivers|
      invariant gateway.emitted == old(gateway.emitted) + Broadcast(gateway.connectedUsers, drivers[..j], RideRequest, Details(view))
    {
      gateway.SendRideRequest(drivers[j], view);
      assert drivers[..j + 1][..j] == drivers[..j];
      j := j + 1;
    }
    assert drivers[..j] == drivers;
  }

  class RideService {
    const table: RideTable
    const gateway: Gateway

    constructor (table: RideTable, gateway: Gateway)
      ensures this.table == table && this.gateway == gateway
    {
      this.table := table;
      this.gateway := gateway;
    }

    /** `createRide`: the checks, the insert, then the dispatch. */
    method CreateRide(caller: Option<UserSchema.User>, req: CreateRideRequest, now: Millis, nearby: DriverSearch)
      returns (result: Result<RideView, RideError>)
      requires table.Valid()
      modifies table, gateway`emitted
      ensures table.Valid()
      ensures var o := CreateOutcome(old(table.rides), old(table.nextId), gateway.connectedUsers, caller, req, now, nearby);
        && result == o.result
        && table.rides == o.rides
        && gateway.emitted == old(gateway.emitted) + o.emitted
    {
      var checked := ValidateCreate(caller, req);
      if checked.Err? {
        return Err(checked.error);
      }
      var booking := checked.value;
      var vehicleType := ParseVehicleType(booking.vehicleType);
      if vehicleType.None? {
        // the schema's enum check refuses the insert
        return Err(SchemaValidationFailed);
      }
      var ride := table.Create(booking.bookedBy, vehicleType.value, booking.pickup, booking.dropoff, now);
      var sent := SendRideRequestToDrivers(ride, now, nearby);
      result := if sent then Ok(Snapshot(ride)) else Err(NoDriverAvailable);
    }

    /** `sendRideRequestToDrivers`, for the ride just appended: the tiered
        search, then either the delete or the radius update and one
        `ride-request` per driver of the tier. */
    method SendRideRequestToDrivers(ride: Ride, now: Millis, nearby: DriverSearch) returns (sent: bool)
      requires table.Valid() && |table.rides| > 0 && table.rides[|table.rides| - 1] == ride
      requires ride.sentToRadius == DefaultRadius
      modifies table`rides, gateway`emitted
      ensures table.Valid()
      ensures var n := |old(table.rides)| - 1;
        match PlanDispatch(Nearby(nearby, ride, DefaultRadius), Nearby(nearby, ride, EscalatedRadius))
        case None =>
          !sent && table.rides == old(table.rides)[..n] && gateway.emitted == old(gateway.emitted)
        case Some(d) =>
          && sent
          && table.rides == (if d.radius == DefaultRadius then old(table.rides)
                             else old(table.rides)[n := Apply(ride, SetRadius(EscalatedRadius), now)])
          && gateway.emitted == old(gateway.emitted) + Broadcast(gateway.connectedUsers, d.drivers, RideRequest, Details(Snapshot(ride)))
    {
      ghost var n := |table.rides| - 1;
      assert table.rides == table.rides[..n] + [ride];
      var drivers := nearby(ride.pickupLocation, SearchMeters(DefaultRadius), Some(ride.vehicleType));
      if |drivers| == 0 {
        var wider := nearby(ride.pickupLocation, SearchMeters(EscalatedRadius), Some(ride.vehicleType));
        if |wider| == 0 {
          DeleteLast(table.rides[..n], ride);
          table.FindByIdAndDelete(ride.id);
          return false;
        }
        UpdateAt(table.rides, n, SetRadius(EscalatedRadius), now);
        table.FindByIdAndUpdate(ride.id, SetRadius(EscalatedRadius), now);
        drivers := wider;
      }
      NotifyDrivers(gateway, drivers, Snapshot(ride));
      sent := true;
    }

    /** `acceptRide`: the role check, then one conditional update. */
    method AcceptRide(rideId: RideId, caller: Option<UserSchema.User>, now: Millis)
      returns (result: Result<RideView, RideError>)
      requires table.Valid()
      modifies table`rides, gateway`emitted
      ensures table.Valid()
      ensures var o := AcceptOutcome(old(table.rides), gateway.connectedUsers, caller, rideId, now);
        && result == o.result
        && table.rides == o.rides
        && gateway.emitted == old(gateway.emitted) + o.emitted
    {
      if caller.None? || caller.value.role != UserSchema.Driver {
        return Err(NotADriver);
      }
      var updated := table.FindOneAndUpdate(rideId, Processing, AssignDriver(caller.value.id), now);
      if updated.None? {
        return Err(AlreadyAcceptedOrNotFound);
      }
      var view := AcceptedSnapshot(updated.value);
      gateway.SendRideAccepted(updated.value.bookedBy, view);
      result := Ok(view);
    }
  }
}
