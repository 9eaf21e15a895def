/** The ride collection, in insertion order, with the document-store
    operations the dispatch code uses on it: create, delete by id, update by
    id, and the conditional find-one-and-update. Every update also stamps
    `updatedAt` (the schema keeps timestamps). */
module RideStore {
  import opened Results
  import opened RideSchema
  import Lookup

  /** The `$set` documents the dispatch code writes. */
  datatype RideUpdate =
    | SetRadius(radius: int)
    | SetStatus(status: Status)
    | AssignDriver(driver: UserId)   // `driver` and status `accepted` together

  /** The paths no `$set` of the dispatch code writes: everything but the
      driver, the radius, the status and `updatedAt`. */
  predicate SameBooking(r: Ride, s: Ride)
  {
    && s.id == r.id && s.bookedBy == r.bookedBy && s.vehicleType == r.vehicleType
    && s.distance == r.distance && s.otp == r.otp && s.fare == r.fare && s.paymentMode == r.paymentMode
    && s.pickupLocation == r.pickupLocation && s.dropoffLocation == r.dropoffLocation
    && s.cancelledBy == r.cancelledBy && s.createdAt == r.createdAt
  }

  /** One update: the paths its `$set` names get the new values, `updatedAt`
      is stamped, and every other path keeps its value. */
  function Apply(r: Ride, u: RideUpdate, now: Millis): (s: Ride)
    ensures SameBooking(r, s) && s.updatedAt == now
    ensures u.SetRadius? ==> s.sentToRadius == u.radius && s.status == r.status && s.driver == r.driver
    ensures u.SetStatus? ==> s.status == u.status && s.sentToRadius == r.sentToRadius && s.driver == r.driver
    ensures u.AssignDriver? ==> s.driver == Some(u.driver) && s.status == Accepted && s.sentToRadius == r.sentToRadius
  {
    match u
    case SetRadius(radius) => r.(sentToRadius := radius, updatedAt := now)
    case SetStatus(status) => r.(status := status, updatedAt := now)
    case AssignDriver(driver) => r.(driver := Some(driver), status := Accepted, updatedAt := now)
  }

  /** Ids grow in insertion order, so no two rides share one. */
  ghost predicate IdsIncreasing(rides: seq<Ride>)
  {
    forall i, j :: 0 <= i < j < |rides| ==> rides[i].id < rides[j].id
  }

  /** The position `findById` answers with. */
  function IndexOfId(rides: seq<Ride>, id: RideId): (r: Option<nat>)
    ensures r.Some? ==> r.value < |rides| && rides[r.value].id == id
    ensures r.None? ==> forall k :: 0 <= k < |rides| ==> rides[k].id != id
  {
    Lookup.FirstIndex(rides, (r: Ride) => r.id == id)
  }

  /** The position a filter `{ _id: id, status: expected }` answers with. */
  function IndexOfIdWithStatus(rides: seq<Ride>, id: RideId, expected: Status): (r: Option<nat>)
    ensures r.Some? ==> r.value < |rides| && rides[r.value].id == id && rides[r.value].status == expected
    ensures r.None? ==> forall k :: 0 <= k < |rides| ==> rides[k].id != id || rides[k].status != expected
  {
    Lookup.FirstIndex(rides, (r: Ride) => r.id == id && r.status == expected)
  }

  /** With unique ids, the ride at position `i` is the one its id finds. */
  lemma IndexOfDistinctId(rides: seq<Ride>, i: nat)
    requires IdsIncreasing(rides) && i < |rides|
    ensures IndexOfId(rides, rides[i].id) == Some(i)
  {
    var r := IndexOfId(rides, rides[i].id);
    assert r.Some?;
  }

  /** With unique ids, the conditional filter finds the ride with that id
      exactly when its status is the expected one. */
  lemma IndexOfIdWithStatusUnique(rides: seq<Ride>, id: RideId, expected: Status)
    requires IdsIncreasing(rides)
    ensures IndexOfIdWithStatus(rides, id, expected) ==
      match IndexOfId(rides, id)
      case None => None
      case Some(i) => if rides[i].status == expected then Some(i) else None
  {
    var byId := IndexOfId(rides, id);
    var r := IndexOfIdWithStatus(rides, id, expected);
    if byId.Some? {
      IndexOfDistinctId(rides, byId.value);
      if r.Some? {
        IndexOfDistinctId(rides, r.value);
      }
    }
  }

  /** `findByIdAndUpdate`: the ride with that id gets the update; without one nothing changes. */
  function UpdateById(rides: seq<Ride>, id: RideId, u: RideUpdate, now: Millis): (out: seq<Ride>)
    ensures |out| == |rides|
    ensures forall k :: 0 <= k < |rides| && rides[k].id != id ==> out[k] == rides[k]
  {
    match IndexOfId(rides, id)
    case None => rides
    case Some(i) => rides[i := Apply(rides[i], u, now)]
  }

  /** `findByIdAndDelete`: the ride with that id is removed. */
  function DeleteById(rides: seq<Ride>, id: RideId): (out: seq<Ride>)
    ensures |out| == (if IndexOfId(rides, id).Some? then |rides| - 1 else |rides|)
    ensures forall k :: 0 <= k < |out| ==> out[k] in rides
    ensures IndexOfId(rides, id).None? ==> out == rides
    ensures IndexOfId(rides, id).Some? ==>
      var i := IndexOfId(rides, id).value;
      out == rides[..i] + rides[i + 1..]
  {
    match IndexOfId(rides, id)
    case None => rides
    case Some(i) => Lookup.RemoveAt(rides, i)
  }

  /** Updating the ride at a known position by its id touches that position only. */
  lemma UpdateAt(rides: seq<Ride>, i: nat, u: RideUpdate, now: Millis)
    requires IdsIncreasing(rides) && i < |rides|
    ensures UpdateById(rides, rides[i].id, u, now) == rides[i := Apply(rides[i], u, now)]
    ensures IdsIncreasing(rides[i := Apply(rides[i], u, now)])
  {
    IndexOfDistinctId(rides, i);
  }

  /** Deleting a ride just appended with a fresh id restores the collection. */
  lemma DeleteLast(rides: seq<Ride>, r: Ride)
    requires IdsIncreasing(rides + [r])
    ensures DeleteById(rides + [r], r.id) == rides
  {
    var all := rides + [r];
    IndexOfDistinctId(all, |rides|);
    assert all[..|rides|] == rides;
  }

  class RideTable {
    var rides: seq<Ride>
    var nextId: RideId

    ghost predicate Valid()
      reads this
    {
      IdsIncreasing(rides) && forall k :: 0 <= k < |rides| ==> rides[k].id < nextId
    }

    constructor ()
      ensures Valid() && rides == [] && nextId == 0
    {
      rides := [];
      nextId := 0;
    }

    /** `create`: appends a new ride with the schema's defaults and a fresh id. */
    method Create(bookedBy: UserId, vehicleType: VehicleType, pickup: seq<real>, dropoff: seq<real>, now: Millis)
      returns (ride: Ride)
      requires Valid()
      modifies this
      ensures Valid()
      ensures ride == NewRide(old(nextId), bookedBy, vehicleType, pickup, dropoff, now)
      ensures rides == old(rides) + [ride] && nextId == old(nextId) + 1
    {
      ride := NewRide(nextId, bookedBy, vehicleType, pickup, dropoff, now);
      rides := rides + [ride];
      nextId := nextId + 1;
    }

    method FindByIdAndDelete(id: RideId)
      requires Valid()
      modifies this`rides
      ensures Valid()
      ensures rides == DeleteById(old(rides), id)
    {
      var k := IndexOfId(rides, id);
      if k.Some? {
        var i := k.value;
        ghost var before := rides;
        rides := Lookup.RemoveAt(rides, i);
        forall a, b | 0 <= a < b < |rides| ensures rides[a].id < rides[b].id {
          var a' := if a < i then a else a + 1;
          var b' := if b < i then b else b + 1;
          assert rides[a] == before[a'] && rides[b] == before[b'];
        }
      }
    }

    method FindByIdAndUpdate(id: RideId, u: RideUpdate, now: Millis)
      requires Valid()
      modifies this`rides
      ensures Valid()
      ensures rides == UpdateById(old(rides), id, u, now)
    {
      var k := IndexOfId(rides, id);
      if k.Some? {
        rides := rides[k.value := Apply(rides[k.value], u, now)];
      }
    }

    /** `findOneAndUpdate` with filter `{ _id: id, status: expected }`: one
        atomic step; answers the updated ride, or `None` when nothing matched. */
    method FindOneAndUpdate(id: RideId, expected: Status, u: RideUpdate, now: Millis)
      returns (updated: Option<Ride>)
      requires Valid()
      modifies this`rides
      ensures Valid()
      ensures match IndexOfIdWithStatus(old(rides), id, expected)
        case None => updated.None? && rides == old(rides)
        case Some(i) =>
          var r := Apply(old(rides)[i], u, now);
          updated == Some(r) && rides == old(rides)[i := r]
    {
      var k := IndexOfIdWithStatus(rides, id, expected);
      if k.Some? {
        var r := Apply(rides[k.value], u, now);
        rides := rides[k.value := r];
        updated := Some(r);
      } else {
        updated := None;
      }
    }
  }
}
