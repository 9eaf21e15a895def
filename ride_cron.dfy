/** The periodic sweep over rides nobody has accepted. A ride still
    `processing` that has not been updated for a minute, and whose rider
    still exists, is selected. A selected ride already sent at the 7 km radius
    is terminated and its rider told; any other selected ride is sent to
    every driver within 7 km, whatever the vehicle type, and its radius is
    raised to 7. */
module RideCron {
  import opened Results
  import opened RideSchema
  import opened RideStore
  import opened RideGateway
  import RideService
  import UserSchema

  /** A ride is stale once it has gone this long without an update. */
  const StaleAfterMillis: int := 60 * 1000

  /** The sweep's driver search radius, in metres. */
  const SweepSearchMeters: int := 7000

  /** The aggregate's `$match` and `$unwind`: still `processing`, last
      updated at or before the threshold, and the rider's account still
      exists (a ride whose rider is gone is dropped by the unwind). */
  predicate Selected(r: Ride, now: Millis, bookerExists: UserId -> bool)
  {
    r.status == Processing && r.updatedAt <= now - StaleAfterMillis && bookerExists(r.bookedBy)
  }

  /** What the sweep does to one stored ride. */
  function SweepRide(r: Ride, now: Millis, bookerExists: UserId -> bool): (s: Ride)
    ensures s.id == r.id && s.bookedBy == r.bookedBy && s.driver == r.driver
    ensures !Selected(r, now, bookerExists) ==> s == r
    ensures Selected(r, now, bookerExists) ==>
      s == r.(sentToRadius := EscalatedRadius,
              status := if r.sentToRadius == EscalatedRadius then Terminated else Processing,
              updatedAt := now)
    ensures s.status != r.status ==> r.status == Processing && s.status == Terminated
  {
    if !Selected(r, now, bookerExists) then r
    else if r.sentToRadius == EscalatedRadius then Apply(r, SetStatus(Terminated), now)
    else Apply(r, SetRadius(EscalatedRadius), now)
  }

  /** The collection after a sweep: each ride swept on its own. */
  function Swept(rides: seq<Ride>, now: Millis, bookerExists: UserId -> bool): (out: seq<Ride>)
    ensures |out| == |rides|
    ensures forall k :: 0 <= k < |rides| ==> out[k] == SweepRide(rides[k], now, bookerExists)
  {
    seq(|rides|, k requires 0 <= k < |rides| => SweepRide(rides[k], now, bookerExists))
  }

  /** The payload of a terminated ride: the snapshot with status `terminated`. */
  function TerminatedView(r: Ride): (v: RideView)
    ensures v.id == r.id && v.status == Terminated && v.sentToRadius.None? && v.driver.None?
  {
    Snapshot(r).(status := Terminated)
  }

  /** What the sweep emits for one ride. */
  function RideNotices(r: Ride, connected: map<UserId, SocketId>, now: Millis,
                       bookerExists: UserId -> bool, nearby: RideService.DriverSearch): seq<Emission>
  {
    if !Selected(r, now, bookerExists) then []
    else if r.sentToRadius == EscalatedRadius then
      Delivery(connected, r.bookedBy, RideTerminated, Details(TerminatedView(r)))
    else
      Broadcast(connected, nearby(r.pickupLocation, SweepSearchMeters, None), RideRequest, Details(Snapshot(r)))
  }

  /** What a sweep emits, ride by ride in collection order. */
  function SweepEmissions(rides: seq<Ride>, connected: map<UserId, SocketId>, now: Millis,
                          bookerExists: UserId -> bool, nearby: RideService.DriverSearch): seq<Emission>
  {
    if rides == [] then []
    else
      SweepEmissions(rides[..|rides| - 1], connected, now, bookerExists, nearby)
      + RideNotices(rides[|rides| - 1], connected, now, bookerExists, nearby)
  }

  // ---------------------------------------------------------------------------
  // Properties of the sweep

  /** The sweep emits only `ride-request` and `ride-terminated`, never with
      a radius in the payload, and never about a ride that was not selected. */
  lemma {:induction false} SweepEmissionsShape(rides: seq<Ride>, connected: map<UserId, SocketId>, now: Millis,
                                              bookerExists: UserId -> bool, nearby: RideService.DriverSearch)
    ensures forall e :: e in SweepEmissions(rides, connected, now, bookerExists, nearby) ==>
      && e.payload.Details?
      && e.payload.ride.sentToRadius.None?
      && (e.event == RideRequest || e.event == RideTerminated)
      && (e.event == RideTerminated <==> e.payload.ride.status == Terminated)
      && exists k :: 0 <= k < |rides| && Selected(rides[k], now, bookerExists) && rides[k].id == e.payload.ride.id
  {
    if rides != [] {
      var n := |rides| - 1;
      var init := rides[..n];
      SweepEmissionsShape(init, connected, now, bookerExists, nearby);
      forall e | e in SweepEmissions(rides, connected, now, bookerExists, nearby)
        ensures exists k :: 0 <= k < |rides| && Selected(rides[k], now, bookerExists) && rides[k].id == e.payload.ride.id
      {
        if e in SweepEmissions(init, connected, now, bookerExists, nearby) {
          var k :| 0 <= k < |init| && Selected(init[k], now, bookerExists) && init[k].id == e.payload.ride.id;
          assert rides[k] == init[k];
        } else {
          assert e in RideNotices(rides[n], connected, now, bookerExists, nearby);
          assert Selected(rides[n], now, bookerExists) && rides[n].id == e.payload.ride.id;
        }
      }
    }
  }

  /** What the sweep sends about one selected ride: a ride already at 7 km
      tells its rider `ride-terminated`, and any other one sends
      `ride-request` to every driver the 7 km search finds. */
  lemma RideNoticesReach(r: Ride, connected: map<UserId, SocketId>, now: Millis,
                         bookerExists: UserId -> bool, nearby: RideService.DriverSearch)
    requires Selected(r, now, bookerExists)
    ensures r.sentToRadius == EscalatedRadius && Reachable(connected, r.bookedBy) ==>
      Emission(connected[r.bookedBy], RideTerminated, Details(TerminatedView(r)))
        in RideNotices(r, connected, now, bookerExists, nearby)
    ensures r.sentToRadius != EscalatedRadius ==>
      forall d :: d in nearby(r.pickupLocation, SweepSearchMeters, None) && Reachable(connected, d) ==>
        Emission(connected[d], RideRequest, Details(Snapshot(r))) in RideNotices(r, connected, now, bookerExists, nearby)
  {
    if r.sentToRadius != EscalatedRadius {
      var drivers := nearby(r.pickupLocation, SweepSearchMeters, None);
      forall d | d in drivers && Reachable(connected, d)
        ensures Emission(connected[d], RideRequest, Details(Snapshot(r))) in RideNotices(r, connected, now, bookerExists, nearby)
      {
        BroadcastReaches(connected, drivers, RideRequest, Details(Snapshot(r)), d);
      }
    }
  }

  /** The lists of a sequence of lists, one after the other. */
  function Flatten<T>(ss: seq<seq<T>>): (out: seq<T>)
  {
    if ss == [] then [] else Flatten(ss[..|ss| - 1]) + ss[|ss| - 1]
  }

  lemma {:induction false} InFlatten<T>(ss: seq<seq<T>>, k: nat, e: T)
    requires k < |ss| && e in ss[k]
    ensures e in Flatten(ss)
  {
    var n := |ss| - 1;
    if k < n {
      assert ss[..n][k] == ss[k];
      InFlatten(ss[..n], k, e);
    }
  }

  /** What the sweep emits about each ride, ride by ride. */
  function NoticeLists(rides: seq<Ride>, connected: map<UserId, SocketId>, now: Millis,
                       bookerExists: UserId -> bool, nearby: RideService.DriverSearch): (ss: seq<seq<Emission>>)
    ensures |ss| == |rides|
    ensures forall k :: 0 <= k < |rides| ==> ss[k] == RideNotices(rides[k], connected, now, bookerExists, nearby)
  {
    seq(|rides|, k requires 0 <= k < |rides| => RideNotices(rides[k], connected, now, bookerExists, nearby))
  }

  /** The sweep's emissions are its per-ride notices one after the other. */
  lemma {:induction false} SweepEmissionsFlatten(rides: seq<Ride>, connected: map<UserId, SocketId>, now: Millis,
                                                bookerExists: UserId -> bool, nearby: RideService.DriverSearch)
    ensures SweepEmissions(rides, connected, now, bookerExists, nearby)
         == Flatten(NoticeLists(rides, connected, now, bookerExists, nearby))
  {
    if rides != [] {
      var n := |rides| - 1;
      var ss := NoticeLists(rides, connected, now, bookerExists, nearby);
      assert ss[..n] == NoticeLists(rides[..n], connected, now, bookerExists, nearby);
      SweepEmissionsFlatten(rides[..n], connected, now, bookerExists, nearby);
    }
  }

  /** Whatever the sweep emits about the ride at position `k` is among what
      the whole sweep emits. */
  lemma NoticeInSweep(rides: seq<Ride>, k: nat, e: Emission, connected: map<UserId, SocketId>,
                      now: Millis, bookerExists: UserId -> bool, nearby: RideService.DriverSearch)
    requires k < |rides| && e in RideNotices(rides[k], connected, now, bookerExists, nearby)
    ensures e in SweepEmissions(rides, connected, now, bookerExists, nearby)
  {
    SweepEmissionsFlatten(rides, connected, now, bookerExists, nearby);
    InFlatten(NoticeLists(rides, connected, now, bookerExists, nearby), k, e);
  }

  /** Every selected ride is acted on: a ride already at 7 km has its rider
      told `ride-terminated`, and any other has `ride-request` sent to every
      reachable driver within 7 km, whatever the vehicle type. */
  lemma SweepNotifiesSelected(rides: seq<Ride>, k: nat, connected: map<UserId, SocketId>, now: Millis,
                              bookerExists: UserId -> bool, nearby: RideService.DriverSearch)
    requires k < |rides| && Selected(rides[k], now, bookerExists)
    ensures var r := rides[k];
      r.sentToRadius == EscalatedRadius && Reachable(connected, r.bookedBy) ==>
        Emission(connected[r.bookedBy], RideTerminated, Details(TerminatedView(r)))
          in SweepEmissions(rides, connected, now, bookerExists, nearby)
    ensures var r := rides[k];
      r.sentToRadius != EscalatedRadius ==>
        forall d :: d in nearby(r.pickupLocation, SweepSearchMeters, None) && Reachable(connected, d) ==>
          Emission(connected[d], RideRequest, Details(Snapshot(r))) in SweepEmissions(rides, connected, now, bookerExists, nearby)
  {
    var r := rides[k];
    RideNoticesReach(r, connected, now, bookerExists, nearby);
    if r.sentToRadius == EscalatedRadius {
      if Reachable(connected, r.bookedBy) {
        NoticeInSweep(rides, k, Emission(connected[r.bookedBy], RideTerminated, Details(TerminatedView(r))),
                      connected, now, bookerExists, nearby);
      }
    } else {
      forall d | d in nearby(r.pickupLocation, SweepSearchMeters, None) && Reachable(connected, d)
        ensures Emission(connected[d], RideRequest, Details(Snapshot(r))) in SweepEmissions(rides, connected, now, bookerExists, nearby)
      {
        NoticeInSweep(rides, k, Emission(connected[d], RideRequest, Details(Snapshot(r))), connected, now, bookerExists, nearby);
      }
    }
  }

  /** The sweep keeps the dispatch invariant and the ids. */
  lemma SweepPreservesWellFormed(rides: seq<Ride>, now: Millis, bookerExists: UserId -> bool)
    requires RideService.TableWellFormed(rides)
    ensures RideService.TableWellFormed(Swept(rides, now, bookerExists))
  {
    var out := Swept(rides, now, bookerExists);
    assert IdsIncreasing(out) by {
      forall a, b | 0 <= a < b < |out| ensures out[a].id < out[b].id {
        assert out[a].id == rides[a].id && out[b].id == rides[b].id;
      }
    }
    forall k | 0 <= k < |out| ensures RideService.RideWellFormed(out[k]) {
      assert RideService.RideWellFormed(rides[k]);
    }
  }

  /** A second sweep less than a minute after the first leaves every ride
      the first one handled alone: no ride is retried twice within a minute. */
  lemma NoRetryWithinAMinute(rides: seq<Ride>, now: Millis, later: Millis, bookerExists: UserId -> bool, k: nat)
    requires k < |rides| && Selected(rides[k], now, bookerExists)
    requires later < now + StaleAfterMillis
    ensures !Selected(Swept(rides, now, bookerExists)[k], later, bookerExists)
  {
  }

  /** Sweeping twice at the same instant is sweeping once, and the second
      sweep emits nothing. */
  lemma {:induction false} SweepIdempotentAtSameInstant(rides: seq<Ride>, connected: map<UserId, SocketId>, now: Millis,
                                                       bookerExists: UserId -> bool, nearby: RideService.DriverSearch)
    ensures Swept(Swept(rides, now, bookerExists), now, bookerExists) == Swept(rides, now, bookerExists)
    ensures SweepEmissions(Swept(rides, now, bookerExists), connected, now, bookerExists, nearby) == []
  {
    var once := Swept(rides, now, bookerExists);
    forall k | 0 <= k < |once| ensures !Selected(once[k], now, bookerExists) {
    }
    NothingSelectedEmitsNothing(once, connected, now, bookerExists, nearby);
  }

  lemma {:induction false} NothingSelectedEmitsNothing(rides: seq<Ride>, connected: map<UserId, SocketId>, now: Millis,
                                                      bookerExists: UserId -> bool, nearby: RideService.DriverSearch)
    requires forall k :: 0 <= k < |rides| ==> !Selected(rides[k], now, bookerExists)
    ensures SweepEmissions(rides, connected, now, bookerExists, nearby) == []
  {
    if rides != [] {
      NothingSelectedEmitsNothing(rides[..|rides| - 1], connected, now, bookerExists, nearby);
    }
  }

  /** A ride nobody accepts is terminated by the second sweep that selects
      it: the first raises it to 7 km, and a sweep a minute or more later
      terminates it. */
  lemma UnacceptedRideTerminated(r: Ride, first: Millis, second: Millis, bookerExists: UserId -> bool)
    requires Selected(r, first, bookerExists)
    requires second >= first + StaleAfterMillis
    ensures SweepRide(SweepRide(r, first, bookerExists), second, bookerExists).status == Terminated
  {
  }

  /** Once the sweep has terminated a ride, no driver can accept it. */
  lemma TerminatedRideNotAcceptable(rides: seq<Ride>, i: nat, now: Millis, bookerExists: UserId -> bool,
                                    connected: map<UserId, SocketId>, driver: UserSchema.User, later: Millis)
    requires IdsIncreasing(rides) && i < |rides|
    requires Selected(rides[i], now, bookerExists) && rides[i].sentToRadius == EscalatedRadius
    ensures RideService.AcceptOutcome(Swept(rides, now, bookerExists), connected, Some(driver), rides[i].id, later).result.Err?
  {
    var out := Swept(rides, now, bookerExists);
    assert IdsIncreasing(out) by {
      forall a, b | 0 <= a < b < |out| ensures out[a].id < out[b].id {
        assert out[a].id == rides[a].id && out[b].id == rides[b].id;
      }
    }
    IndexOfDistinctId(out, i);
    IndexOfIdWithStatusUnique(out, rides[i].id, Processing);
  }

  lemma SweptStep(rides: seq<Ride>, i: nat, now: Millis, bookerExists: UserId -> bool)
    requires i < |rides|
    ensures var current := Swept(rides[..i], now, bookerExists) + rides[i..];
      && i < |current| && current[i] == rides[i]
      && Swept(rides[..i + 1], now, bookerExists) + rides[i + 1..] == current[i := SweepRide(rides[i], now, bookerExists)]
  {
  }

  lemma SweepEmissionsStep(rides: seq<Ride>, i: nat, connected: map<UserId, SocketId>, now: Millis,
                           bookerExists: UserId -> bool, nearby: RideService.DriverSearch)
    requires i < |rides|
    ensures SweepEmissions(rides[..i + 1], connected, now, bookerExists, nearby)
      == SweepEmissions(rides[..i], connected, now, bookerExists, nearby) + RideNotices(rides[i], connected, now, bookerExists, nearby)
  {
    assert rides[..i + 1][..i] == rides[..i];
  }

  /** The state of the collection and of the emitted events after the sweep
      has handled the first `i` rides of `snapshot`. */
  ghost predicate SweptUpTo(snapshot: seq<Ride>, i: nat, rides: seq<Ride>, emitted: seq<Emission>, base: seq<Emission>,
                            connected: map<UserId, SocketId>, now: Millis,
                            bookerExists: UserId -> bool, nearby: RideService.DriverSearch)
  {
    && i <= |snapshot|
    && rides == Swept(snapshot[..i], now, bookerExists) + snapshot[i..]
    && emitted == base + SweepEmissions(snapshot[..i], connected, now, bookerExists, nearby)
  }

  lemma SweptUpToIndex(snapshot: seq<Ride>, i: nat, rides: seq<Ride>, emitted: seq<Emission>, base: seq<Emission>,
                       connected: map<UserId, SocketId>, now: Millis,
                       bookerExists: UserId -> bool, nearby: RideService.DriverSearch)
    requires SweptUpTo(snapshot, i, rides, emitted, base, connected, now, bookerExists, nearby) && i < |snapshot|
    ensures i < |rides| && rides[i] == snapshot[i]
  {
  }

  lemma SweptUpToStep(snapshot: seq<Ride>, i: nat, rides: seq<Ride>, emitted: seq<Emission>, base: seq<Emission>,
                      connected: map<UserId, SocketId>, now: Millis,
                      bookerExists: UserId -> bool, nearby: RideService.DriverSearch)
    requires SweptUpTo(snapshot, i, rides, emitted, base, connected, now, bookerExists, nearby) && i < |snapshot|
    ensures SweptUpTo(snapshot, i + 1, rides[i := SweepRide(snapshot[i], now, bookerExists)],
                      emitted + RideNotices(snapshot[i], connected, now, bookerExists, nearby),
                      base, connected, now, bookerExists, nearby)
  {
    SweptRidesStep(snapshot, i, rides, now, bookerExists);
    SweptEmittedStep(snapshot, i, emitted, base, connected, now, bookerExists, nearby);
  }

  lemma SweptRidesStep(snapshot: seq<Ride>, i: nat, rides: seq<Ride>, now: Millis, bookerExists: UserId -> bool)
    requires i < |snapshot| && rides == Swept(snapshot[..i], now, bookerExists) + snapshot[i..]
    ensures rides[i := SweepRide(snapshot[i], now, bookerExists)]
         == Swept(snapshot[..i + 1], now, bookerExists) + snapshot[i + 1..]
  {
    SweptStep(snapshot, i, now, bookerExists);
  }

  lemma SweptEmittedStep(snapshot: seq<Ride>, i: nat, emitted: seq<Emission>, base: seq<Emission>,
                         connected: map<UserId, SocketId>, now: Millis,
                         bookerExists: UserId -> bool, nearby: RideService.DriverSearch)
    requires i < |snapshot| && emitted == base + SweepEmissions(snapshot[..i], connected, now, bookerExists, nearby)
    ensures emitted + RideNotices(snapshot[i], connected, now, bookerExists, nearby)
         == base + SweepEmissions(snapshot[..i + 1], connected, now, bookerExists, nearby)
  {
    SweepEmissionsStep(snapshot, i, connected, now, bookerExists, nearby);
    AppendAfter(emitted, base, SweepEmissions(snapshot[..i], connected, now, bookerExists, nearby),
                RideNotices(snapshot[i], connected, now, bookerExists, nearby));
  }

  lemma AppendAfter(emitted: seq<Emission>, base: seq<Emission>, before: seq<Emission>, notices: seq<Emission>)
    requires emitted == base + before
    ensures emitted + notices == base + (before + notices)
  {
  }

  lemma SweptUpToEnd(snapshot: seq<Ride>, rides: seq<Ride>, emitted: seq<Emission>, base: seq<Emission>,
                     connected: map<UserId, SocketId>, now: Millis,
                     bookerExists: UserId -> bool, nearby: RideService.DriverSearch)
    requires SweptUpTo(snapshot, |snapshot|, rides, emitted, base, connected, now, bookerExists, nearby)
    ensures rides == Swept(snapshot, now, bookerExists)
    ensures emitted == base + SweepEmissions(snapshot, connected, now, bookerExists, nearby)
  {
    assert snapshot[..|snapshot|] == snapshot;
    assert snapshot[|snapshot|..] == [];
    assert rides == Swept(snapshot, now, bookerExists) + [];
  }

  // ---------------------------------------------------------------------------
  // The scheduled job

  class RideCronService {
    const table: RideTable
    const gateway: Gateway

    constructor (table: RideTable, gateway: Gateway)
      ensures this.table == table && this.gateway == gateway
    {
      this.table := table;
      this.gateway := gateway;
    }

    /** `retryUnacceptedRides`: walks the rides as they stood when the job
        started and handles each selected one. */
    method RetryUnacceptedRides(now: Millis, bookerExists: UserId -> bool, nearby: RideService.DriverSearch)
      requires table.Valid()
      modifies table`rides, gateway`emitted
      ensures table.Valid()
      ensures table.rides == Swept(old(table.rides), now, bookerExists)
      ensures gateway.emitted == old(gateway.emitted)
        + SweepEmissions(old(table.rides), gateway.connectedUsers, now, bookerExists, nearby)
    {
      var snapshot := table.rides;
      ghost var connected := gateway.connectedUsers;
      var i := 0;
      while i < |snapshot|
        invariant 0 <= i <= |snapshot|
        invariant table.Valid()
        invariant gateway.connectedUsers == connected
        invariant SweptUpTo(snapshot, i, table.rides, gateway.emitted, old(gateway.emitted), connected, now, bookerExists, nearby)
      {
        ghost var rides := table.rides;
        ghost var emitted := gateway.emitted;
        SweptUpToIndex(snapshot, i, rides, emitted, old(gateway.emitted), connected, now, bookerExists, nearby);
        RetryRide(i, now, bookerExists, nearby);
        SweptUpToStep(snapshot, i, rides, emitted, old(gateway.emitted), connected, now, bookerExists, nearby);
        i := i + 1;
      }
      SweptUpToEnd(snapshot, table.rides, gateway.emitted, old(gateway.emitted), connected, now, bookerExists, nearby);
    }

    /** The loop body for the ride at position `i`. */
    method RetryRide(i: nat, now: Millis, bookerExists: UserId -> bool, nearby: RideService.DriverSearch)
      requires table.Valid() && i < |table.rides|
      modifies table`rides, gateway`emitted
      ensures table.Valid()
      ensures table.rides == old(table.rides)[i := SweepRide(old(table.rides)[i], now, bookerExists)]
      ensures gateway.emitted == old(gateway.emitted)
        + RideNotices(old(table.rides)[i], gateway.connectedUsers, now, bookerExists, nearby)
    {
      var ride := table.rides[i];
      if Selected(ride, now, bookerExists) {
        if ride.sentToRadius == EscalatedRadius {
          UpdateAt(table.rides, i, SetStatus(Terminated), now);
          table.FindByIdAndUpdate(ride.id, SetStatus(Terminated), now);
          gateway.SendRideTerminated(ride.bookedBy, TerminatedView(ride));
        } else {
          var drivers := nearby(ride.pickupLocation, SweepSearchMeters, None);
          RideService.NotifyDrivers(gateway, drivers, Snapshot(ride));
          UpdateAt(table.rides, i, SetRadius(EscalatedRadius), now);
          table.FindByIdAndUpdate(ride.id, SetRadius(EscalatedRadius), now);
        }
      } else {
        assert table.rides == old(table.rides)[i := ride];
      }
    }
  }
}
