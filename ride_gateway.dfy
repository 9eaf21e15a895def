/** The real-time gateway of the `/ride` namespace: a map from user id to the
    socket of that user's live connection, kept up to date on connect and
    disconnect, and one `send` per event kind that emits to the mapped socket
    and silently does nothing when the recipient has none. What the socket
    server emits is recorded in `emitted`. */
module RideGateway {
  import opened Results
  import opened RideSchema

  type SocketId = string

  datatype EventKind =
    | RideRequest | RideAccepted | RideTerminated | RideFailed | RideConfirmed
    | SearchUpdate | RideStarted | RideCancelled | RideCompleted

  /** The event name on the wire. */
  function EventName(k: EventKind): string
  {
    match k
    case RideRequest => "ride-request"
    case RideAccepted => "ride-accepted"
    case RideTerminated => "ride-terminated"
    case RideFailed => "ride-failed"
    case RideConfirmed => "ride-confirmed"
    case SearchUpdate => "search-update"
    case RideStarted => "ride-started"
    case RideCancelled => "ride-cancelled"
    case RideCompleted => "ride-completed"
  }

  /** Some events wrap the ride in an object with a fixed message. */
  datatype Message =
    | NoDriverRefundInitiated
    | ConfirmedLookingForDriver
    | LookingWithin(radius: Option<int>)
    | RideHasStarted
    | RideHasCompleted

  datatype Payload = Details(ride: RideView) | Notice(message: Message, ride: RideView)

  datatype Emission = Emission(socket: SocketId, event: EventKind, payload: Payload)

  /** A recipient is reached when it is mapped to a socket id that is truthy. */
  predicate Reachable(connected: map<UserId, SocketId>, user: UserId)
  {
    user in connected && connected[user] != ""
  }

  /** What one `send` emits: one event to the recipient's socket, or nothing. */
  function Delivery(connected: map<UserId, SocketId>, user: UserId, event: EventKind, payload: Payload)
    : (out: seq<Emission>)
    ensures |out| <= 1
    ensures out != [] <==> Reachable(connected, user)
    ensures out != [] ==> out[0].socket == connected[user] && out[0].event == event && out[0].payload == payload
  {
    if Reachable(connected, user) then [Emission(connected[user], event, payload)] else []
  }

  /** What a loop of `send`s to each of `users` in turn emits. */
  function Broadcast(connected: map<UserId, SocketId>, users: seq<UserId>, event: EventKind, payload: Payload)
    : (out: seq<Emission>)
    ensures |out| <= |users|
    ensures forall k :: 0 <= k < |out| ==> out[k].event == event && out[k].payload == payload
    ensures forall k :: 0 <= k < |out| ==> out[k].socket in connected.Values
    ensures out == [] <==> forall u :: u in users ==> !Reachable(connected, u)
  {
    if users == [] then []
    else
      var init := users[..|users| - 1];
      var last := users[|users| - 1];
      var rest := Broadcast(connected, init, event, payload);
      assert forall u :: u in users ==> u in init || u == last;
      rest + Delivery(connected, last, event, payload)
  }

  /** Every reachable recipient of a broadcast receives the event on its own socket. */
  lemma {:induction false} BroadcastReaches(connected: map<UserId, SocketId>, users: seq<UserId>,
                                           event: EventKind, payload: Payload, u: UserId)
    requires u in users && Reachable(connected, u)
    ensures Emission(connected[u], event, payload) in Broadcast(connected, users, event, payload)
  {
    var last := users[|users| - 1];
    if u != last {
      assert u in users[..|users| - 1];
      BroadcastReaches(connected, users[..|users| - 1], event, payload, u);
    }
  }

  /** Only the recipients of a broadcast receive it: every event it emits
      goes to the socket of one of `users` that is reachable. */
  lemma {:induction false} BroadcastOnlyReaches(connected: map<UserId, SocketId>, users: seq<UserId>,
                                               event: EventKind, payload: Payload, e: Emission)
    requires e in Broadcast(connected, users, event, payload)
    ensures exists u :: u in users && Reachable(connected, u) && e.socket == connected[u]
  {
    var init := users[..|users| - 1];
    var last := users[|users| - 1];
    if e in Broadcast(connected, init, event, payload) {
      BroadcastOnlyReaches(connected, init, event, payload, e);
      var u :| u in init && Reachable(connected, u) && e.socket == connected[u];
      assert u in users;
    } else {
      assert e in Delivery(connected, last, event, payload);
      assert last in users;
    }
  }

  class Gateway {
    var connectedUsers: map<UserId, SocketId>
    var emitted: seq<Emission>

    constructor ()
      ensures connectedUsers == map[] && emitted == []
    {
      connectedUsers := map[];
      emitted := [];
    }

    /** Maps the user to the new socket, replacing any earlier socket of that user. */
    method HandleConnection(userId: UserId, socketId: SocketId)
      modifies this
      ensures connectedUsers == old(connectedUsers)[userId := socketId]
      ensures emitted == old(emitted)
    {
      connectedUsers := connectedUsers[userId := socketId];
    }

    /** Unmaps the user, whichever of its sockets is the one disconnecting. */
    method HandleDisconnect(userId: UserId)
      modifies this
      ensures connectedUsers == old(connectedUsers) - {userId}
      ensures emitted == old(emitted)
    {
      connectedUsers := connectedUsers - {userId};
    }

    /** The body shared by every `send`. */
    method Emit(userId: UserId, event: EventKind, payload: Payload)
      modifies this`emitted
      ensures emitted == old(emitted) + Delivery(connectedUsers, userId, event, payload)
    {
      if userId in connectedUsers {
        var socket := connectedUsers[userId];
        if socket != "" {
          emitted := emitted + [Emission(socket, event, payload)];
        }
      }
    }

    method SendRideRequest(driverId: UserId, ride: RideView)
      modifies this`emitted
      ensures emitted == old(emitted) + Delivery(connectedUsers, driverId, RideRequest, Details(ride))
    {
      Emit(driverId, RideRequest, Details(ride));
    }

    method SendRideAccepted(userId: UserId, ride: RideView)
      modifies this`emitted
      ensures emitted == old(emitted) + Delivery(connectedUsers, userId, RideAccepted, Details(ride))
    {
      Emit(userId, RideAccepted, Details(ride));
    }

    method SendRideTerminated(userId: UserId, ride: RideView)
      modifies this`emitted
      ensures emitted == old(emitted) + Delivery(connectedUsers, userId, RideTerminated, Details(ride))
    {
      Emit(userId, RideTerminated, Details(ride));
    }

    method SendRideRequestFailed(userId: UserId, ride: RideView)
      modifies this`emitted
      ensures emitted == old(emitted) + Delivery(connectedUsers, userId, RideFailed, Notice(NoDriverRefundInitiated, ride))
    {
      Emit(userId, RideFailed, Notice(NoDriverRefundInitiated, ride));
    }

    method SendRideConfirmed(userId: UserId, ride: RideView)
      modifies this`emitted
      ensures emitted == old(emitted) + Delivery(connectedUsers, userId, RideConfirmed, Notice(ConfirmedLookingForDriver, ride))
    {
      Emit(userId, RideConfirmed, Notice(ConfirmedLookingForDriver, ride));
    }

    /** The message names the radius carried by the ride snapshot. */
    method SendRadiusUpdate(userId: UserId, ride: RideView)
      modifies this`emitted
      ensures emitted == old(emitted) + Delivery(connectedUsers, userId, SearchUpdate, Notice(LookingWithin(ride.sentToRadius), ride))
    {
      Emit(userId, SearchUpdate, Notice(LookingWithin(ride.sentToRadius), ride));
    }

    method SendRideStarted(userId: UserId, ride: RideView)
      modifies this`emitted
      ensures emitted == old(emitted) + Delivery(connectedUsers, userId, RideStarted, Notice(RideHasStarted, ride))
    {
      Emit(userId, RideStarted, Notice(RideHasStarted, ride));
    }

    method SendRideCancelled(userId: UserId, ride: RideView)
      modifies this`emitted
      ensures emitted == old(emitted) + Delivery(connectedUsers, userId, RideCancelled, Details(ride))
    {
      Emit(userId, RideCancelled, Details(ride));
    }

    method SendRideCompleted(userId: UserId, ride: RideView)
      modifies this`emitted
      ensures emitted == old(emitted) + Delivery(connectedUsers, userId, RideCompleted, Notice(RideHasCompleted, ride))
    {
      Emit(userId, RideCompleted, Notice(RideHasCompleted, ride));
    }
  }
}
