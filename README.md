# Ride booking: dispatch, sweep, gateway, accounts and the bearer guard

This project models the core of a ride-booking back end, a NestJS service over
a MongoDB document store:

- **Ride dispatch** (`RideService`, over `RideSchema` and `RideStore`).
  - A rider books a ride. The request is checked, then stored as a
    `processing` ride at radius 5 km.
  - The ride is sent to the drivers found within 5 km. When there are none,
    it goes to the drivers within 7 km, and the stored radius becomes 7.
  - When neither search finds anyone, the ride is deleted again and the
    booking fails.
  - A driver accepts a ride with a conditional update. The update succeeds
    only while the stored status is still `processing`.
- **Stale-ride sweep** (`RideCron`). A periodic job looks at every ride that
  is still `processing` and has not been updated for a minute.
  - A ride already sent at 7 km is terminated, and its rider is told.
  - Any other such ride is re-sent to every driver within 7 km, of any
    vehicle type, and its radius is raised to 7.
- **Real-time gateway** (`RideGateway`).
  - A map from user id to socket id, kept up to date on connect and
    disconnect.
  - One `send` per event kind. Each emits to the recipient's socket, or
    silently does nothing when the recipient has none.
- **Account lifecycle** (`UsersService`, over `UserSchema`).
  - Sign-up creates a pending entry, and OTP verification turns it into an
    account.
  - Login works with a password or an OTP.
  - Password reset is done through a one-use reset token.
  - The service also refreshes access tokens and logs users out.
- **Bearer guard** (`AuthGuard`). It takes the access token from an
  `Authorization: Bearer <token>` header, verifies it, and attaches the
  account to the request.

## How the model is built

- **Collections.** Each store collection is a `seq` in insertion order.
  - `findOne` and its relatives answer with the first matching document
    (`Lookup.FirstIndex`).
  - Document ids are natural numbers handed out in increasing order.
  - Every update stamps `updatedAt` with the `now` of the call.
- **Services are classes.** The ride table, the gateway, the account
  service and the request are classes whose fields the methods update.
  - Each method's `ensures` ties the new state and its answer to a pure
    function of the old state: `CreateOutcome`, `AcceptOutcome`, `Swept`,
    `SweepEmissions`, `SignUpStep`, and so on.
  - The lemmas about those functions state what the service promises.
- **Parameters stand for the world outside.**
  - `now`.
  - The driver search: `RideService.DriverSearch`, the geo query, which gives
    driver ids nearest first.
  - Whether an OTP is accepted.
  - The password hash: `UsersService.Hash`, for bcrypt.
  - The tokens a call mints, and the access-token check
    (`AuthGuard.TokenVerifier`).
  - Whether a ride's rider still exists, as the sweep's `$lookup`/`$unwind`
    sees it.
- **Emissions are recorded.** What the socket server emits is appended to
  `Gateway.emitted`.

## Model

| member | source | states |
|---|---|---|
| Lookup.FirstIndex | src/modules/users/users.service.ts:42-50 | `findOne` answers with the first document that matches the filter, or with nothing when no document matches |
| UserSchema.Trim | src/common/schema/user.schema.ts:45-49 | the `trim` setter: the result is the slice `s[a..b]` of the input with only white space before `a` and after `b`, and it neither starts nor ends with white space, so exactly the white space at the two ends is removed |
| UserSchema.Lower | src/common/schema/user.schema.ts:13-36 | the `lowercase` setter: same length, with every letter lowered in place |
| UserSchema.TrimIdempotent | src/common/schema/user.schema.ts:45-49 | trimming a stored name again changes nothing |
| UserSchema.LowerIdempotent | src/common/schema/user.schema.ts:13-36 | lower-casing a stored value again changes nothing |
| UserSchema.LowerTrimCommute | src/common/schema/user.schema.ts:13-36 | the `trim` and `lowercase` setters commute, so their order does not matter |
| UserSchema.NormalizeIdempotent | src/common/schema/user.schema.ts:13-36 | a stored vehicle field is a fixed point of its setters, so saving it again changes nothing |
| UserSchema.AddVehicleDetails | src/common/schema/user.schema.ts:11-38 | an insert stores the three fields trimmed and lower-cased; it succeeds iff none of them is empty and the plate is not already stored; it keeps plates unique |
| UserSchema.NewUser | src/common/schema/user.schema.ts:42-106 | a new account gets a trimmed name, `isContactNumberVerified` false unless given, role `user` unless given, location at [0, 0], and no token or vehicle |
| UserSchema.NewPendingUser | src/common/schema/user.schema.ts:118-158 | a new pending sign-up gets a trimmed name, is not verified, and has role `user` unless one is given |
| RideSchema.ParseStatus | src/common/schema/ride.schema.ts:63-69 | a status string is accepted only if it names the status it parses to |
| RideSchema.StatusEnum | src/common/schema/ride.schema.ts:63-69 | the status path accepts exactly the seven status strings, and each one maps to its own status |
| RideSchema.ParseVehicleType | src/common/schema/ride.schema.ts:25-30 | `bike` and `car` are accepted and every other string is refused |
| RideSchema.ParsePaymentMode | src/common/schema/ride.schema.ts:56-61 | `cash` and `online` are accepted and every other string is refused |
| RideSchema.ParseCancelledBy | src/common/schema/ride.schema.ts:89-93 | `user` and `driver` are accepted and every other string is refused |
| RideSchema.NewRide | src/common/schema/ride.schema.ts:10-95 | the defaults complete a booking: status `processing`, `sentToRadius` 5, no driver, otp or canceller, and both timestamps at `now` |
| RideSchema.Snapshot | src/modules/ride/ride.service.ts:179-212 | the booking's projection keeps the id, rider and status, and carries no driver and no radius |
| RideSchema.AcceptedSnapshot | src/modules/ride/ride.service.ts:254-323 | the accept projection is the snapshot with the ride's driver added |
| RideStore.Apply | src/modules/ride/ride.service.ts:116-118 | an update writes exactly the paths its `$set` names: the radius, the status, or the driver together with status `accepted`; it stamps `updatedAt`; every other path of the ride keeps its value |
| RideStore.IndexOfId | src/modules/ride/ride.service.ts:110 | `findById` finds the position holding that id, or reports that no ride has it |
| RideStore.IndexOfIdWithStatus | src/modules/ride/ride.service.ts:232-236 | the filter `{ _id, status }` finds a ride with both the id and the status, or reports that none matches |
| RideStore.IndexOfDistinctId | src/modules/ride/ride.service.ts:110 | with increasing ids, looking up the id of the ride at position `i` finds position `i` |
| RideStore.IndexOfIdWithStatusUnique | src/modules/ride/ride.service.ts:232-236 | with unique ids, the conditional filter matches exactly when the ride with that id has the expected status |
| RideStore.UpdateById | src/modules/ride/ride.service.ts:116-118 | `findByIdAndUpdate` changes no ride with another id and keeps the length |
| RideStore.DeleteById | src/modules/ride/ride.service.ts:110 | `findByIdAndDelete` removes exactly the ride `findById` finds and keeps the others in order; an id no ride has changes nothing |
| RideStore.UpdateAt | src/modules/ride/ride.cron.service.ts:61-65 | updating a stored ride by its id touches that position only and keeps ids increasing |
| RideStore.DeleteLast | src/modules/ride/ride.service.ts:109-114 | deleting the ride just created gives back the collection as it was before the create |
| RideStore.RideTable.Create | src/modules/ride/ride.service.ts:166-177 | `create` appends exactly one ride with the schema's defaults and a fresh id, and keeps the table's invariant |
| RideStore.RideTable.FindByIdAndDelete | src/modules/ride/ride.service.ts:110 | the table afterwards is `DeleteById` of the old table, and ids stay increasing |
| RideStore.RideTable.FindByIdAndUpdate | src/modules/ride/ride.cron.service.ts:85-89 | the table afterwards is `UpdateById` of the old table |
| RideStore.RideTable.FindOneAndUpdate | src/modules/ride/ride.service.ts:232-246 | one atomic step: with no match, nothing changes and the answer is null; with a match, exactly that ride is updated and returned as it now is |
| RideGateway.Delivery | src/modules/ride/ride.gateway.ts:34-42 | a send emits at most one event; it emits iff the recipient is mapped to a non-empty socket id; the event goes to that socket, with that name and that payload |
| RideGateway.Broadcast | src/modules/ride/ride.service.ts:123-125 | a loop of sends emits at most one event per recipient, each with the one event name and payload and to a mapped socket; it emits nothing iff no recipient is reachable |
| RideGateway.BroadcastReaches | src/modules/ride/ride.service.ts:123-125 | every reachable recipient of the loop receives the event on its own socket |
| RideGateway.BroadcastOnlyReaches | src/modules/ride/ride.service.ts:123-125 | only the recipients receive it: every event of the loop goes to the socket of a reachable user in the list, so with `BroadcastReaches` exactly the reachable recipients get the event |
| RideGateway.Gateway.constructor | src/modules/ride/ride.gateway.ts:11 | the map starts empty |
| RideGateway.Gateway.HandleConnection | src/modules/ride/ride.gateway.ts:13-16 | the user is mapped to the new socket, overwriting any earlier entry; nothing is emitted |
| RideGateway.Gateway.HandleDisconnect | src/modules/ride/ride.gateway.ts:24-27 | the user's entry is removed, whichever socket disconnects; other entries are unchanged |
| RideGateway.Gateway.Emit | src/modules/ride/ride.gateway.ts:36-40 | the shared send body appends `Delivery` and does not touch the map |
| RideGateway.Gateway.SendRideRequest | src/modules/ride/ride.gateway.ts:34-42 | `ride-request` with the ride, to the mapped socket only; the map is unchanged |
| RideGateway.Gateway.SendRideAccepted | src/modules/ride/ride.gateway.ts:44-52 | `ride-accepted` with the ride, to the mapped socket only |
| RideGateway.Gateway.SendRideTerminated | src/modules/ride/ride.gateway.ts:54-62 | `ride-terminated` with the ride, to the mapped socket only |
| RideGateway.Gateway.SendRideRequestFailed | src/modules/ride/ride.gateway.ts:64-72 | `ride-failed`, wrapped with the refund message, to the mapped socket only |
| RideGateway.Gateway.SendRideConfirmed | src/modules/ride/ride.gateway.ts:74-82 | `ride-confirmed`, wrapped with the looking-for-driver message, to the mapped socket only |
| RideGateway.Gateway.SendRadiusUpdate | src/modules/ride/ride.gateway.ts:84-92 | `search-update`, with a message naming the ride's own radius, to the mapped socket only |
| RideGateway.Gateway.SendRideStarted | src/modules/ride/ride.gateway.ts:94-102 | `ride-started`, wrapped with the started message, to the mapped socket only |
| RideGateway.Gateway.SendRideCancelled | src/modules/ride/ride.gateway.ts:104-112 | `ride-cancelled` with the ride, to the mapped socket only |
| RideGateway.Gateway.SendRideCompleted | src/modules/ride/ride.gateway.ts:114-122 | `ride-completed`, wrapped with the completed message, to the mapped socket only |
| RideService.ValidateCreate | src/modules/ride/ride.service.ts:138-164 | the checks run in a fixed order and each failure is pinned to its own error: no caller, then no dropoff pair, then no pickup pair, then no vehicle type; a request passes iff all four hold; a pass yields the caller's booking of exactly those values |
| RideService.PlanDispatch | src/modules/ride/ride.service.ts:95-121 | tiered dispatch: the 5 km list when it is non-empty, otherwise the 7 km list at radius 7; nothing iff both lists are empty |
| RideService.CreateOutcome | src/modules/ride/ride.service.ts:95-222 | a booking succeeds iff the checks pass, the vehicle type is in the enum, and the 5 km or the 7 km search around the pickup finds a driver; a failed check gives that check's error, a vehicle type outside the enum gives the schema's error, and two empty searches give "no driver"; any failure leaves the table as it was and emits nothing; a success appends exactly one `processing` ride of the caller with the request's pickup, dropoff and vehicle type, no driver, no distance, fare or payment mode, and `createdAt` and `updatedAt` both at the booking time; with drivers within 5 km the radius stays 5 and exactly they get `ride-request`, otherwise the radius is 7 and the 7 km drivers get it |
| RideService.AcceptOutcome | src/modules/ride/ride.service.ts:224-333 | a caller that is not a driver is refused; a driver's accept of a ride not stored as `processing` gives `AlreadyAcceptedOrNotFound`; the accept succeeds iff the ride is stored with status `processing`; on success that one ride becomes the old ride with the caller as driver, status `accepted` and `updatedAt` stamped, every other field and every other ride unchanged, and its rider alone is sent `ride-accepted`; every failure changes nothing |
| RideService.CreatePreservesWellFormed | src/modules/ride/ride.service.ts:166-177 | booking keeps the invariant: ids increase, a waiting ride has no driver, an accepted ride has one, and the radius is 5 or 7 |
| RideService.AcceptPreservesWellFormed | src/modules/ride/ride.service.ts:232-246 | accepting keeps the invariant, and the ride it changes had no driver, so a driver is never replaced |
| RideService.SecondAcceptFails | src/modules/ride/ride.service.ts:232-252 | after a successful accept, every later accept of the same ride by any caller fails and changes nothing |
| RideService.BookedRideIsAcceptable | src/modules/ride/ride.service.ts:128-246 | a ride just booked is accepted by the first driver that tries |
| RideService.WaitingRideIsAcceptable | src/modules/ride/ride.service.ts:232-246 | a stored ride still `processing` is accepted by any driver |
| RideService.CreateOutcomeAsWritten | src/modules/ride/ride.service.ts:166-177 | the booking with the schema's required check on the insert: any failure leaves the table and the emissions untouched; its branch into `CreateOutcome` is never taken (see `BookingAsWrittenNeverStored`) |
| RideService.BookingAsWrittenNeverStored | src/common/schema/ride.schema.ts:39-61 | with the schema as declared, every request that passes the checks is refused at the insert, so no ride is ever stored or sent |
| RideService.NotifyDrivers | src/modules/ride/ride.service.ts:123-125 | one `ride-request` per driver, in search order, to the reachable ones |
| RideService.RideService.constructor | src/modules/ride/ride.service.ts:18-22 | the service holds the ride table and the gateway it is given |
| RideService.RideService.CreateRide | src/modules/ride/ride.service.ts:128-222 | the answer, the ride table and the emitted events are exactly `CreateOutcome` of the state before the call; the table's invariant is kept |
| RideService.RideService.SendRideRequestToDrivers | src/modules/ride/ride.service.ts:95-126 | with both searches empty, the new ride is deleted and nothing is sent; otherwise the ride is kept (radius 7 when the 5 km list was empty) and exactly the tier's drivers are sent `ride-request` |
| RideService.RideService.AcceptRide | src/modules/ride/ride.service.ts:224-333 | the answer, the ride table and the emitted events are exactly `AcceptOutcome` of the state before the call |
| RideCron.SweepRide | src/modules/ride/ride.cron.service.ts:20-90 | an unselected ride is untouched; a selected ride is the same ride with radius 7, `updatedAt` stamped, and status `terminated` if it was already at 7 and otherwise still `processing`; pickup, dropoff, vehicle type, `createdAt` and the driver are kept |
| RideCron.Swept | src/modules/ride/ride.cron.service.ts:59-91 | the sweep handles each ride on its own and keeps the collection's length |
| RideCron.TerminatedView | src/modules/ride/ride.cron.service.ts:66 | the termination payload is the ride with status `terminated` and a null radius |
| RideCron.SweepEmissionsShape | src/modules/ride/ride.cron.service.ts:59-91 | the sweep emits only `ride-request` and `ride-terminated`, always with a null radius and only about selected rides; `ride-terminated` goes out iff the payload's status is `terminated` |
| RideCron.RideNoticesReach | src/modules/ride/ride.cron.service.ts:60-83 | for one selected ride: a ride at 7 km tells its reachable rider `ride-terminated`; any other sends `ride-request` to every reachable driver of the 7 km search, whatever the vehicle type |
| RideCron.NoticeInSweep | src/modules/ride/ride.cron.service.ts:59-91 | whatever the loop emits about one ride is among what the whole sweep emits |
| RideCron.SweepNotifiesSelected | src/modules/ride/ride.cron.service.ts:59-91 | every selected ride is acted on by the sweep: its rider gets `ride-terminated` if it was at 7 km, and otherwise every reachable driver within 7 km gets `ride-request` |
| RideCron.SweepPreservesWellFormed | src/modules/ride/ride.cron.service.ts:59-91 | the sweep keeps the dispatch invariant and the ids |
| RideCron.NoRetryWithinAMinute | src/modules/ride/ride.cron.service.ts:20-27 | a ride the sweep handled is not selected again within the next 60 s |
| RideCron.SweepIdempotentAtSameInstant | src/modules/ride/ride.cron.service.ts:20-91 | a second sweep at the same instant changes nothing and emits nothing |
| RideCron.NothingSelectedEmitsNothing | src/modules/ride/ride.cron.service.ts:22-57 | a sweep that selects no ride emits nothing |
| RideCron.UnacceptedRideTerminated | src/modules/ride/ride.cron.service.ts:60-89 | a ride nobody accepts is raised to 7 km by one sweep and terminated by the next sweep a minute or more later |
| RideCron.TerminatedRideNotAcceptable | src/modules/ride/ride.cron.service.ts:60-66 | once the sweep has terminated a ride, no driver can accept it |
| RideCron.RideCronService.constructor | src/modules/ride/ride.cron.service.ts:11-15 | the job holds the ride table and the gateway it is given |
| RideCron.RideCronService.RetryUnacceptedRides | src/modules/ride/ride.cron.service.ts:17-92 | the table afterwards is `Swept` of the table before; the events emitted are the ride-by-ride `SweepEmissions`; the invariant is kept |
| RideCron.RideCronService.RetryRide | src/modules/ride/ride.cron.service.ts:59-90 | one loop iteration changes only ride `i`, to `SweepRide` of it, and emits exactly that ride's notices |
| UsersService.UserWithContact | src/modules/users/users.service.ts:53-55 | the first account with the number, or none has it |
| UsersService.PendingWithContact | src/modules/users/users.service.ts:42-50 | the first pending sign-up with the number, or none has it |
| UsersService.UserWithResetToken | src/modules/users/users.service.ts:420-422 | the first account holding the reset token, or none holds it |
| UsersService.UserWithRefreshToken | src/modules/users/users.service.ts:529-532 | an account with both that id and that refresh token, or none has both |
| UsersService.UserWithId | src/common/guards/auth.guard.ts:43 | the first account with the id, or none has it |
| UsersService.SignUpStep | src/modules/users/users.service.ts:52-90 | a number held by an account or a pending sign-up is refused; a sign-up succeeds iff the number is free and the required paths are present, and a free number with an empty required path gives the schema's error; a success adds exactly one pending entry, the schema's completion of the request (trimmed name, the given role or `user`, not verified, created now) with the password hashed, leaves the accounts unchanged and requests a sign-up OTP; a failure changes nothing |
| UsersService.SignUpStepAsWritten | src/modules/users/users.service.ts:34-35 | as written, `signUp` keeps what `SignUpStep` stores but always answers an error, and a sign-up that reaches the SMS fails there |
| UsersService.VerifyUserStep | src/modules/users/users.service.ts:92-147 | an unknown number, a number already verified and a rejected OTP each fail and change nothing, a rejected OTP for a pending number giving `InvalidOtp`; a success adds one verified account, a driver iff the pending role was `driver` and a plain user otherwise, and deletes the pending entry |
| UsersService.WithRefreshToken | src/modules/users/users.service.ts:186-188 | the refresh token is stored on that account only |
| UsersService.LoginStep | src/modules/users/users.service.ts:148-206 | a pending number must verify first; an unknown number and a wrong password give the same error; a success stores the new refresh token on exactly that account; a failure changes nothing |
| UsersService.RequestOtp | src/modules/users/users.service.ts:208-249 | a pending number must verify first and an unknown number is refused; otherwise an OTP of the given purpose is requested |
| UsersService.RequestOtpAsWritten | src/modules/users/users.service.ts:34-35 | as written, both OTP requests always answer an error; a request that passes the checks fails at the SMS |
| UsersService.LoginByOtpStep | src/modules/users/users.service.ts:251-309 | same as the password login, with an accepted OTP in place of the password; an unknown number is reported as unknown and a rejected OTP for an account gives `InvalidOtp` |
| UsersService.VerifyResetOtpStep | src/modules/users/users.service.ts:358-415 | with the login checks and an accepted OTP, the account gets the fresh reset token and it is returned; a number with neither an account nor a pending sign-up gives `UnknownContact`, a rejected OTP for an account gives `InvalidOtp`, and every failure changes nothing |
| UsersService.ResetPasswordStep | src/modules/users/users.service.ts:417-444 | succeeds iff some account holds the token; that account gets the new hash and loses the token; otherwise `Unauthorized` and nothing changes |
| UsersService.RefreshResult | src/modules/users/users.service.ts:522-546 | succeeds iff the token verifies to an id whose account holds exactly that refresh token |
| UsersService.LogoutStep | src/modules/users/users.service.ts:548-553 | the caller's refresh token becomes the empty string and no other account changes |
| UsersService.Unexpired | src/common/schema/user.schema.ts:151-157 | the TTL pass keeps exactly the pending sign-ups that have not expired |
| UsersService.SignUpKeepsValid | src/modules/users/users.service.ts:52-69 | sign-up keeps each number on at most one account or pending sign-up, and keeps the ids |
| UsersService.VerifyUserKeepsValid | src/modules/users/users.service.ts:122-134 | verification keeps the same invariant |
| UsersService.PromoteKeepsValid | src/modules/users/users.service.ts:125-134 | moving a pending sign-up into the accounts with the next id keeps the invariant |
| UsersService.LoginKeepsValid | src/modules/users/users.service.ts:186-188 | storing a refresh token keeps the invariant |
| UsersService.PendingSignUpBlocksLogin | src/modules/users/users.service.ts:149-156 | right after a sign-up, both login kinds and both OTP requests for that number are refused with "verify first" |
| UsersService.SignUpRoleCarriesToAccount | src/modules/users/users.service.ts:65-132 | after a sign-up, verification succeeds and the new account is a driver iff the sign-up's role was `driver`, and a plain user otherwise |
| UsersService.SignUpVerifyLogin | src/modules/users/users.service.ts:52-206 | sign-up, then verification, then login with the same password succeeds |
| UsersService.VerifiedAccountLogsIn | src/modules/users/users.service.ts:125-188 | a freshly verified account logs in with the password it signed up with |
| UsersService.ResetTokenSingleUse | src/modules/users/users.service.ts:428-431 | with reset tokens unique, a token that has reset a password cannot reset it again |
| UsersService.ResetThenLogin | src/modules/users/users.service.ts:358-444 | after the reset flow, a login with the new password succeeds |
| UsersService.LogoutRevokesRefresh | src/modules/users/users.service.ts:548-553 | after logout, no non-empty refresh token refreshes the caller's access |
| UsersService.SignUpAgainAfterExpiry | src/common/schema/user.schema.ts:151-157 | once an abandoned sign-up has expired and been removed, the number can sign up again |
| UsersService.SignUpPendingForTtl | src/common/schema/user.schema.ts:151-157 | the entry a sign-up saves is kept by the TTL pass for exactly 180 s after the sign-up and removed from then on |
| UsersService.SignUpAsWrittenFailsButTakesNumber | src/modules/users/users.service.ts:52-79 | as written, a sign-up that passes the checks is answered with an error, yet a second sign-up with the same number is refused as a duplicate |
| UsersService.UnexpiredKeepsValid | src/common/schema/user.schema.ts:151-157 | the TTL pass keeps the accounts invariant |
| UsersService.UnexpiredUnique | src/common/schema/user.schema.ts:133-137 | the TTL pass keeps the pending numbers unique |
| UsersService.UsersService.constructor | src/modules/users/users.service.ts:28-40 | both collections start empty |
| UsersService.UsersService.SignUp | src/modules/users/users.service.ts:52-90 | the collections and the answer afterwards are `SignUpStep` of the state before; the invariant is kept |
| UsersService.UsersService.VerifyUser | src/modules/users/users.service.ts:92-147 | the collections and the answer afterwards are `VerifyUserStep` of the state before; the invariant is kept |
| UsersService.UsersService.Login | src/modules/users/users.service.ts:148-206 | the collections and the answer afterwards are `LoginStep` of the state before; the invariant is kept |
| UsersService.UsersService.GenerateLoginOtp | src/modules/users/users.service.ts:208-249 | the answer is `RequestOtp` for a login OTP, and nothing is stored |
| UsersService.UsersService.GenerateForgetPasswordOtp | src/modules/users/users.service.ts:311-356 | the answer is `RequestOtp` for a reset OTP, and nothing is stored |
| UsersService.UsersService.LoginByOtp | src/modules/users/users.service.ts:251-309 | the collections and the answer afterwards are `LoginByOtpStep` of the state before |
| UsersService.UsersService.VerifyForgetPasswordOtp | src/modules/users/users.service.ts:358-415 | the collections and the answer afterwards are `VerifyResetOtpStep` of the state before |
| UsersService.UsersService.ResetPassword | src/modules/users/users.service.ts:417-444 | the collections and the answer afterwards are `ResetPasswordStep` of the state before |
| UsersService.UsersService.RefreshAccessToken | src/modules/users/users.service.ts:522-546 | the answer is `RefreshResult`, and nothing is stored |
| UsersService.UsersService.Logout | src/modules/users/users.service.ts:548-562 | the collections afterwards are `LogoutStep` of the state before |
| UsersService.UsersService.ExpirePending | src/common/schema/user.schema.ts:151-157 | the TTL monitor leaves exactly the unexpired pending sign-ups |
| AuthGuard.IndexFrom | src/common/guards/auth.guard.ts:23 | the first occurrence of the pattern at or after the start position, or none |
| AuthGuard.ReplaceFirst | src/common/guards/auth.guard.ts:23 | `replace` with a string pattern leaves a string without the pattern unchanged, and drops a leading occurrence |
| AuthGuard.ExtractTokenFromHeader | src/common/guards/auth.guard.ts:17-25 | yields a token iff the header is present and starts with exactly `Bearer ` (case-sensitive, one space); then `"Bearer " + token` is the header |
| AuthGuard.BearerRoundTrip | src/common/guards/auth.guard.ts:17-25 | the token put after `Bearer ` is the token taken out, even when it contains `Bearer ` itself |
| AuthGuard.Authorize | src/common/guards/auth.guard.ts:27-59 | "Token is required!" iff there is no token or it is empty; success iff the token verifies to an id of an existing account, which is then the account |
| AuthGuard.BearerHeaderAuthorizes | src/common/guards/auth.guard.ts:27-59 | `Bearer t` passes iff `t` is non-empty, verifies, and names an existing account |
| AuthGuard.BarePrefixHasNoToken | src/common/guards/auth.guard.ts:30-32 | the bare header `Bearer ` is refused as carrying no token |
| AuthGuard.Request.constructor | src/common/guards/auth.guard.ts:29 | a request starts with its header and no account attached |
| AuthGuard.CanActivate | src/common/guards/auth.guard.ts:27-59 | on success it answers true with the account attached; on refusal it gives the guard's error and leaves the request as it was |

## Left out

- **The haversine distance** `getDistanceKm`. It is floating-point
  trigonometry, and nothing calls it.
- **The geo queries** (`getNearbyDrivers`, `$geoNear`, `$near`). They are the
  parameter `RideService.DriverSearch`. Distance, the `role: 'driver'` match,
  the vehicle-details `$unwind` (which drops drivers with no vehicle) and the
  vehicle-type match all happen inside it. The model fixes only how the
  search is called:
  - at booking, with the pickup point, `radius * 1000` metres and the ride's
    vehicle type;
  - in the sweep, with 7000 metres and no vehicle type.
- **The aggregation projections.** The booker `$lookup`, and the driver and
  vehicle lookups of `acceptRide`, are not modelled.
  - A notification carries the rider's and driver's ids, not their name,
    contact or picture.
  - The failure of those lookups is not modelled.
  - The booking's `$unwind` on the rider is taken to succeed, because the
    caller's own account exists.
- **`Selected` takes the sweep's `$lookup`/`$unwind` of the rider as a
  predicate.** It says whether the rider's account still exists.
  - The aggregate's result order is taken to be collection order.
  - A terminated ride's rider is taken to be its `bookedBy`.
- **Atomicity and interleavings.**
  - `findOneAndUpdate` is one atomic step.
  - Each call runs alone.
  - Races between the sweep's unconditional writes and a concurrent accept
    are not modelled.
  - Neither is the cron schedule (every 10 s): `now` is a parameter.
- RideCron.RideCronService.RetryRide: the order of the writes and the
  emissions in the escalate branch is not stated. The ensures gives the
  final table and the final emitted sequence. The method's body sends the
  requests before it writes the radius, as the source does.
- **A malformed ride id**, which makes `new Types.ObjectId(rideId)` throw.
  Ride ids are natural numbers here.
- **HTTP status codes, response envelopes and exception classes.** Each
  error is one constructor of `RideService.RideError`,
  `UsersService.AccountError` or `AuthGuard.AuthError`.
- **OTP creation and checking, SMS, and activity logs.** Whether an OTP is
  accepted is a parameter, and an OTP request is returned as a value. The
  SMS call as written fails (see "Findings"); the step functions model the
  sends as succeeding.
- **Token signing and verification.**
  - The refresh token and the reset token (a uuid) a call issues are
    parameters.
  - The refresh-token check is the parameter `payloadId`.
  - The access-token check is `AuthGuard.TokenVerifier`.
  - Access tokens themselves are not modelled.
- **bcrypt.** Both the pending-user pre-save hook and `resetPassword` use the
  parameter `Hash`, and `isPasswordCorrect` compares hashes.
- UsersService.ResetThenLogin: requires the fresh reset token to be held
  by no account yet. The source relies on uuid uniqueness for this.
- UsersService.VerifyUserStep: does not re-run the user schema's required
  check on `create`. The copied name and password were already required
  on the pending entry.
- **`UserSchema.User.role` is a datatype of the four typed role values.** The
  schema itself declares no enum for it.
- **The pending role is a free string,** as stored.
- UserSchema.Lower: lowers the ASCII letters only. `toLowerCase` on
  other letters is not modelled.
- **`getUserProfileInfo` and `uploadProfilePic`.** They are a projection of
  the request's user, and a Cloudinary upload.
- **`RolesGuard`, controllers, modules, DTO validation decorators, payments
  (Stripe), earnings, PDF invoices, admin CRUD and driver onboarding.**
  They are not part of this model.
- **A socket handshake without a `userId`.** In the source the map entry
  is then keyed by the value `undefined`, which no user id equals. User ids
  are always present here.
- **The temporary-ride schema** (src/common/schema/ride.schema.ts:104-166: a
  ride draft with a payment-session reference, kept for 86400 s). It is only
  registered as a model; no operation modelled here reads or writes it.
- **The TTL monitors' timing.** `Expired` says when a document is due, and
  `ExpirePending` is one pass of the monitor.

## Findings

| source | as written | input that shows it | evidently intended | confidence | as-written member | corrected member |
|---|---|---|---|---|---|---|
| src/modules/ride/ride.service.ts:166-177 against src/common/schema/ride.schema.ts:39-61 | `createRide` inserts a ride without `distance`, `fare` or `paymentMode`, all three of which the schema declares `required` with no default, so the insert fails validation | any valid request, e.g. pickup `[77.1, 28.6]`, dropoff `[77.2, 28.7]`, vehicle type `car`, from a signed-in rider | a booking is stored as a `processing` ride at radius 5 and dispatched | high; not executed | RideService.BookingAsWrittenNeverStored | RideService.CreateOutcome |
| src/modules/users/users.service.ts:34-35 with :77, :235 and :342 | the constructor injects `@InjectModel(VehicleDetails.name)` into the `smsService` parameter, so `smsService` is the vehicle-details model and its `sendVerificationOtpSms`, `sendLoginOtpSms` and `sendForgetPasswordOtpSms` are not functions; `signUp` has already saved the pending entry when the call throws | a sign-up with a free number, e.g. name `Asha`, password `secret`, contact `9876543210`; it is answered with an error, and the same sign-up repeated is refused as a duplicate | the SMS service is injected, the OTP is sent, and the sign-up and OTP requests succeed | medium; not executed | UsersService.SignUpAsWrittenFailsButTakesNumber | UsersService.SignUpStep |
