/** The account service: sign-up into a pending collection, OTP
    verification that moves a pending sign-up into the user collection,
    password and OTP login that issue a refresh token, the reset-password
    flow, refresh of an access token and logout.

    One-time passwords, token signing and password hashing are services
    outside this model: whether an OTP was accepted, the tokens issued and
    the hash function are parameters. */
module UsersService {
  import opened Results
  import opened UserSchema
  import Lookup

  /** The two collections the service owns, and the next document id. */
  datatype Accounts = Accounts(users: seq<User>, pending: seq<PendingUser>, nextUserId: UserId)

  /** Each thrown exception, named after its message. */
  datatype AccountError =
    | ContactTaken      // an account or a pending sign-up already has the number
    | SchemaRejected    // a required path of the pending sign-up is empty
    | UserNotFound      // verification of a number nobody signed up with
    | AlreadyVerified
    | InvalidOtp
    | VerifyFirst       // the number still has a pending sign-up
    | BadCredentials
    | UnknownContact    // no account has the number
    | Unauthorized
    | SmsNotSent        // the SMS call throws

  datatype OtpPurpose = SignUpOtp | LoginOtp | ResetPasswordOtp

  /** An OTP the service asks to be created and sent by SMS. */
  datatype OtpRequest = OtpRequest(purpose: OtpPurpose, contact: Contact)

  /** A successful login: the account and the refresh token stored on it. */
  datatype Grant = Grant(userId: UserId, refreshToken: string)

  /** A call's answer and the collections afterwards. */
  datatype Step<T> = Step(result: Result<T, AccountError>, accounts: Accounts)

  /** The password hash (`bcrypt`); a password matches a stored hash when it hashes to it. */
  type Hash = string -> string

  // ---------------------------------------------------------------------------
  // Queries

  /** `findOne({ contactNumber })` on the users. */
  function UserWithContact(users: seq<User>, c: Contact): (r: Option<nat>)
    ensures r.Some? ==> r.value < |users| && users[r.value].contactNumber == c
    ensures r.Some? ==> forall k :: 0 <= k < r.value ==> users[k].contactNumber != c
    ensures r.None? ==> forall k :: 0 <= k < |users| ==> users[k].contactNumber != c
  {
    Lookup.FirstIndex(users, (u: User) => u.contactNumber == c)
  }

  /** `findOne({ contactNumber })` on the pending sign-ups. */
  function PendingWithContact(pending: seq<PendingUser>, c: Contact): (r: Option<nat>)
    ensures r.Some? ==> r.value < |pending| && pending[r.value].contactNumber == c
    ensures r.Some? ==> forall k :: 0 <= k < r.value ==> pending[k].contactNumber != c
    ensures r.None? ==> forall k :: 0 <= k < |pending| ==> pending[k].contactNumber != c
  {
    Lookup.FirstIndex(pending, (p: PendingUser) => p.contactNumber == c)
  }

  /** `findOne({ resetPasswordToken: token })`. */
  function UserWithResetToken(users: seq<User>, token: string): (r: Option<nat>)
    ensures r.Some? ==> r.value < |users| && users[r.value].resetPasswordToken == Some(token)
    ensures r.Some? ==> forall k :: 0 <= k < r.value ==> users[k].resetPasswordToken != Some(token)
    ensures r.None? ==> forall k :: 0 <= k < |users| ==> users[k].resetPasswordToken != Some(token)
  {
    Lookup.FirstIndex(users, (u: User) => u.resetPasswordToken == Some(token))
  }

  /** `findOne({ _id: id, refreshToken: token })`. */
  function UserWithRefreshToken(users: seq<User>, id: UserId, token: string): (r: Option<nat>)
    ensures r.Some? ==> r.value < |users| && users[r.value].id == id && users[r.value].refreshToken == Some(token)
    ensures r.None? ==> forall k :: 0 <= k < |users| ==> users[k].id != id || users[k].refreshToken != Some(token)
  {
    Lookup.FirstIndex(users, (u: User) => u.id == id && u.refreshToken == Some(token))
  }

  /** `findById(id)` on the users. */
  function UserWithId(users: seq<User>, id: UserId): (r: Option<nat>)
    ensures r.Some? ==> r.value < |users| && users[r.value].id == id
    ensures r.Some? ==> forall k :: 0 <= k < r.value ==> users[k].id != id
    ensures r.None? ==> forall k :: 0 <= k < |users| ==> users[k].id != id
  {
    Lookup.FirstIndex(users, (u: User) => u.id == id)
  }

  // ---------------------------------------------------------------------------
  // The collections' invariant

  /** What the unique indexes and the flows keep: a number belongs to at most
      one account, at most one pending sign-up, and never to both; ids grow
      in insertion order and stay below the next id. */
  ghost predicate AccountsValid(a: Accounts)
  {
    && UserContactsUnique(a.users)
    && PendingContactsUnique(a.pending)
    && (forall i, j :: 0 <= i < |a.users| && 0 <= j < |a.pending| ==> a.users[i].contactNumber != a.pending[j].contactNumber)
    && (forall i, j :: 0 <= i < j < |a.users| ==> a.users[i].id < a.users[j].id)
    && (forall i :: 0 <= i < |a.users| ==> a.users[i].id < a.nextUserId)
  }

  // ---------------------------------------------------------------------------
  // The operations, one step each

  /** `signUp`: a number already held by an account or a pending sign-up is
      refused; otherwise a pending sign-up is saved (name trimmed, role
      `user` when none is given, password hashed) and a sign-up OTP requested. */
  function SignUpStep(a: Accounts, name: string, password: string, contact: Contact, role: Option<string>,
                      now: Millis, hash: Hash): (s: Step<OtpRequest>)
    ensures s.result.Err? ==> s.accounts == a
    ensures UserWithContact(a.users, contact).Some? || PendingWithContact(a.pending, contact).Some?
            ==> s.result == Err(ContactTaken)
    ensures UserWithContact(a.users, contact).None? && PendingWithContact(a.pending, contact).None?
            && !PendingRequiredPresent(NewPendingUser(name, password, contact, role, now))
            ==> s.result == Err(SchemaRejected)
    ensures s.result.Ok? <==>
      && UserWithContact(a.users, contact).None? && PendingWithContact(a.pending, contact).None?
      && PendingRequiredPresent(NewPendingUser(name, password, contact, role, now))
    ensures s.result.Ok? ==>
      && s.result.value == OtpRequest(SignUpOtp, contact)
      && s.accounts.users == a.users && s.accounts.nextUserId == a.nextUserId
      && |s.accounts.pending| == |a.pending| + 1 && s.accounts.pending[..|a.pending|] == a.pending
      && var p := s.accounts.pending[|a.pending|];
         p.contactNumber == contact && p.password == hash(password) && !p.isVerified && p.createdAt == now
    ensures s.result.Ok? ==>
      s.accounts.pending[|a.pending|] == NewPendingUser(name, password, contact, role, now).(password := hash(password))
  {
    if UserWithContact(a.users, contact).Some? || PendingWithContact(a.pending, contact).Some? then
      Step(Err(ContactTaken), a)
    else
      var p := NewPendingUser(name, password, contact, role, now);
      if !PendingRequiredPresent(p) then Step(Err(SchemaRejected), a)
      else Step(Ok(OtpRequest(SignUpOtp, contact)), a.(pending := a.pending + [p.(password := hash(password))]))
  }

  /** `verifyUser`: a number with neither an account nor a pending sign-up is
      unknown; one with an account is already verified; a wrong OTP is
      refused; otherwise the pending sign-up becomes a verified account, a
      driver when it asked for the role `driver` and a plain user in every
      other case, and the pending sign-up is deleted. */
  function VerifyUserStep(a: Accounts, contact: Contact, otpAccepted: bool): (s: Step<User>)
    ensures s.result.Err? ==> s.accounts == a
    ensures UserWithContact(a.users, contact).None? && PendingWithContact(a.pending, contact).None?
            ==> s.result == Err(UserNotFound)
    ensures UserWithContact(a.users, contact).Some? ==> s.result == Err(AlreadyVerified)
    ensures UserWithContact(a.users, contact).None? && PendingWithContact(a.pending, contact).Some? && !otpAccepted
            ==> s.result == Err(InvalidOtp)
    ensures s.result.Ok? <==>
      UserWithContact(a.users, contact).None? && PendingWithContact(a.pending, contact).Some? && otpAccepted
    ensures s.result.Ok? ==>
      var j := PendingWithContact(a.pending, contact).value;
      var u := s.result.value;
      && s.accounts == Accounts(a.users + [u], Lookup.RemoveAt(a.pending, j), a.nextUserId + 1)
      && u.id == a.nextUserId && u.contactNumber == contact
      && u.password == a.pending[j].password && u.isContactNumberVerified
      && (u.role == Driver <==> a.pending[j].role == "driver")
      && (u.role == Driver || u.role == RegularUser)
      && u.refreshToken.None? && u.resetPasswordToken.None?
  {
    var existing := UserWithContact(a.users, contact);
    var waiting := PendingWithContact(a.pending, contact);
    if existing.None? && waiting.None? then Step(Err(UserNotFound), a)
    else if existing.Some? then Step(Err(AlreadyVerified), a)
    else if !otpAccepted then Step(Err(InvalidOtp), a)
    else
      var p := a.pending[waiting.value];
      var u := NewUser(a.nextUserId, p.name, p.password, p.contactNumber, Some(true),
                       Some(if p.role == "driver" then Driver else RegularUser));
      Step(Ok(u), Accounts(a.users + [u], Lookup.RemoveAt(a.pending, waiting.value), a.nextUserId + 1))
  }

  /** The account at position `i` with a new refresh token stored on it. */
  function WithRefreshToken(a: Accounts, i: nat, token: string): (b: Accounts)
    requires i < |a.users|
    ensures b.pending == a.pending && b.nextUserId == a.nextUserId && |b.users| == |a.users|
    ensures b.users[i].refreshToken == Some(token)
    ensures forall k :: 0 <= k < |a.users| && k != i ==> b.users[k] == a.users[k]
    ensures b.users[i] == a.users[i].(refreshToken := Some(token))
  {
    a.(users := a.users[i := a.users[i].(refreshToken := Some(token))])
  }

  /** `login`: a number with a pending sign-up must verify first; an unknown
      number and a wrong password are the same error; otherwise the account
      gets the new refresh token. */
  function LoginStep(a: Accounts, contact: Contact, password: string, hash: Hash, refreshToken: string)
    : (s: Step<Grant>)
    ensures s.result.Err? ==> s.accounts == a
    ensures PendingWithContact(a.pending, contact).Some? ==> s.result == Err(VerifyFirst)
    ensures s.result.Ok? <==>
      && PendingWithContact(a.pending, contact).None? && UserWithContact(a.users, contact).Some?
      && hash(password) == a.users[UserWithContact(a.users, contact).value].password
    ensures s.result.Err? && s.result.error != VerifyFirst ==> s.result.error == BadCredentials
    ensures s.result.Ok? ==>
      var i := UserWithContact(a.users, contact).value;
      s.result.value == Grant(a.users[i].id, refreshToken) && s.accounts == WithRefreshToken(a, i, refreshToken)
  {
    if PendingWithContact(a.pending, contact).Some? then Step(Err(VerifyFirst), a)
    else match UserWithContact(a.users, contact)
      case None => Step(Err(BadCredentials), a)
      case Some(i) =>
        if hash(password) != a.users[i].password then Step(Err(BadCredentials), a)
        else Step(Ok(Grant(a.users[i].id, refreshToken)), WithRefreshToken(a, i, refreshToken))
  }

  /** `generateLoginOtp` and `generateForgetPasswordOtp`: the same checks,
      then an OTP of the given purpose is requested; nothing is stored. */
  function RequestOtp(a: Accounts, contact: Contact, purpose: OtpPurpose): (r: Result<OtpRequest, AccountError>)
    ensures PendingWithContact(a.pending, contact).Some? ==> r == Err(VerifyFirst)
    ensures r.Ok? <==> PendingWithContact(a.pending, contact).None? && UserWithContact(a.users, contact).Some?
    ensures r.Ok? ==> r.value == OtpRequest(purpose, contact)
    ensures r.Err? && r.error != VerifyFirst ==> r.error == UnknownContact
  {
    if PendingWithContact(a.pending, contact).Some? then Err(VerifyFirst)
    else if UserWithContact(a.users, contact).None? then Err(UnknownContact)
    else Ok(OtpRequest(purpose, contact))
  }

  /** `loginByOtp`: as `login`, with an accepted OTP in place of the password. */
  function LoginByOtpStep(a: Accounts, contact: Contact, otpAccepted: bool, refreshToken: string): (s: Step<Grant>)
    ensures s.result.Err? ==> s.accounts == a
    ensures PendingWithContact(a.pending, contact).Some? ==> s.result == Err(VerifyFirst)
    ensures PendingWithContact(a.pending, contact).None? && UserWithContact(a.users, contact).None?
            ==> s.result == Err(UnknownContact)
    ensures PendingWithContact(a.pending, contact).None? && UserWithContact(a.users, contact).Some? && !otpAccepted
            ==> s.result == Err(InvalidOtp)
    ensures s.result.Ok? <==>
      PendingWithContact(a.pending, contact).None? && UserWithContact(a.users, contact).Some? && otpAccepted
    ensures s.result.Ok? ==>
      var i := UserWithContact(a.users, contact).value;
      s.result.value == Grant(a.users[i].id, refreshToken) && s.accounts == WithRefreshToken(a, i, refreshToken)
  {
    if PendingWithContact(a.pending, contact).Some? then Step(Err(VerifyFirst), a)
    else match UserWithContact(a.users, contact)
      case None => Step(Err(UnknownContact), a)
      case Some(i) =>
        if !otpAccepted then Step(Err(InvalidOtp), a)
        else Step(Ok(Grant(a.users[i].id, refreshToken)), WithRefreshToken(a, i, refreshToken))
  }

  /** `verifyForgetPasswordOtp`: the checks of `loginByOtp`, then the account
      gets a fresh reset token, which is returned. */
  function VerifyResetOtpStep(a: Accounts, contact: Contact, otpAccepted: bool, resetToken: string): (s: Step<string>)
    ensures s.result.Err? ==> s.accounts == a
    ensures PendingWithContact(a.pending, contact).Some? ==> s.result == Err(VerifyFirst)
    ensures PendingWithContact(a.pending, contact).None? && UserWithContact(a.users, contact).None?
            ==> s.result == Err(UnknownContact)
    ensures PendingWithContact(a.pending, contact).None? && UserWithContact(a.users, contact).Some? && !otpAccepted
            ==> s.result == Err(InvalidOtp)
    ensures s.result.Ok? <==>
      PendingWithContact(a.pending, contact).None? && UserWithContact(a.users, contact).Some? && otpAccepted
    ensures s.result.Ok? ==>
      var i := UserWithContact(a.users, contact).value;
      && s.result.value == resetToken
      && s.accounts == a.(users := a.users[i := a.users[i].(resetPasswordToken := Some(resetToken))])
  {
    if PendingWithContact(a.pending, contact).Some? then Step(Err(VerifyFirst), a)
    else match UserWithContact(a.users, contact)
      case None => Step(Err(UnknownContact), a)
      case Some(i) =>
        if !otpAccepted then Step(Err(InvalidOtp), a)
        else Step(Ok(resetToken), a.(users := a.users[i := a.users[i].(resetPasswordToken := Some(resetToken))]))
  }

  /** `resetPassword`: the account holding the token gets the new password's
      hash and loses the token; a token nobody holds is refused. */
  function ResetPasswordStep(a: Accounts, token: string, newPassword: string, hash: Hash): (s: Step<UserId>)
    ensures s.result.Err? ==> s.accounts == a && s.result.error == Unauthorized
    ensures s.result.Ok? <==> exists k :: 0 <= k < |a.users| && a.users[k].resetPasswordToken == Some(token)
    ensures s.result.Ok? ==>
      var i := UserWithResetToken(a.users, token).value;
      && s.result.value == a.users[i].id
      && s.accounts == a.(users := a.users[i := a.users[i].(password := hash(newPassword), resetPasswordToken := None)])
  {
    match UserWithResetToken(a.users, token)
    case None => Step(Err(Unauthorized), a)
    case Some(i) =>
      Step(Ok(a.users[i].id), a.(users := a.users[i := a.users[i].(password := hash(newPassword), resetPasswordToken := None)]))
  }

  /** `refreshAccessToken`: the refresh token must verify (its payload names
      an account) and be the one stored on that account; nothing is stored. */
  function RefreshResult(a: Accounts, payloadId: Option<UserId>, token: string): (r: Result<UserId, AccountError>)
    ensures r.Ok? <==>
      payloadId.Some?
      && exists k :: 0 <= k < |a.users| && a.users[k].id == payloadId.value && a.users[k].refreshToken == Some(token)
    ensures r.Ok? ==> r.value == payloadId.value
    ensures r.Err? ==> r.error == Unauthorized
  {
    if payloadId.None? then Err(Unauthorized)
    else match UserWithRefreshToken(a.users, payloadId.value, token)
      case None => Err(Unauthorized)
      case Some(i) => Ok(a.users[i].id)
  }

  /** `logout`: the caller's stored refresh token becomes the empty string;
      the call always succeeds. */
  function LogoutStep(a: Accounts, userId: UserId): (b: Accounts)
    ensures b.pending == a.pending && b.nextUserId == a.nextUserId && |b.users| == |a.users|
    ensures forall k :: 0 <= k < |a.users| && a.users[k].id != userId ==> b.users[k] == a.users[k]
    ensures UserWithId(a.users, userId).Some? ==>
      var i := UserWithId(a.users, userId).value;
      b.users[i] == a.users[i].(refreshToken := Some(""))
  {
    match UserWithId(a.users, userId)
    case None => a
    case Some(i) => a.(users := a.users[i := a.users[i].(refreshToken := Some(""))])
  }

  /** The pending sign-ups the TTL index has not yet removed at `now`. */
  function Unexpired(pending: seq<PendingUser>, now: Millis): (out: seq<PendingUser>)
    ensures forall p :: p in out <==> p in pending && !Expired(p.createdAt, PendingUserTtlSeconds, now)
    ensures |out| <= |pending|
  {
    if pending == [] then []
    else
      var rest := Unexpired(pending[1..], now);
      assert forall p :: p in pending <==> p == pending[0] || p in pending[1..];
      if Expired(pending[0].createdAt, PendingUserTtlSeconds, now) then rest else [pending[0]] + rest
  }

  /** A sign-up stays pending for 180 seconds and no longer: the TTL pass
      keeps the entry a sign-up saves at every instant before `createdAt`
      plus 180 s, and removes it at every instant from then on. */
  lemma SignUpPendingForTtl(a: Accounts, name: string, password: string, contact: Contact, role: Option<string>,
                            now: Millis, hash: Hash, later: Millis)
    requires SignUpStep(a, name, password, contact, role, now, hash).result.Ok?
    ensures var pending := SignUpStep(a, name, password, contact, role, now, hash).accounts.pending;
      pending[|a.pending|] in Unexpired(pending, later) <==> later < now + 180000
  {
    var pending := SignUpStep(a, name, password, contact, role, now, hash).accounts.pending;
    assert pending[|a.pending|] in pending;
  }

  // ---------------------------------------------------------------------------
  // Properties

  lemma SignUpKeepsValid(a: Accounts, name: string, password: string, contact: Contact, role: Option<string>,
                         now: Millis, hash: Hash)
    requires AccountsValid(a)
    ensures AccountsValid(SignUpStep(a, name, password, contact, role, now, hash).accounts)
  {
    var st := SignUpStep(a, name, password, contact, role, now, hash);
    if st.result.Ok? {
      var b := st.accounts;
      var n := |a.pending|;
      assert forall j :: 0 <= j < n ==> b.pending[j] == a.pending[j];
      assert forall j :: 0 <= j < n ==> a.pending[j].contactNumber != contact;
      assert forall i :: 0 <= i < |a.users| ==> a.users[i].contactNumber != contact;
      assert b.pending[n].contactNumber == contact;
      assert PendingContactsUnique(b.pending) by {
        forall x, y | 0 <= x < y < |b.pending| ensures b.pending[x].contactNumber != b.pending[y].contactNumber {
          assert b.pending[x] == a.pending[x];
          if y < n {
            assert b.pending[y] == a.pending[y];
          }
        }
      }
      assert forall i, j :: 0 <= i < |b.users| && 0 <= j < |b.pending| ==> b.users[i].contactNumber != b.pending[j].contactNumber by {
        forall i, j | 0 <= i < |b.users| && 0 <= j < |b.pending| ensures b.users[i].contactNumber != b.pending[j].contactNumber {
          if j < n {
            assert b.pending[j] == a.pending[j];
          }
        }
      }
    }
  }

  lemma VerifyUserKeepsValid(a: Accounts, contact: Contact, otpAccepted: bool)
    requires AccountsValid(a)
    ensures AccountsValid(VerifyUserStep(a, contact, otpAccepted).accounts)
  {
    var s := VerifyUserStep(a, contact, otpAccepted);
    if s.result.Ok? {
      var j := PendingWithContact(a.pending, contact).value;
      PromoteKeepsValid(a, j, s.result.value);
    }
  }

  /** Moving the pending sign-up at `j` into the users as a new account with
      its number and the next id keeps the invariant. */
  lemma PromoteKeepsValid(a: Accounts, j: nat, u: User)
    requires AccountsValid(a) && j < |a.pending|
    requires u.contactNumber == a.pending[j].contactNumber && u.id == a.nextUserId
    ensures AccountsValid(Accounts(a.users + [u], Lookup.RemoveAt(a.pending, j), a.nextUserId + 1))
  {
    var users := a.users + [u];
    var pending := Lookup.RemoveAt(a.pending, j);
    var n := |a.users|;
    assert forall k :: 0 <= k < n ==> users[k] == a.users[k];
    assert forall k :: 0 <= k < |pending| ==> pending[k] == a.pending[if k < j then k else k + 1];
    assert UserContactsUnique(users) by {
      forall x, y | 0 <= x < y < |users| ensures users[x].contactNumber != users[y].contactNumber {
        assert users[x] == a.users[x];
        if y < n {
          assert users[y] == a.users[y];
        }
      }
    }
    assert PendingContactsUnique(pending) by {
      forall x, y | 0 <= x < y < |pending| ensures pending[x].contactNumber != pending[y].contactNumber {
        var x' := if x < j then x else x + 1;
        var y' := if y < j then y else y + 1;
        assert pending[x] == a.pending[x'] && pending[y] == a.pending[y'];
      }
    }
    forall x, y | 0 <= x < |users| && 0 <= y < |pending| ensures users[x].contactNumber != pending[y].contactNumber {
      var y' := if y < j then y else y + 1;
      assert pending[y] == a.pending[y'];
      if x < n {
        assert users[x] == a.users[x];
      } else {
        assert a.pending[y'].contactNumber != a.pending[j].contactNumber;
      }
    }
  }

  lemma LoginKeepsValid(a: Accounts, contact: Contact, password: string, hash: Hash, refreshToken: string)
    requires AccountsValid(a)
    ensures AccountsValid(LoginStep(a, contact, password, hash, refreshToken).accounts)
  {
    var s := LoginStep(a, contact, password, hash, refreshToken);
    if s.result.Ok? {
      var i := UserWithContact(a.users, contact).value;
      assert forall k :: 0 <= k < |a.users| ==>
        s.accounts.users[k].contactNumber == a.users[k].contactNumber && s.accounts.users[k].id == a.users[k].id;
    }
  }

  /** While a sign-up is pending, every login and OTP request for its number
      is told to verify first. */
  lemma PendingSignUpBlocksLogin(a: Accounts, name: string, password: string, contact: Contact, role: Option<string>,
                                 now: Millis, hash: Hash, attempt: string, token: string, purpose: OtpPurpose)
    requires SignUpStep(a, name, password, contact, role, now, hash).result.Ok?
    ensures var b := SignUpStep(a, name, password, contact, role, now, hash).accounts;
      && LoginStep(b, contact, attempt, hash, token).result == Err(VerifyFirst)
      && RequestOtp(b, contact, purpose) == Err(VerifyFirst)
  {
    var b := SignUpStep(a, name, password, contact, role, now, hash).accounts;
    assert b.pending[|a.pending|].contactNumber == contact;
  }

  /** The whole sign-up flow: after a sign-up and its verification, a login
      with the same password succeeds, and on the new account. */
  lemma {:induction false} SignUpVerifyLogin(a: Accounts, name: string, password: string, contact: Contact,
                                            role: Option<string>, now: Millis, hash: Hash, token: string)
    requires AccountsValid(a)
    requires SignUpStep(a, name, password, contact, role, now, hash).result.Ok?
    ensures var b := SignUpStep(a, name, password, contact, role, now, hash).accounts;
      && VerifyUserStep(b, contact, true).result.Ok?
      && var c := VerifyUserStep(b, contact, true).accounts;
         && LoginStep(c, contact, password, hash, token).result == Ok(Grant(a.nextUserId, token))
  {
    var b := SignUpStep(a, name, password, contact, role, now, hash).accounts;
    SignUpKeepsValid(a, name, password, contact, role, now, hash);
    var n := |a.pending|;
    assert b.pending == a.pending + [b.pending[n]];
    FindAppendedPending(a.pending, b.pending[n], contact);
    VerifiedAccountLogsIn(b, contact, password, hash, token);
  }

  /** The role chosen at sign-up decides the verified account's role: a
      sign-up as `driver` becomes a driver, any other a plain user. */
  lemma SignUpRoleCarriesToAccount(a: Accounts, name: string, password: string, contact: Contact,
                                   role: Option<string>, now: Millis, hash: Hash)
    requires SignUpStep(a, name, password, contact, role, now, hash).result.Ok?
    ensures var b := SignUpStep(a, name, password, contact, role, now, hash).accounts;
      && VerifyUserStep(b, contact, true).result.Ok?
      && (VerifyUserStep(b, contact, true).result.value.role == Driver <==> role == Some("driver"))
      && (role != Some("driver") ==> VerifyUserStep(b, contact, true).result.value.role == RegularUser)
  {
    var b := SignUpStep(a, name, password, contact, role, now, hash).accounts;
    var n := |a.pending|;
    assert b.pending == a.pending + [b.pending[n]];
    FindAppendedPending(a.pending, b.pending[n], contact);
  }

  /** A sign-up appended with a number no earlier sign-up holds is the one found. */
  lemma FindAppendedPending(pending: seq<PendingUser>, p: PendingUser, contact: Contact)
    requires forall k :: 0 <= k < |pending| ==> pending[k].contactNumber != contact
    requires p.contactNumber == contact
    ensures PendingWithContact(pending + [p], contact) == Some(|pending|)
  {
    var all := pending + [p];
    assert all[|pending|] == p;
    assert forall k :: 0 <= k < |pending| ==> all[k] == pending[k];
  }

  /** A freshly verified account logs in with the password it signed up with. */
  lemma VerifiedAccountLogsIn(b: Accounts, contact: Contact, password: string, hash: Hash, token: string)
    requires AccountsValid(b)
    requires VerifyUserStep(b, contact, true).result.Ok?
    requires hash(password) == b.pending[PendingWithContact(b.pending, contact).value].password
    ensures LoginStep(VerifyUserStep(b, contact, true).accounts, contact, password, hash, token).result
            == Ok(Grant(b.nextUserId, token))
  {
    var j := PendingWithContact(b.pending, contact).value;
    var u := VerifyUserStep(b, contact, true).result.value;
    var rest := Lookup.RemoveAt(b.pending, j);
    forall k | 0 <= k < |rest| ensures rest[k].contactNumber != contact {
      if k < j {
        assert rest[k] == b.pending[k];
      } else {
        assert rest[k] == b.pending[k + 1];
      }
    }
    LoginAfterVerify(b.users, u, rest, b.nextUserId + 1, contact, password, hash, token);
  }

  /** Login finds an account appended with a number no other account and no
      pending sign-up holds. */
  lemma LoginAfterVerify(users: seq<User>, u: User, pending: seq<PendingUser>, next: UserId,
                         contact: Contact, password: string, hash: Hash, token: string)
    requires forall k :: 0 <= k < |users| ==> users[k].contactNumber != contact
    requires forall k :: 0 <= k < |pending| ==> pending[k].contactNumber != contact
    requires u.contactNumber == contact && hash(password) == u.password
    ensures LoginStep(Accounts(users + [u], pending, next), contact, password, hash, token).result
            == Ok(Grant(u.id, token))
  {
    var all := users + [u];
    assert all[|users|] == u;
    assert forall k :: 0 <= k < |users| ==> all[k] == users[k];
    assert UserWithContact(all, contact) == Some(|users|);
  }

  /** A reset token works once: with tokens unique among the accounts, a
      second reset with the same token is refused. */
  lemma ResetTokenSingleUse(a: Accounts, token: string, first: string, second: string, hash: Hash)
    requires forall i, j ::
      (0 <= i < |a.users| && 0 <= j < |a.users|
       && a.users[i].resetPasswordToken == Some(token) && a.users[j].resetPasswordToken == Some(token)) ==> i == j
    requires ResetPasswordStep(a, token, first, hash).result.Ok?
    ensures var b := ResetPasswordStep(a, token, first, hash).accounts;
      ResetPasswordStep(b, token, second, hash) == Step(Err(Unauthorized), b)
  {
    var b := ResetPasswordStep(a, token, first, hash).accounts;
    var i := UserWithResetToken(a.users, token).value;
    forall k | 0 <= k < |b.users| ensures b.users[k].resetPasswordToken != Some(token) {
      if k != i {
        assert b.users[k] == a.users[k];
      }
    }
  }

  /** After the reset flow, the new password logs in. */
  lemma ResetThenLogin(a: Accounts, contact: Contact, resetToken: string, newPassword: string, hash: Hash, token: string)
    requires AccountsValid(a)
    requires VerifyResetOtpStep(a, contact, true, resetToken).result.Ok?
    requires forall k :: 0 <= k < |a.users| ==> a.users[k].resetPasswordToken != Some(resetToken)
    ensures var b := VerifyResetOtpStep(a, contact, true, resetToken).accounts;
      && ResetPasswordStep(b, resetToken, newPassword, hash).result.Ok?
      && LoginStep(ResetPasswordStep(b, resetToken, newPassword, hash).accounts, contact, newPassword, hash, token).result.Ok?
  {
    var i := UserWithContact(a.users, contact).value;
    var b := VerifyResetOtpStep(a, contact, true, resetToken).accounts;
    assert b.users[i].resetPasswordToken == Some(resetToken);
    assert forall m :: 0 <= m < |b.users| && m != i ==> b.users[m] == a.users[m];
    assert UserWithResetToken(b.users, resetToken) == Some(i);
    var c := ResetPasswordStep(b, resetToken, newPassword, hash).accounts;
    assert forall m :: 0 <= m < |a.users| ==> c.users[m].contactNumber == a.users[m].contactNumber;
    assert UserWithContact(c.users, contact) == Some(i);
    assert c.users[i].password == hash(newPassword);
  }

  /** Logging out revokes the refresh token: refreshing with any non-empty
      token fails for that account afterwards. */
  lemma LogoutRevokesRefresh(a: Accounts, userId: UserId, token: string)
    requires forall i, j :: 0 <= i < j < |a.users| ==> a.users[i].id < a.users[j].id
    requires token != ""
    ensures RefreshResult(LogoutStep(a, userId), Some(userId), token) == Err(Unauthorized)
  {
    var b := LogoutStep(a, userId);
    forall k | 0 <= k < |b.users| && b.users[k].id == userId ensures b.users[k].refreshToken != Some(token) {
      var i := UserWithId(a.users, userId).value;
      assert a.users[k].id == a.users[i].id;
      assert k == i;
    }
  }

  /** Once a pending sign-up has expired and the TTL index has removed it,
      the number can sign up again. */
  lemma SignUpAgainAfterExpiry(a: Accounts, name: string, password: string, contact: Contact, role: Option<string>,
                               now: Millis, hash: Hash)
    requires AccountsValid(a)
    requires PendingWithContact(a.pending, contact).Some?
    requires Expired(a.pending[PendingWithContact(a.pending, contact).value].createdAt, PendingUserTtlSeconds, now)
    requires PendingRequiredPresent(NewPendingUser(name, password, contact, role, now))
    ensures SignUpStep(a.(pending := Unexpired(a.pending, now)), name, password, contact, role, now, hash).result.Ok?
  {
    var j := PendingWithContact(a.pending, contact).value;
    var kept := Unexpired(a.pending, now);
    forall k | 0 <= k < |kept| ensures kept[k].contactNumber != contact {
      assert kept[k] in a.pending;
      var m :| 0 <= m < |a.pending| && a.pending[m] == kept[k];
      if m != j {
        assert a.pending[m].contactNumber != a.pending[j].contactNumber;
      }
    }
    assert forall k :: 0 <= k < |a.users| ==> a.users[k].contactNumber != a.pending[j].contactNumber;
  }

  // ---------------------------------------------------------------------------
  // The OTP sends as written

  /* The service's constructor binds the vehicle-details model where the SMS
     service belongs, so every `smsService.send…OtpSms` call throws. The
     sign-up has then already saved its pending entry. */

  /** `signUp` as written: what `SignUpStep` stores is kept, but a sign-up
      that gets as far as the SMS fails there. */
  function SignUpStepAsWritten(a: Accounts, name: string, password: string, contact: Contact, role: Option<string>,
                               now: Millis, hash: Hash): (s: Step<OtpRequest>)
    ensures s.accounts == SignUpStep(a, name, password, contact, role, now, hash).accounts
    ensures s.result.Err?
    ensures SignUpStep(a, name, password, contact, role, now, hash).result.Ok? ==> s.result == Err(SmsNotSent)
  {
    var done := SignUpStep(a, name, password, contact, role, now, hash);
    if done.result.Err? then done else Step(Err(SmsNotSent), done.accounts)
  }

  /** `generateLoginOtp` and `generateForgetPasswordOtp` as written: every
      request that passes the checks fails at the SMS. */
  function RequestOtpAsWritten(a: Accounts, contact: Contact, purpose: OtpPurpose): (r: Result<OtpRequest, AccountError>)
    ensures r.Err?
    ensures RequestOtp(a, contact, purpose).Ok? ==> r == Err(SmsNotSent)
    ensures RequestOtp(a, contact, purpose).Err? ==> r == RequestOtp(a, contact, purpose)
  {
    match RequestOtp(a, contact, purpose)
    case Err(e) => Err(e)
    case Ok(_) => Err(SmsNotSent)
  }

  /** As written, a sign-up is answered with an error and yet takes the
      number: signing up again with it, by anyone, is refused as a duplicate
      until the pending entry expires. */
  lemma SignUpAsWrittenFailsButTakesNumber(a: Accounts, name: string, password: string, contact: Contact,
                                          role: Option<string>, now: Millis, hash: Hash,
                                          name2: string, password2: string, role2: Option<string>, later: Millis)
    requires SignUpStep(a, name, password, contact, role, now, hash).result.Ok?
    ensures var s := SignUpStepAsWritten(a, name, password, contact, role, now, hash);
      && s.result == Err(SmsNotSent)
      && SignUpStep(s.accounts, name2, password2, contact, role2, later, hash).result == Err(ContactTaken)
  {
    var s := SignUpStepAsWritten(a, name, password, contact, role, now, hash);
    assert s.accounts.pending[|a.pending|].contactNumber == contact;
  }

  // ---------------------------------------------------------------------------
  // The service

  class UsersService {
    var users: seq<User>
    var pending: seq<PendingUser>
    var nextUserId: UserId

    function State(): Accounts
      reads this
    {
      Accounts(users, pending, nextUserId)
    }

    ghost predicate Valid()
      reads this
    {
      AccountsValid(State())
    }

    constructor ()
      ensures Valid() && users == [] && pending == [] && nextUserId == 0
    {
      users := [];
      pending := [];
      nextUserId := 0;
    }

    method SignUp(name: string, password: string, contact: Contact, role: Option<string>, now: Millis, hash: Hash)
      returns (result: Result<OtpRequest, AccountError>)
      requires Valid()
      modifies this
      ensures Valid()
      ensures var s := SignUpStep(old(State()), name, password, contact, role, now, hash);
        result == s.result && State() == s.accounts
    {
      SignUpKeepsValid(State(), name, password, contact, role, now, hash);
      if UserWithContact(users, contact).Some? || PendingWithContact(pending, contact).Some? {
        return Err(ContactTaken);
      }
      var p := NewPendingUser(name, password, contact, role, now);
      if !PendingRequiredPresent(p) {
        return Err(SchemaRejected);
      }
      // the pre-save hook hashes the password
      pending := pending + [p.(password := hash(password))];
      result := Ok(OtpRequest(SignUpOtp, contact));
    }

    method VerifyUser(contact: Contact, otpAccepted: bool) returns (result: Result<User, AccountError>)
      requires Valid()
      modifies this
      ensures Valid()
      ensures var s := VerifyUserStep(old(State()), contact, otpAccepted);
        result == s.result && State() == s.accounts
    {
      ghost var before := State();
      ghost var step := VerifyUserStep(before, contact, otpAccepted);
      var existing := UserWithContact(users, contact);
      var waiting := PendingWithContact(pending, contact);
      if existing.None? && waiting.None? {
        return Err(UserNotFound);
      }
      if existing.Some? {
        return Err(AlreadyVerified);
      }
      if !otpAccepted {
        return Err(InvalidOtp);
      }
      var j := waiting.value;
      var p := pending[j];
      var u := NewUser(nextUserId, p.name, p.password, p.contactNumber, Some(true),
                       Some(if p.role == "driver" then Driver else RegularUser));
      var next := Accounts(users + [u], Lookup.RemoveAt(pending, j), nextUserId + 1);
      assert step == Step(Ok(u), next);
      VerifyUserKeepsValid(before, contact, otpAccepted);
      users, pending, nextUserId := next.users, next.pending, next.nextUserId;
      assert State() == next;
      result := Ok(u);
    }

    method Login(contact: Contact, password: string, hash: Hash, refreshToken: string)
      returns (result: Result<Grant, AccountError>)
      requires Valid()
      modifies this`users
      ensures Valid()
      ensures var s := LoginStep(old(State()), contact, password, hash, refreshToken);
        result == s.result && State() == s.accounts
    {
      LoginKeepsValid(State(), contact, password, hash, refreshToken);
      if PendingWithContact(pending, contact).Some? {
        return Err(VerifyFirst);
      }
      var found := UserWithContact(users, contact);
      if found.None? || hash(password) != users[found.value].password {
        return Err(BadCredentials);
      }
      var i := found.value;
      users := users[i := users[i].(refreshToken := Some(refreshToken))];
      result := Ok(Grant(users[i].id, refreshToken));
    }

    method GenerateLoginOtp(contact: Contact) returns (result: Result<OtpRequest, AccountError>)
      ensures result == RequestOtp(State(), contact, LoginOtp)
    {
      result := RequestOtp(State(), contact, LoginOtp);
    }

    method GenerateForgetPasswordOtp(contact: Contact) returns (result: Result<OtpRequest, AccountError>)
      ensures result == RequestOtp(State(), contact, ResetPasswordOtp)
    {
      result := RequestOtp(State(), contact, ResetPasswordOtp);
    }

    method LoginByOtp(contact: Contact, otpAccepted: bool, refreshToken: string)
      returns (result: Result<Grant, AccountError>)
      requires Valid()
      modifies this`users
      ensures Valid()
      ensures var s := LoginByOtpStep(old(State()), contact, otpAccepted, refreshToken);
        result == s.result && State() == s.accounts
    {
      if PendingWithContact(pending, contact).Some? {
        return Err(VerifyFirst);
      }
      var found := UserWithContact(users, contact);
      if found.None? {
        return Err(UnknownContact);
      }
      if !otpAccepted {
        return Err(InvalidOtp);
      }
      var i := found.value;
      ghost var before := users;
      users := users[i := users[i].(refreshToken := Some(refreshToken))];
      assert forall k :: 0 <= k < |users| ==> users[k].contactNumber == before[k].contactNumber && users[k].id == before[k].id;
      result := Ok(Grant(users[i].id, refreshToken));
    }

    method VerifyForgetPasswordOtp(contact: Contact, otpAccepted: bool, resetToken: string)
      returns (result: Result<string, AccountError>)
      requires Valid()
      modifies this`users
      ensures Valid()
      ensures var s := VerifyResetOtpStep(old(State()), contact, otpAccepted, resetToken);
        result == s.result && State() == s.accounts
    {
      if PendingWithContact(pending, contact).Some? {
        return Err(VerifyFirst);
      }
      var found := UserWithContact(users, contact);
      if found.None? {
        return Err(UnknownContact);
      }
      if !otpAccepted {
        return Err(InvalidOtp);
      }
      var i := found.value;
      ghost var before := users;
      users := users[i := users[i].(resetPasswordToken := Some(resetToken))];
      assert forall k :: 0 <= k < |users| ==> users[k].contactNumber == before[k].contactNumber && users[k].id == before[k].id;
      result := Ok(resetToken);
    }

    method ResetPassword(token: string, newPassword: string, hash: Hash) returns (result: Result<UserId, AccountError>)
      requires Valid()
      modifies this`users
      ensures Valid()
      ensures var s := ResetPasswordStep(old(State()), token, newPassword, hash);
        result == s.result && State() == s.accounts
    {
      var found := UserWithResetToken(users, token);
      if found.None? {
        return Err(Unauthorized);
      }
      var i := found.value;
      ghost var before := users;
      users := users[i := users[i].(password := hash(newPassword), resetPasswordToken := None)];
      assert forall k :: 0 <= k < |users| ==> users[k].contactNumber == before[k].contactNumber && users[k].id == before[k].id;
      result := Ok(users[i].id);
    }

    method RefreshAccessToken(payloadId: Option<UserId>, token: string) returns (result: Result<UserId, AccountError>)
      ensures result == RefreshResult(State(), payloadId, token)
    {
      if payloadId.None? {
        return Err(Unauthorized);
      }
      var found := UserWithRefreshToken(users, payloadId.value, token);
      if found.None? {
        return Err(Unauthorized);
      }
      result := Ok(users[found.value].id);
    }

    method Logout(userId: UserId)
      requires Valid()
      modifies this`users
      ensures Valid()
      ensures State() == LogoutStep(old(State()), userId)
    {
      var found := UserWithId(users, userId);
      if found.Some? {
        var i := found.value;
        ghost var before := users;
        users := users[i := users[i].(refreshToken := Some(""))];
        assert forall k :: 0 <= k < |users| ==> users[k].contactNumber == before[k].contactNumber && users[k].id == before[k].id;
      }
    }

    /** The TTL monitor's pass over the pending sign-ups. */
    method ExpirePending(now: Millis)
      requires Valid()
      modifies this`pending
      ensures Valid()
      ensures pending == Unexpired(old(pending), now)
    {
      ghost var before := pending;
      pending := Unexpired(pending, now);
      assert forall p :: p in pending ==> p in before;
      UnexpiredKeepsValid(State().(pending := before), now);
    }
  }

  lemma UnexpiredKeepsValid(a: Accounts, now: Millis)
    requires AccountsValid(a)
    ensures AccountsValid(a.(pending := Unexpired(a.pending, now)))
  {
    UnexpiredUnique(a.pending, now);
  }

  /** The TTL pass keeps the pending numbers unique. */
  lemma {:induction false} UnexpiredUnique(pending: seq<PendingUser>, now: Millis)
    requires PendingContactsUnique(pending)
    ensures PendingContactsUnique(Unexpired(pending, now))
  {
    if pending != [] {
      var tail := pending[1..];
      assert PendingContactsUnique(tail) by {
        forall x, y | 0 <= x < y < |tail| ensures tail[x].contactNumber != tail[y].contactNumber {
          assert tail[x] == pending[x + 1] && tail[y] == pending[y + 1];
        }
      }
      UnexpiredUnique(tail, now);
      var rest := Unexpired(tail, now);
      forall k | 0 <= k < |rest| ensures rest[k].contactNumber != pending[0].contactNumber {
        assert rest[k] in tail;
        var m :| 0 <= m < |tail| && tail[m] == rest[k];
        assert tail[m] == pending[m + 1];
      }
    }
  }
}
