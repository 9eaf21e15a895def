/** The account records of the ride-booking service: verified users, users
    still waiting for their sign-up OTP, and a driver's vehicle details, with
    the defaults, string setters, required paths, unique indexes and expiry
    that their document-store schema declares. */
module UserSchema {
  import opened Results

  /** Document ids, handed out in increasing order. */
  type UserId = nat
  /** `contactNumber` is a JSON number. */
  type Contact = int
  /** Milliseconds since the epoch (`Date.now()`). */
  type Millis = int

  /** A GeoJSON point; its `type` is always `Point`, so only the coordinates are kept. */
  datatype GeoPoint = GeoPoint(coordinates: seq<real>)

  /** The default of every stored location. */
  const DefaultLocation: GeoPoint := GeoPoint([0.0, 0.0])

  /** Pending sign-ups are removed by a TTL index this many seconds after `createdAt`. */
  const PendingUserTtlSeconds: nat := 180

  /** The roles a verified account may carry. */
  datatype Role = Admin | RegularUser | SuperAdmin | Driver

  // ---------------------------------------------------------------------------
  // String setters: `trim: true` and `lowercase: true`

  /** The characters `String.prototype.trim` removes: white space and line terminators. */
  predicate IsTrimmable(c: char)
  {
    c == '\t' || c == '\n' || c == '\U{000B}' || c == '\U{000C}' || c == '\r' || c == ' '
    || c == '\U{00A0}' || c == '\U{1680}' || ('\U{2000}' <= c <= '\U{200A}')
    || c == '\U{2028}' || c == '\U{2029}' || c == '\U{202F}' || c == '\U{205F}'
    || c == '\U{3000}' || c == '\U{FEFF}'
  }

  /** `s` without its leading white space. */
  function TrimStart(s: string): (r: string)
    ensures |r| <= |s| && r == s[|s| - |r|..]
    ensures forall j :: 0 <= j < |s| - |r| ==> IsTrimmable(s[j])
    ensures r == [] || !IsTrimmable(r[0])
  {
    if s != [] && IsTrimmable(s[0]) then TrimStart(s[1..]) else s
  }

  /** `s` without its trailing white space. */
  function TrimEnd(s: string): (r: string)
    ensures |r| <= |s| && r == s[..|r|]
    ensures forall j :: |r| <= j < |s| ==> IsTrimmable(s[j])
    ensures r == [] || !IsTrimmable(r[|r| - 1])
  {
    if s != [] && IsTrimmable(s[|s| - 1]) then TrimEnd(s[..|s| - 1]) else s
  }

  /** `r` is `s[a..b]`, and only trimmable characters come before `a` and after `b`. */
  predicate SliceBetweenBlanks(s: string, r: string, a: int, b: int)
  {
    && 0 <= a <= b <= |s| && r == s[a..b]
    && (forall j :: 0 <= j < a ==> IsTrimmable(s[j]))
    && (forall j :: b <= j < |s| ==> IsTrimmable(s[j]))
  }

  /** `s` with the white space at both ends removed: a slice of `s` that
      only trimmable characters surround, with a non-trimmable character at
      each end. */
  function Trim(s: string): (r: string)
    ensures |r| <= |s|
    ensures exists a, b :: SliceBetweenBlanks(s, r, a, b)
    ensures r == [] || (!IsTrimmable(r[0]) && !IsTrimmable(r[|r| - 1]))
  {
    TrimIsSlice(s, TrimStart(s), TrimEnd(TrimStart(s)));
    TrimEnd(TrimStart(s))
  }

  lemma TrimIsSlice(s: string, t: string, r: string)
    requires t == TrimStart(s) && r == TrimEnd(t)
    ensures exists a, b :: SliceBetweenBlanks(s, r, a, b)
  {
    var a := |s| - |t|;
    SliceOfSuffix(s, a, r);
    assert SliceBetweenBlanks(s, r, a, a + |r|);
  }

  /** A trimmed prefix of the suffix `s[a..]` is a slice of `s`, followed in
      `s` by the characters `TrimEnd` removed. */
  lemma SliceOfSuffix(s: string, a: nat, r: string)
    requires a <= |s| && r == TrimEnd(s[a..])
    ensures a + |r| <= |s| && r == s[a..a + |r|]
    ensures forall j :: a + |r| <= j < |s| ==> IsTrimmable(s[j])
  {
    var t := s[a..];
    forall j | a + |r| <= j < |s| ensures IsTrimmable(s[j]) {
      assert s[j] == t[j - a];
    }
  }

  function LowerChar(c: char): char
  {
    if 'A' <= c <= 'Z' then (c as int - 'A' as int + 'a' as int) as char else c
  }

  /** `toLowerCase`, on the ASCII letters. */
  function Lower(s: string): (r: string)
    ensures |r| == |s|
    ensures forall i :: 0 <= i < |s| ==> r[i] == LowerChar(s[i])
  {
    seq(|s|, i requires 0 <= i < |s| => LowerChar(s[i]))
  }

  /** What the two setters make of a value before it is stored. */
  function Normalize(s: string): string
  {
    Lower(Trim(s))
  }

  /** Trimming twice is trimming once. */
  lemma TrimIdempotent(s: string)
    ensures Trim(Trim(s)) == Trim(s)
  {
    var t := Trim(s);
    assert TrimStart(t) == t;
    assert TrimEnd(t) == t;
  }

  lemma {:induction false} LowerTrimStart(s: string)
    ensures Lower(TrimStart(s)) == TrimStart(Lower(s))
  {
    if s != [] {
      assert IsTrimmable(LowerChar(s[0])) == IsTrimmable(s[0]);
      assert Lower(s)[1..] == Lower(s[1..]);
      LowerTrimStart(s[1..]);
    }
  }

  lemma {:induction false} LowerTrimEnd(s: string)
    ensures Lower(TrimEnd(s)) == TrimEnd(Lower(s))
  {
    if s != [] {
      var n := |s| - 1;
      assert IsTrimmable(LowerChar(s[n])) == IsTrimmable(s[n]);
      assert Lower(s)[..n] == Lower(s[..n]);
      LowerTrimEnd(s[..n]);
    }
  }

  /** Lower-casing and trimming commute, so the order in which the document
      store applies the two setters does not matter. */
  lemma LowerTrimCommute(s: string)
    ensures Lower(Trim(s)) == Trim(Lower(s))
  {
    LowerTrimStart(s);
    LowerTrimEnd(TrimStart(s));
  }

  /** A stored value is a fixed point of the setters: saving it again changes nothing. */
  lemma NormalizeIdempotent(s: string)
    ensures Normalize(Normalize(s)) == Normalize(s)
  {
    var t := Trim(s);
    TrimIdempotent(s);
    LowerTrimCommute(t);
    assert Trim(Lower(t)) == Lower(t);
    LowerIdempotent(t);
  }

  lemma LowerIdempotent(s: string)
    ensures Lower(Lower(s)) == Lower(s)
  {
    forall i | 0 <= i < |s|
      ensures Lower(Lower(s))[i] == Lower(s)[i]
    {
      var c := s[i];
      if 'A' <= c <= 'Z' {
        assert 'a' <= LowerChar(c) <= 'z';
      }
    }
  }

  // ---------------------------------------------------------------------------
  // Vehicle details

  /** `type` is a Dafny keyword, so the vehicle's type is `vehicleType` here. */
  datatype VehicleDetails = VehicleDetails(numberPlate: string, vehicleType: string, model: string)

  datatype SchemaError = ValidationFailed | DuplicateKey

  /** Inserting vehicle details: the three paths pass through the trim and
      lower-case setters, an empty value fails the required check, and a
      number plate already stored fails the unique index. */
  function AddVehicleDetails(table: seq<VehicleDetails>, numberPlate: string, vehicleType: string, model: string)
    : (r: Result<seq<VehicleDetails>, SchemaError>)
    ensures r.Ok? ==> r.value == table + [VehicleDetails(Normalize(numberPlate), Normalize(vehicleType), Normalize(model))]
    ensures r.Ok? <==>
      Normalize(numberPlate) != [] && Normalize(vehicleType) != [] && Normalize(model) != []
      && forall i :: 0 <= i < |table| ==> table[i].numberPlate != Normalize(numberPlate)
    ensures r.Ok? && PlatesUnique(table) ==> PlatesUnique(r.value)
  {
    var v := VehicleDetails(Normalize(numberPlate), Normalize(vehicleType), Normalize(model));
    if v.numberPlate == [] || v.vehicleType == [] || v.model == [] then Err(ValidationFailed)
    else if exists i :: 0 <= i < |table| && table[i].numberPlate == v.numberPlate then Err(DuplicateKey)
    else Ok(table + [v])
  }

  ghost predicate PlatesUnique(table: seq<VehicleDetails>)
  {
    forall i, j :: 0 <= i < j < |table| ==> table[i].numberPlate != table[j].numberPlate
  }

  // ---------------------------------------------------------------------------
  // Users and pending users

  datatype User = User(
    id: UserId,
    name: string,
    profilePic: Option<string>,
    password: string,
    resetPasswordToken: Option<string>,
    contactNumber: Contact,
    refreshToken: Option<string>,
    isContactNumberVerified: bool,
    role: Role,
    location: GeoPoint,
    vehicleDetails: Option<nat>,
    stripeAccountId: Option<string>)

  /** `role` is typed as 'admin' | 'user' | 'driver' but the schema declares no
      enum for it, so any non-empty string is stored. */
  datatype PendingUser = PendingUser(
    name: string,
    password: string,
    contactNumber: Contact,
    isVerified: bool,
    role: string,
    createdAt: Millis)

  /** A user document as the schema completes it: the name trimmed, the
      verification flag and the role defaulted when absent, the location at
      the default point and no token, picture or vehicle yet. */
  function NewUser(id: UserId, name: string, password: string, contact: Contact,
                   verified: Option<bool>, role: Option<Role>): (u: User)
    ensures u.id == id && u.contactNumber == contact && u.password == password
    ensures u.name == Trim(name)
    ensures u.isContactNumberVerified == (verified.Some? && verified.value)
    ensures u.role == (if role.Some? then role.value else RegularUser)
    ensures u.location == GeoPoint([0.0, 0.0])
    ensures u.refreshToken.None? && u.resetPasswordToken.None? && u.vehicleDetails.None?
  {
    User(id, Trim(name), None, password, None, contact, None,
         if verified.Some? then verified.value else false,
         if role.Some? then role.value else RegularUser,
         DefaultLocation, None, None)
  }

  /** A pending sign-up as the schema completes it: name trimmed, not
      verified, role `user` when the request gives none. */
  function NewPendingUser(name: string, password: string, contact: Contact, role: Option<string>, now: Millis)
    : (p: PendingUser)
    ensures p.contactNumber == contact && p.password == password && p.createdAt == now
    ensures p.name == Trim(name) && !p.isVerified
    ensures p.role == (if role.Some? then role.value else "user")
  {
    PendingUser(Trim(name), password, contact, false, if role.Some? then role.value else "user", now)
  }

  /** The required check on a string path refuses an empty string. */
  predicate PendingRequiredPresent(p: PendingUser)
  {
    p.name != [] && p.password != [] && p.role != []
  }

  /** A document under a TTL index of `ttlSeconds` is due for removal once
      that many seconds have passed since `createdAt`. */
  predicate Expired(createdAt: Millis, ttlSeconds: nat, now: Millis)
  {
    createdAt + ttlSeconds * 1000 <= now
  }

  /** The unique index on `contactNumber` in the user collection. */
  ghost predicate UserContactsUnique(users: seq<User>)
  {
    forall i, j :: 0 <= i < j < |users| ==> users[i].contactNumber != users[j].contactNumber
  }

  /** The unique index on `contactNumber` in the pending collection. */
  ghost predicate PendingContactsUnique(pending: seq<PendingUser>)
  {
    forall i, j :: 0 <= i < j < |pending| ==> pending[i].contactNumber != pending[j].contactNumber
  }
}
