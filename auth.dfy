/** Accounts: registration with a one-time code, password reset codes and
    their verification, setting the password, find-or-create on social login,
    push-device registration and the caller's own profile update.
    Password hashes and the development OTP code are inputs or constants;
    tokens and mail are not part of this model. */
module AuthController {
  import opened Http
  import opened Seqs
  import opened Tables

  /** The code every OTP row gets while codes are not mailed. */
  const DevCode: string := "123456"

  /** The date of birth `setPassword` fills in when none is set. */
  const DefaultDob: string := "1989-12-02"

  /** `user_type` as the validator's `in:chef,customer` reads it. */
  function RoleOf(s: Option<string>): (r: Option<Role>)
    ensures r == Some(Chef) <==> s == Some("chef")
    ensures r == Some(Customer) <==> s == Some("customer")
  {
    if s == Some("chef") then Some(Chef)
    else if s == Some("customer") then Some(Customer)
    else None
  }

  predicate EmailTaken(users: seq<User>, email: string) {
    exists u :: u in users && u.email == email
  }

  /** The first user with this email (`User::where('email', …)->first()`). */
  function UserByEmail(users: seq<User>, email: string): (r: Option<User>)
    ensures r.Some? ==> r.value in users && r.value.email == email
    ensures r.None? <==> !EmailTaken(users, email)
  {
    match FirstIndex(users, (u: User) => u.email == email)
    case None =>
      assert !EmailTaken(users, email) by {
        forall u | u in users ensures u.email != email {
          var j :| 0 <= j < |users| && users[j] == u;
        }
      }
      None
    case Some(k) => Some(users[k])
  }

  // ---------------------------------------------------------------------
  // register

  datatype RegisterRequest = RegisterRequest(
    firstName: Option<string>,
    lastName: Option<string>,
    email: Option<string>,
    userType: Option<string>)

  predicate Short(f: Option<string>, n: nat) {
    Filled(f) && |f.value| <= n
  }

  /** The validator of `register` (the email format is not checked). */
  predicate RegisterValid(users: seq<User>, req: RegisterRequest) {
    && Short(req.firstName, 100) && Short(req.lastName, 100)
    && Short(req.email, 255) && !EmailTaken(users, req.email.value)
    && RoleOf(req.userType).Some?
  }

  /** The user `register` creates: no password yet, stamped `now`. */
  function Registered(users: seq<User>, req: RegisterRequest, id: nat, now: int): (out: Outcome<User>)
    ensures out.Fail? <==> !RegisterValid(users, req)
    ensures out.Fail? ==> out.failure == ValidationError
    ensures out.Ok? ==>
      && out.value.id == id && out.value.email == req.email.value && !EmailTaken(users, out.value.email)
      && out.value.firstName == req.firstName.value && out.value.lastName == req.lastName.value
      && Some(out.value.userType) == RoleOf(req.userType)
      && out.value.password == None && out.value.timestamp == Some(now)
  {
    if !RegisterValid(users, req) then Fail(ValidationError)
    else
      Ok(NewUser(id, req.firstName.value, req.lastName.value, req.email.value, RoleOf(req.userType).value)
           .(timestamp := Some(now)))
  }

  /** `register`: inserts the user, then one OTP row for it with the development code. */
  method Register(db: Db, req: RegisterRequest, now: int) returns (out: Outcome<nat>)
    requires db.Valid()
    modifies db`users, db`otps, db`nextId
    ensures db.Valid()
    ensures Registered(old(db.users), req, old(db.nextId), now).Fail? ==>
      out == Fail(ValidationError) && db.users == old(db.users) && db.otps == old(db.otps) && db.nextId == old(db.nextId)
    ensures Registered(old(db.users), req, old(db.nextId), now).Ok? ==>
      var u := Registered(old(db.users), req, old(db.nextId), now).value;
      && out == Ok(u.id)
      && db.users == old(db.users) + [u]
      && db.otps == old(db.otps) + [Otp(old(db.nextId) + 1, u.id, DevCode, now)]
      && db.nextId == old(db.nextId) + 2
  {
    var r := Registered(db.users, req, db.nextId, now);
    if r.Fail? {
      return Fail(ValidationError);
    }
    UserAppendKeepsIds(db.users, r.value, db.nextId);
    assert OtpIdsOk(db.otps, db.nextId + 1);
    OtpAppendKeepsIds(db.otps, Otp(db.nextId + 1, r.value.id, DevCode, now), db.nextId + 1);
    db.users := db.users + [r.value];
    db.otps := db.otps + [Otp(db.nextId + 1, r.value.id, DevCode, now)];
    db.nextId := db.nextId + 2;
    out := Ok(r.value.id);
  }

  /** Once registered, the same email is refused. */
  lemma RegisterTwiceRejected(users: seq<User>, req: RegisterRequest, id: nat, id2: nat, now: int, now2: int)
    requires Registered(users, req, id, now).Ok?
    ensures Registered(users + [Registered(users, req, id, now).value], req, id2, now2) == Fail(ValidationError)
  {
    var u := Registered(users, req, id, now).value;
    assert u in users + [u];
  }

  /** Two users never share an email. */
  predicate UniqueEmails(users: seq<User>) {
    forall i, j :: 0 <= i < j < |users| ==> users[i].email != users[j].email
  }

  /** `register` keeps emails unique. */
  lemma RegisterKeepsEmailsUnique(users: seq<User>, req: RegisterRequest, id: nat, now: int)
    requires UniqueEmails(users) && Registered(users, req, id, now).Ok?
    ensures UniqueEmails(users + [Registered(users, req, id, now).value])
  {
    var u := Registered(users, req, id, now).value;
    var r := users + [u];
    forall i, j | 0 <= i < j < |r|
      ensures r[i].email != r[j].email
    {
      if j == |users| {
        assert r[i] in users;
      }
    }
  }

  // ---------------------------------------------------------------------
  // sendResetCode and verifyOtp

  /** The user `sendResetCode` issues a code for: 422 without an email,
      404 for an unknown one. */
  function ResetTarget(users: seq<User>, email: Option<string>): (out: Outcome<User>)
    ensures !Filled(email) ==> out == Fail(ValidationError)
    ensures Filled(email) && !EmailTaken(users, email.value) ==> out == Fail(NotFound)
    ensures out.Ok? <==> Filled(email) && EmailTaken(users, email.value)
    ensures out.Ok? ==> out.value in users && out.value.email == email.value
  {
    if !Filled(email) then Fail(ValidationError)
    else
      match UserByEmail(users, email.value)
      case None => Fail(NotFound)
      case Some(u) => Ok(u)
  }

  /** `sendResetCode`: appends one OTP row for the user with that email. */
  method SendResetCode(db: Db, email: Option<string>, now: int) returns (out: Outcome<nat>)
    requires db.Valid()
    modifies db`otps, db`nextId
    ensures db.Valid()
    ensures ResetTarget(db.users, email).Fail? ==>
      out == Fail(ResetTarget(db.users, email).failure) && db.otps == old(db.otps) && db.nextId == old(db.nextId)
    ensures ResetTarget(db.users, email).Ok? ==>
      var u := ResetTarget(db.users, email).value;
      && out == Ok(u.id)
      && db.otps == old(db.otps) + [Otp(old(db.nextId), u.id, DevCode, now)]
      && db.nextId == old(db.nextId) + 1
  {
    var t := ResetTarget(db.users, email);
    if t.Fail? {
      return Fail(t.failure);
    }
    OtpAppendKeepsIds(db.otps, Otp(db.nextId, t.value.id, DevCode, now), db.nextId);
    db.otps := db.otps + [Otp(db.nextId, t.value.id, DevCode, now)];
    db.nextId := db.nextId + 1;
    out := Ok(t.value.id);
  }

  predicate UserExists(users: seq<User>, id: Option<nat>) {
    id.Some? && exists u :: u in users && u.id == id.value
  }

  predicate CodeIssued(otps: seq<Otp>, userId: nat, code: string) {
    exists o :: o in otps && o.userId == userId && o.code == code
  }

  /** `verifyOtp`: 422 unless the user exists and a code is given, 400 unless
      some OTP row of that user carries the code. Codes never expire and are
      not consumed. */
  function VerifyOtp(users: seq<User>, otps: seq<Otp>, userId: Option<nat>, code: Option<string>): (out: Outcome<nat>)
    ensures !(UserExists(users, userId) && Filled(code)) ==> out == Fail(ValidationError)
    ensures UserExists(users, userId) && Filled(code) && !CodeIssued(otps, userId.value, code.value) ==> out == Fail(BadRequest)
    ensures out.Ok? <==> UserExists(users, userId) && Filled(code) && CodeIssued(otps, userId.value, code.value)
    ensures out.Ok? ==> out.value == userId.value
  {
    if !(UserExists(users, userId) && Filled(code)) then Fail(ValidationError)
    else if !CodeIssued(otps, userId.value, code.value) then Fail(BadRequest)
    else Ok(userId.value)
  }

  /** The code issued on registration verifies, and keeps verifying however
      many more codes are issued afterwards. */
  lemma RegisteredUserVerifies(db: seq<User>, otps: seq<Otp>, req: RegisterRequest, id: nat, now: int, later: seq<Otp>)
    requires Registered(db, req, id, now).Ok?
    ensures var u := Registered(db, req, id, now).value;
      VerifyOtp(db + [u], otps + [Otp(id + 1, u.id, DevCode, now)] + later, Some(u.id), Some(DevCode)) == Ok(u.id)
  {
    var u := Registered(db, req, id, now).value;
    var all := otps + [Otp(id + 1, u.id, DevCode, now)] + later;
    assert all[|otps|] == Otp(id + 1, u.id, DevCode, now);
    assert u in db + [u];
    assert !Blank(DevCode[0]);
  }

  /** A reset code for a known email verifies. */
  lemma ResetCodeVerifies(users: seq<User>, otps: seq<Otp>, email: Option<string>, id: nat, now: int)
    requires ResetTarget(users, email).Ok?
    ensures var u := ResetTarget(users, email).value;
      VerifyOtp(users, otps + [Otp(id, u.id, DevCode, now)], Some(u.id), Some(DevCode)) == Ok(u.id)
  {
    var u := ResetTarget(users, email).value;
    assert (otps + [Otp(id, u.id, DevCode, now)])[|otps|] == Otp(id, u.id, DevCode, now);
    assert !Blank(DevCode[0]);
  }

  // ---------------------------------------------------------------------
  // setPassword

  /** PHP's `empty()` on a nullable text column. */
  predicate Empty(f: Option<string>) {
    f.None? || f.value == "" || f.value == "0"
  }

  /** The row after `setPassword` stores `hashed`. */
  function WithPassword(u: User, hashed: string): (r: User)
    ensures r.password == Some(hashed)
    ensures Empty(u.dob) ==> r.dob == Some(DefaultDob)
    ensures !Empty(u.dob) ==> r.dob == u.dob
    ensures r.(password := u.password, dob := u.dob) == u
  {
    var v := u.(password := Some(hashed));
    if Empty(v.dob) then v.(dob := Some(DefaultDob)) else v
  }

  /** `setPassword`: 422 unless the user exists and the password has at least
      six characters. The OTP table is not consulted. */
  method SetPassword(db: Db, userId: Option<nat>, password: Option<string>, hashed: string) returns (out: Outcome<User>)
    requires db.Valid()
    modifies db`users
    ensures db.Valid()
    ensures !(UserExists(old(db.users), userId) && Filled(password) && |password.value| >= 6) ==>
      out == Fail(ValidationError) && db.users == old(db.users)
    ensures UserExists(old(db.users), userId) && Filled(password) && |password.value| >= 6 ==>
      var u := FindUser(old(db.users), userId.value).value;
      out == Ok(WithPassword(u, hashed)) && db.users == SetUser(old(db.users), WithPassword(u, hashed))
  {
    if !(UserExists(db.users, userId) && Filled(password) && |password.value| >= 6) {
      return Fail(ValidationError);
    }
    var found := FindUser(db.users, userId.value);
    var w :| w in db.users && w.id == userId.value;
    var j :| 0 <= j < |db.users| && db.users[j] == w;
    var u := WithPassword(found.value, hashed);
    SetUserKeepsIds(db.users, u, db.nextId);
    db.users := SetUser(db.users, u);
    out := Ok(u);
  }

  /** Setting a password twice fills the date of birth at most once. */
  lemma SetPasswordTwice(u: User, h1: string, h2: string)
    ensures WithPassword(WithPassword(u, h1), h2) == WithPassword(u, h2)
  {
  }

  // ---------------------------------------------------------------------
  // socialLogin

  datatype SocialRequest = SocialRequest(
    email: Option<string>,
    firstName: Option<string>,
    lastName: Option<string>,
    socialToken: Option<string>,
    userType: Option<string>)

  predicate SocialValid(req: SocialRequest) {
    && Filled(req.email) && Short(req.firstName, 100) && Short(req.lastName, 100)
    && Filled(req.socialToken) && RoleOf(req.userType).Some?
  }

  /** The outcome of `socialLogin` and the users table after it: an existing
      user with that email is returned as it is; otherwise one user is created
      with an unusable password `hashed` and the social token. */
  function FindOrCreate(users: seq<User>, req: SocialRequest, id: nat, hashed: string): (r: (Outcome<User>, seq<User>))
    ensures !SocialValid(req) ==> r == (Fail(ValidationError), users)
    ensures SocialValid(req) && EmailTaken(users, req.email.value) ==>
      r.0 == Ok(UserByEmail(users, req.email.value).value) && r.1 == users
    ensures SocialValid(req) && !EmailTaken(users, req.email.value) ==>
      && r.0.Ok? && r.1 == users + [r.0.value]
      && r.0.value.id == id && r.0.value.email == req.email.value
      && r.0.value.firstName == req.firstName.value && r.0.value.lastName == req.lastName.value
      && Some(r.0.value.userType) == RoleOf(req.userType)
      && r.0.value.password == Some(hashed) && r.0.value.socialToken == req.socialToken
    ensures r.0.Ok? ==> r.0.value in r.1 && r.0.value.email == req.email.value
  {
    if !SocialValid(req) then (Fail(ValidationError), users)
    else
      match UserByEmail(users, req.email.value)
      case Some(u) => (Ok(u), users)
      case None =>
        var u := NewUser(id, req.firstName.value, req.lastName.value, req.email.value, RoleOf(req.userType).value)
                   .(password := Some(hashed), socialToken := req.socialToken);
        (Ok(u), users + [u])
  }

  /** A second social login with the same request finds the user the first
      one returned and inserts nothing. */
  lemma SocialLoginOnce(users: seq<User>, req: SocialRequest, id: nat, id2: nat, h1: string, h2: string)
    ensures var (out, after) := FindOrCreate(users, req, id, h1);
      out.Ok? ==> FindOrCreate(after, req, id2, h2) == (out, after)
    ensures |FindOrCreate(users, req, id, h1).1| <= |users| + 1
  {
  }

  /** `socialLogin`. */
  method SocialLogin(db: Db, req: SocialRequest, hashed: string) returns (out: Outcome<User>)
    requires db.Valid()
    modifies db`users, db`nextId
    ensures db.Valid()
    ensures (out, db.users) == FindOrCreate(old(db.users), req, old(db.nextId), hashed)
    ensures db.nextId == if |db.users| > |old(db.users)| then old(db.nextId) + 1 else old(db.nextId)
  {
    var r := FindOrCreate(db.users, req, db.nextId, hashed);
    out := r.0;
    if |r.1| > |db.users| {
      UserAppendKeepsIds(db.users, r.0.value, db.nextId);
      db.users := r.1;
      db.nextId := db.nextId + 1;
    }
  }

  // ---------------------------------------------------------------------
  // registerDevice

  datatype DeviceRequest = DeviceRequest(platform: Option<string>, rid: Option<string>, model: Option<string>)

  predicate DeviceValid(req: DeviceRequest) {
    && req.platform.Some? && req.platform.value in {"ios", "android"}
    && Filled(req.rid) && Filled(req.model)
  }

  predicate DeviceKey(d: Device, uid: nat, rid: string) {
    d.userId == uid && d.rid == rid
  }

  /** `updateOrInsert` on the key (user, rid): the first row with the key is
      rewritten, or a row with id `id` is appended when there is none. */
  function Upsert(devices: seq<Device>, uid: nat, platform: string, rid: string, model: string, id: nat): (r: seq<Device>)
    ensures exists k :: 0 <= k < |r| && r[k] == Device(r[k].id, uid, 0, platform, rid, model)
    ensures (exists d :: d in devices && DeviceKey(d, uid, rid)) ==> |r| == |devices|
    ensures (forall d :: d in devices ==> !DeviceKey(d, uid, rid)) ==>
      r == devices + [Device(id, uid, 0, platform, rid, model)]
  {
    match FirstIndex(devices, (d: Device) => DeviceKey(d, uid, rid))
    case Some(k) =>
      var r := devices[k := Device(devices[k].id, uid, 0, platform, rid, model)];
      assert r[k] == Device(r[k].id, uid, 0, platform, rid, model);
      r
    case None =>
      var r := devices + [Device(id, uid, 0, platform, rid, model)];
      assert r[|devices|] == Device(id, uid, 0, platform, rid, model);
      r
  }

  /** At most one device row per key. */
  predicate KeyUnique(devices: seq<Device>, uid: nat, rid: string) {
    forall i, j :: 0 <= i < j < |devices| && DeviceKey(devices[i], uid, rid) ==> !DeviceKey(devices[j], uid, rid)
  }

  /** After an upsert there is exactly one row for the key, carrying the
      latest platform and model; rows with other keys are untouched. */
  lemma {:induction false} UpsertLeavesOneRow(devices: seq<Device>, uid: nat, platform: string, rid: string, model: string, id: nat)
    requires KeyUnique(devices, uid, rid)
    ensures var r := Upsert(devices, uid, platform, rid, model, id);
      exists k :: 0 <= k < |r| && r[k] == Device(r[k].id, uid, 0, platform, rid, model) &&
        forall j :: 0 <= j < |r| && j != k ==> !DeviceKey(r[j], uid, rid) && r[j] == devices[j]
  {
    var r := Upsert(devices, uid, platform, rid, model, id);
    match FirstIndex(devices, (d: Device) => DeviceKey(d, uid, rid))
    case Some(k) =>
      assert r == devices[k := Device(devices[k].id, uid, 0, platform, rid, model)];
      forall j | 0 <= j < |r| && j != k
        ensures !DeviceKey(r[j], uid, rid) && r[j] == devices[j]
      {
        if j > k {
          assert !DeviceKey(devices[j], uid, rid);
        }
      }
    case None =>
      assert r == devices + [Device(id, uid, 0, platform, rid, model)];
      assert r[|devices|] == Device(id, uid, 0, platform, rid, model);
  }

  /** Registering the same device again changes nothing. */
  lemma UpsertIdempotent(devices: seq<Device>, uid: nat, platform: string, rid: string, model: string, id: nat, id2: nat)
    ensures var r := Upsert(devices, uid, platform, rid, model, id);
      Upsert(r, uid, platform, rid, model, id2) == r
  {
    var r := Upsert(devices, uid, platform, rid, model, id);
    var p := (d: Device) => DeviceKey(d, uid, rid);
    match FirstIndex(devices, p)
    case Some(k) =>
      assert r == devices[k := Device(devices[k].id, uid, 0, platform, rid, model)];
      assert FirstIndex(r, p) == Some(k) by {
        var f := FirstIndex(r, p);
        assert p(r[k]);
        assert forall j :: 0 <= j < k ==> r[j] == devices[j];
        assert f.Some?;
        assert !(f.value < k) && !(k < f.value);
      }
    case None =>
      assert r == devices + [Device(id, uid, 0, platform, rid, model)];
      assert FirstIndex(r, p) == Some(|devices|) by {
        var f := FirstIndex(r, p);
        assert p(r[|devices|]);
        assert forall j :: 0 <= j < |devices| ==> r[j] == devices[j];
        assert f.Some?;
        assert !(f.value < |devices|) && !(|devices| < f.value);
      }
  }

  /** `registerDevice`: the caller's device, keyed by its registration id. */
  method RegisterDevice(db: Db, me: User, req: DeviceRequest) returns (out: Outcome<bool>)
    requires db.Valid()
    modifies db`devices, db`nextId
    ensures db.Valid()
    ensures !DeviceValid(req) ==> out == Fail(ValidationError) && db.devices == old(db.devices) && db.nextId == old(db.nextId)
    ensures DeviceValid(req) ==>
      out == Ok(true) && db.devices == Upsert(old(db.devices), me.id, req.platform.value, req.rid.value, req.model.value, old(db.nextId))
  {
    if !DeviceValid(req) {
      return Fail(ValidationError);
    }
    var r := Upsert(db.devices, me.id, req.platform.value, req.rid.value, req.model.value, db.nextId);
    if |r| > |db.devices| {
      DeviceAppendKeepsIds(db.devices, Device(db.nextId, me.id, 0, req.platform.value, req.rid.value, req.model.value), db.nextId);
      db.nextId := db.nextId + 1;
    } else {
      // an existing row was rewritten in place: ids are unchanged
      assert forall i :: 0 <= i < |r| ==> r[i].id == db.devices[i].id;
    }
    db.devices := r;
    out := Ok(true);
  }

  // ---------------------------------------------------------------------
  // updateProfile

  /** The body of `updateProfile`; a field is present when `Some`. */
  datatype ProfileRequest = ProfileRequest(
    password: Option<string>,
    firstName: Option<string>,
    lastName: Option<string>,
    phone: Option<string>,
    dob: Option<string>,
    email: Option<string>,
    image: Option<string>,
    address: Option<string>,
    city: Option<string>,
    state: Option<string>,
    country: Option<string>,
    postalCode: Option<string>,
    gender: Option<string>,
    bio: Option<string>,
    notificationEnabled: Option<string>,
    language: Option<string>,
    // applied to chefs only
    about: Option<string>,
    addressName: Option<string>,
    addressDetail: Option<string>,
    note: Option<string>,
    currentLat: Option<string>,
    currentLng: Option<string>,
    availabilityPickup: Option<Json>,
    availabilityDelivery: Option<Json>,
    availabilityDinein: Option<Json>,
    deliveryPrice: Option<string>,
    dineinPrice: Option<string>,
    dineinLimit: Option<string>,
    restStatus: Option<string>,
    bankDetails: Option<Json>,
    paymentMethod: Option<string>)

  /** A given field replaces the column, an absent one keeps it. */
  function Over(given: Option<string>, current: Option<string>): (r: Option<string>)
    ensures given.Some? ==> r == given
    ensures given.None? ==> r == current
  {
    if given.Some? then given else current
  }

  /** The fields every caller may change. */
  function ApplyBasic(u: User, req: ProfileRequest): (v: User)
    ensures BasicApplied(u, req, v)
    ensures v.id == u.id && v.userType == u.userType && v.password == u.password
    ensures ChefFieldsKept(u, v)
  {
    u.(firstName := req.firstName.GetOr(u.firstName), lastName := req.lastName.GetOr(u.lastName),
       phone := Over(req.phone, u.phone), dob := Over(req.dob, u.dob), email := req.email.GetOr(u.email),
       image := Over(req.image, u.image), address := Over(req.address, u.address),
       city := Over(req.city, u.city), state := Over(req.state, u.state),
       country := Over(req.country, u.country), postalCode := Over(req.postalCode, u.postalCode),
       gender := Over(req.gender, u.gender), bio := Over(req.bio, u.bio),
       notificationEnabled := Over(req.notificationEnabled, u.notificationEnabled),
       language := Over(req.language, u.language))
  }

  /** The fields only a chef may change; bank details need both parts. */
  function ApplyChef(u: User, req: ProfileRequest): (v: User)
    ensures ChefFieldsApplied(u, req, v)
    ensures v.id == u.id && v.userType == u.userType && v.password == u.password
    ensures BasicKept(u, v)
  {
    u.(about := Over(req.about, u.about), addressName := Over(req.addressName, u.addressName),
       addressDetail := Over(req.addressDetail, u.addressDetail), note := Over(req.note, u.note),
       currentLat := Over(req.currentLat, u.currentLat), currentLng := Over(req.currentLng, u.currentLng),
       availabilityPickup := Over(req.availabilityPickup, u.availabilityPickup),
       availabilityDelivery := Over(req.availabilityDelivery, u.availabilityDelivery),
       availabilityDinein := Over(req.availabilityDinein, u.availabilityDinein),
       deliveryPrice := Over(req.deliveryPrice, u.deliveryPrice),
       dineinPrice := Over(req.dineinPrice, u.dineinPrice),
       dineinLimit := Over(req.dineinLimit, u.dineinLimit),
       restStatus := Over(req.restStatus, u.restStatus),
       bankDetails := if req.bankDetails.Some? && req.paymentMethod.Some?
                      then Some(BankDetails(req.paymentMethod.value, req.bankDetails.value))
                      else u.bankDetails)
  }

  /** The basic columns after `updateProfile`: each given field replaces its column. */
  predicate BasicApplied(me: User, req: ProfileRequest, v: User) {
    && Overwrites(req.firstName, me.firstName, v.firstName) && Overwrites(req.lastName, me.lastName, v.lastName)
    && OverwritesNullable(req.phone, me.phone, v.phone) && OverwritesNullable(req.dob, me.dob, v.dob)
    && Overwrites(req.email, me.email, v.email) && OverwritesNullable(req.image, me.image, v.image)
    && OverwritesNullable(req.address, me.address, v.address) && OverwritesNullable(req.city, me.city, v.city)
    && OverwritesNullable(req.state, me.state, v.state) && OverwritesNullable(req.country, me.country, v.country)
    && OverwritesNullable(req.postalCode, me.postalCode, v.postalCode)
    && OverwritesNullable(req.gender, me.gender, v.gender) && OverwritesNullable(req.bio, me.bio, v.bio)
    && OverwritesNullable(req.notificationEnabled, me.notificationEnabled, v.notificationEnabled)
    && OverwritesNullable(req.language, me.language, v.language)
  }

  /** The chef columns after a chef's `updateProfile`: each given field replaces
      its column, and the bank details only when both of their parts are given. */
  predicate ChefFieldsApplied(me: User, req: ProfileRequest, v: User) {
    && OverwritesNullable(req.about, me.about, v.about)
    && OverwritesNullable(req.addressName, me.addressName, v.addressName)
    && OverwritesNullable(req.addressDetail, me.addressDetail, v.addressDetail)
    && OverwritesNullable(req.note, me.note, v.note)
    && OverwritesNullable(req.currentLat, me.currentLat, v.currentLat)
    && OverwritesNullable(req.currentLng, me.currentLng, v.currentLng)
    && OverwritesNullable(req.availabilityPickup, me.availabilityPickup, v.availabilityPickup)
    && OverwritesNullable(req.availabilityDelivery, me.availabilityDelivery, v.availabilityDelivery)
    && OverwritesNullable(req.availabilityDinein, me.availabilityDinein, v.availabilityDinein)
    && OverwritesNullable(req.deliveryPrice, me.deliveryPrice, v.deliveryPrice)
    && OverwritesNullable(req.dineinPrice, me.dineinPrice, v.dineinPrice)
    && OverwritesNullable(req.dineinLimit, me.dineinLimit, v.dineinLimit)
    && OverwritesNullable(req.restStatus, me.restStatus, v.restStatus)
    && (req.bankDetails.Some? && req.paymentMethod.Some? ==>
          v.bankDetails == Some(BankDetails(req.paymentMethod.value, req.bankDetails.value)))
    && (req.bankDetails.None? || req.paymentMethod.None? ==> v.bankDetails == me.bankDetails)
  }

  /** The fifteen basic columns stay as they were. */
  predicate BasicKept(me: User, v: User) {
    && v.firstName == me.firstName && v.lastName == me.lastName && v.phone == me.phone
    && v.dob == me.dob && v.email == me.email && v.image == me.image && v.address == me.address
    && v.city == me.city && v.state == me.state && v.country == me.country
    && v.postalCode == me.postalCode && v.gender == me.gender && v.bio == me.bio
    && v.notificationEnabled == me.notificationEnabled && v.language == me.language
  }

  /** The chef columns of anyone else's profile stay as they were. */
  predicate ChefFieldsKept(me: User, v: User) {
    && v.about == me.about && v.addressName == me.addressName && v.addressDetail == me.addressDetail
    && v.note == me.note && v.currentLat == me.currentLat && v.currentLng == me.currentLng
    && v.availabilityPickup == me.availabilityPickup && v.availabilityDelivery == me.availabilityDelivery
    && v.availabilityDinein == me.availabilityDinein && v.deliveryPrice == me.deliveryPrice
    && v.dineinPrice == me.dineinPrice && v.dineinLimit == me.dineinLimit
    && v.restStatus == me.restStatus && v.bankDetails == me.bankDetails
  }

  /** The caller's row after `updateProfile`: 400 and no change when a new
      password is given and `oldPasswordMatches` (the hash check of
      `old_password`) fails; otherwise the new hash and every given field. */
  function ApplyProfile(me: User, req: ProfileRequest, oldPasswordMatches: bool, hashed: string): (out: Outcome<User>)
    ensures out.Fail? <==> Filled(req.password) && !oldPasswordMatches
    ensures out.Fail? ==> out.failure == BadRequest
    ensures out.Ok? ==>
      && out.value.id == me.id && out.value.userType == me.userType
      && out.value.socialToken == me.socialToken && out.value.timestamp == me.timestamp
      && out.value.password == (if Filled(req.password) then Some(hashed) else me.password)
      && BasicApplied(me, req, out.value)
    ensures out.Ok? && me.userType != Chef ==> ChefFieldsKept(me, out.value)
    ensures out.Ok? && me.userType == Chef ==> ChefFieldsApplied(me, req, out.value)
  {
    if Filled(req.password) && !oldPasswordMatches then Fail(BadRequest)
    else
      var u := if Filled(req.password) then me.(password := Some(hashed)) else me;
      var v := ApplyBasic(u, req);
      Ok(if me.userType == Chef then ApplyChef(v, req) else v)
  }

  /** The request that names no field. */
  const NoChanges: ProfileRequest :=
    ProfileRequest(None, None, None, None, None, None, None, None, None, None, None, None, None, None, None, None,
                   None, None, None, None, None, None, None, None, None, None, None, None, None, None, None)

  /** A request with no fields leaves the row as it is. */
  lemma EmptyProfileKeepsUser(me: User, ok: bool, hashed: string)
    ensures ApplyProfile(me, NoChanges, ok, hashed) == Ok(me)
  {
  }

  /** Sending the same profile again changes nothing more. */
  lemma ProfileIdempotent(me: User, req: ProfileRequest, hashed: string)
    requires ApplyProfile(me, req, true, hashed).Ok?
    ensures var u := ApplyProfile(me, req, true, hashed).value;
      ApplyProfile(u, req, true, hashed) == Ok(u)
  {
  }

  /** The assignments of `updateProfile` to the names, phone and date of birth. */
  method AssignNames(u: User, req: ProfileRequest) returns (v: User)
    ensures v == u.(firstName := req.firstName.GetOr(u.firstName), lastName := req.lastName.GetOr(u.lastName), phone := Over(req.phone, u.phone), dob := Over(req.dob, u.dob))
  {
    v := u;
    if req.firstName.Some? { v := v.(firstName := req.firstName.value); }
    if req.lastName.Some? { v := v.(lastName := req.lastName.value); }
    if req.phone.Some? { v := v.(phone := req.phone); }
    if req.dob.Some? { v := v.(dob := req.dob); }
  }

  /** The assignments of `updateProfile` to the email, image, street address and city. */
  method AssignContact(u: User, req: ProfileRequest) returns (v: User)
    ensures v == u.(email := req.email.GetOr(u.email), image := Over(req.image, u.image), address := Over(req.address, u.address), city := Over(req.city, u.city))
  {
    v := u;
    if req.email.Some? { v := v.(email := req.email.value); }
    if req.image.Some? { v := v.(image := req.image); }
    if req.address.Some? { v := v.(address := req.address); }
    if req.city.Some? { v := v.(city := req.city); }
  }

  /** The assignments of `updateProfile` to the state, country, postal code and gender. */
  method AssignRegion(u: User, req: ProfileRequest) returns (v: User)
    ensures v == u.(state := Over(req.state, u.state), country := Over(req.country, u.country), postalCode := Over(req.postalCode, u.postalCode), gender := Over(req.gender, u.gender))
  {
    v := u;
    if req.state.Some? { v := v.(state := req.state); }
    if req.country.Some? { v := v.(country := req.country); }
    if req.postalCode.Some? { v := v.(postalCode := req.postalCode); }
    if req.gender.Some? { v := v.(gender := req.gender); }
  }

  /** The assignments of `updateProfile` to the bio, notification setting and language. */
  method AssignPreferences(u: User, req: ProfileRequest) returns (v: User)
    ensures v == u.(bio := Over(req.bio, u.bio), notificationEnabled := Over(req.notificationEnabled, u.notificationEnabled), language := Over(req.language, u.language))
  {
    v := u;
    if req.bio.Some? { v := v.(bio := req.bio); }
    if req.notificationEnabled.Some? { v := v.(notificationEnabled := req.notificationEnabled); }
    if req.language.Some? { v := v.(language := req.language); }
  }

  /** The assignments of `updateProfile` to a chef's description and pickup address. */
  method AssignKitchen(u: User, req: ProfileRequest) returns (v: User)
    ensures v == u.(about := Over(req.about, u.about), addressName := Over(req.addressName, u.addressName), addressDetail := Over(req.addressDetail, u.addressDetail), note := Over(req.note, u.note))
  {
    v := u;
    if req.about.Some? { v := v.(about := req.about); }
    if req.addressName.Some? { v := v.(addressName := req.addressName); }
    if req.addressDetail.Some? { v := v.(addressDetail := req.addressDetail); }
    if req.note.Some? { v := v.(note := req.note); }
  }

  /** The assignments of `updateProfile` to a chef's position and first two availabilities. */
  method AssignPosition(u: User, req: ProfileRequest) returns (v: User)
    ensures v == u.(currentLat := Over(req.currentLat, u.currentLat), currentLng := Over(req.currentLng, u.currentLng), availabilityPickup := Over(req.availabilityPickup, u.availabilityPickup), availabilityDelivery := Over(req.availabilityDelivery, u.availabilityDelivery))
  {
    v := u;
    if req.currentLat.Some? { v := v.(currentLat := req.currentLat); }
    if req.currentLng.Some? { v := v.(currentLng := req.currentLng); }
    if req.availabilityPickup.Some? { v := v.(availabilityPickup := req.availabilityPickup); }
    if req.availabilityDelivery.Some? { v := v.(availabilityDelivery := req.availabilityDelivery); }
  }

  /** The assignments of `updateProfile` to a chef's dine-in availability and prices. */
  method AssignDineIn(u: User, req: ProfileRequest) returns (v: User)
    ensures v == u.(availabilityDinein := Over(req.availabilityDinein, u.availabilityDinein), deliveryPrice := Over(req.deliveryPrice, u.deliveryPrice), dineinPrice := Over(req.dineinPrice, u.dineinPrice), dineinLimit := Over(req.dineinLimit, u.dineinLimit))
  {
    v := u;
    if req.availabilityDinein.Some? { v := v.(availabilityDinein := req.availabilityDinein); }
    if req.deliveryPrice.Some? { v := v.(deliveryPrice := req.deliveryPrice); }
    if req.dineinPrice.Some? { v := v.(dineinPrice := req.dineinPrice); }
    if req.dineinLimit.Some? { v := v.(dineinLimit := req.dineinLimit); }
  }

  /** The assignments of `updateProfile` to a chef's status and bank details. */
  method AssignPayout(u: User, req: ProfileRequest) returns (v: User)
    ensures v == u.(restStatus := Over(req.restStatus, u.restStatus),
                    bankDetails := if req.bankDetails.Some? && req.paymentMethod.Some?
                                   then Some(BankDetails(req.paymentMethod.value, req.bankDetails.value))
                                   else u.bankDetails)
  {
    v := u;
    if req.restStatus.Some? { v := v.(restStatus := req.restStatus); }
    if req.bankDetails.Some? && req.paymentMethod.Some? {
      v := v.(bankDetails := Some(BankDetails(req.paymentMethod.value, req.bankDetails.value)));
    }
  }

  /** `updateProfile`: checks the old password when a new one is given, then
      assigns the given fields one group at a time and saves the row. */
  method UpdateProfile(db: Db, me: User, req: ProfileRequest, oldPasswordMatches: bool, hashed: string) returns (out: Outcome<User>)
    requires db.Valid()
    modifies db`users
    ensures db.Valid()
    ensures out == ApplyProfile(me, req, oldPasswordMatches, hashed)
    ensures out.Fail? ==> db.users == old(db.users)
    ensures out.Ok? ==> db.users == SetUser(old(db.users), out.value)
  {
    var u := me;
    if Filled(req.password) {
      if !oldPasswordMatches {
        return Fail(BadRequest);
      }
      u := u.(password := Some(hashed));
    }
    ghost var start := u;
    u := AssignNames(u, req);
    u := AssignContact(u, req);
    u := AssignRegion(u, req);
    u := AssignPreferences(u, req);
    assert u == ApplyBasic(start, req);
    if u.userType == Chef {
      ghost var basic := u;
      u := AssignKitchen(u, req);
      u := AssignPosition(u, req);
      u := AssignDineIn(u, req);
      u := AssignPayout(u, req);
      assert u == ApplyChef(basic, req);
    }
    SetUserKeepsIds(db.users, u, db.nextId);
    db.users := SetUser(db.users, u);
    out := Ok(u);
  }
}
