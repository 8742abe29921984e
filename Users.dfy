/** The account routes of src/routes/users.ts: driver registration with its
    uniqueness check, and the location and device-token updates of the
    signed-in user. Password hashing is outside the model: the hash comes in
    as a parameter. */
module Users {
  import opened Common
  import opened Records
  import opened Store

  const DUPLICATE_USER_MESSAGE: string := "A user with this email or phone number already exists!"
  const INVALID_USER_MESSAGE: string := "Invalid user provided"
  const LOCATION_UPDATED_MESSAGE: string := "Location updated successfully!"
  const TOKEN_UPDATED_MESSAGE: string := "Device token updated successfully!"

  // ---------------------------------------------------------------------
  // The registration pipeline: `$lookup` of each driver's user, `$unwind`,
  // then `$match` on email or phone

  /** The user a driver's `user` field points at, if it exists. */
  function LinkedUser(users: seq<User>, d: Driver): (r: Option<User>)
    ensures r.Some? <==> exists k :: 0 <= k < |users| && users[k].id == d.user
    ensures r.Some? ==> r.value in users && r.value.id == d.user
  {
    var k := FindUser(users, d.user);
    if k.Some? then Some(users[k.value]) else None
  }

  /** `$lookup` then `$unwind`: one row per driver whose user exists. */
  function DriverUsers(drivers: seq<Driver>, users: seq<User>): (r: seq<User>)
    ensures forall u :: u in r <==> exists i :: 0 <= i < |drivers| && LinkedUser(users, drivers[i]) == Some(u)
  {
    if drivers == [] then []
    else
      var rest := DriverUsers(drivers[1..], users);
      assert forall i :: 1 <= i < |drivers| ==> drivers[i] == drivers[1..][i - 1];
      var first := LinkedUser(users, drivers[0]);
      (if first.Some? then [first.value] else []) + rest
  }

  predicate ConflictsWith(u: User, email: string, phoneNumber: string) {
    u.email == email || u.phoneNumber == Some(phoneNumber)
  }

  /** Whether some driver's user already has the email or the phone number. */
  predicate Taken(drivers: seq<Driver>, users: seq<User>, email: string, phoneNumber: string) {
    exists i :: 0 <= i < |drivers| && LinkedUser(users, drivers[i]).Some?
                && ConflictsWith(LinkedUser(users, drivers[i]).value, email, phoneNumber)
  }

  /** The rows the pipeline answers: the registration is refused exactly when
      there is one. */
  function RegistrationConflicts(drivers: seq<Driver>, users: seq<User>, email: string, phoneNumber: string)
    : (r: seq<User>)
    ensures r != [] <==> Taken(drivers, users, email, phoneNumber)
    ensures forall u :: u in r ==> u in users && ConflictsWith(u, email, phoneNumber)
  {
    var r := Filter(DriverUsers(drivers, users), (u: User) => ConflictsWith(u, email, phoneNumber));
    assert r != [] ==> r[0] in r;
    r
  }

  /** Looking up an id other than the appended user's ignores that user. */
  lemma {:induction false} FindUserAppend(users: seq<User>, u: User, id: Id)
    requires id != u.id
    ensures FindUser(users + [u], id) == FindUser(users, id)
  {
    if users != [] {
      assert (users + [u])[1..] == users[1..] + [u];
      FindUserAppend(users[1..], u, id);
    }
  }

  /** A user that no driver points at (a rider) never blocks a driver
      registration, whatever its email and phone. */
  lemma RiderDoesNotBlock(drivers: seq<Driver>, users: seq<User>, u: User, email: string, phoneNumber: string)
    requires forall i :: 0 <= i < |drivers| ==> drivers[i].user != u.id
    ensures Taken(drivers, users + [u], email, phoneNumber) <==> Taken(drivers, users, email, phoneNumber)
  {
    forall i | 0 <= i < |drivers|
      ensures LinkedUser(users + [u], drivers[i]) == LinkedUser(users, drivers[i])
    {
      FindUserAppend(users, u, drivers[i].user);
      var k := FindUser(users, drivers[i].user);
      if k.Some? {
        assert (users + [u])[k.value] == users[k.value];
      }
    }
  }

  /** Once a driver and its new user are stored, their email and their
      phone number are both taken. */
  lemma RegisteredDriverIsTaken(drivers: seq<Driver>, users: seq<User>, u: User, d: Driver,
                                email: string, phoneNumber: string)
    requires forall k :: 0 <= k < |users| ==> users[k].id != u.id
    requires d.user == u.id && ConflictsWith(u, email, phoneNumber)
    ensures Taken(drivers + [d], users + [u], email, phoneNumber)
  {
    var all := drivers + [d];
    assert all[|drivers|] == d;
    var k := FindUser(users + [u], u.id);
    assert (users + [u])[|users|].id == u.id;
    assert k.Some?;
    assert k.value == |users|;
    assert LinkedUser(users + [u], all[|drivers|]) == Some(u);
  }

  /** The user record the route creates: only email, phone, city and the
      password hash are set. */
  function NewUser(id: Id, email: string, phoneNumber: string, city: string, passwordHash: string): User {
    User(id, None, None, email, Some(phoneNumber), Some(city), passwordHash, None, None, None, None)
  }

  /** `POST /driver`: 400 and nothing stored when the email or the phone
      belongs to a driver's user; otherwise one user and one driver of the
      requested service, pointing at that user, are appended. */
  method RegisterDriver(db: Db, email: string, phoneNumber: string, city: string, passwordHash: string, service: Id)
    returns (r: Outcome<Driver>)
    requires db.Valid()
    modifies db`users, db`drivers, db`nextId
    ensures db.Valid()
    ensures Taken(old(db.drivers), old(db.users), email, phoneNumber) ==>
              && r == Fail(BAD_REQUEST, DUPLICATE_USER_MESSAGE)
              && db.users == old(db.users) && db.drivers == old(db.drivers)
    ensures !Taken(old(db.drivers), old(db.users), email, phoneNumber) ==>
              var u := NewUser(old(db.nextId), email, phoneNumber, city, passwordHash);
              && (forall k :: 0 <= k < |old(db.users)| ==> old(db.users)[k].id != u.id)
              && r == Ok(Driver(old(db.nextId) + 1, u.id, service, None))
              && db.users == old(db.users) + [u]
              && db.drivers == old(db.drivers) + [r.value]
  {
    var conflicts := RegistrationConflicts(db.drivers, db.users, email, phoneNumber);
    if conflicts != [] {
      return Fail(BAD_REQUEST, DUPLICATE_USER_MESSAGE);
    }
    var userId := db.NewId();
    var u := NewUser(userId, email, phoneNumber, city, passwordHash);
    db.users := db.users + [u];
    var driverId := db.NewId();
    var d := Driver(driverId, userId, service, None);
    db.drivers := db.drivers + [d];
    r := Ok(d);
  }

  // ---------------------------------------------------------------------
  // PATCH /me/location and PATCH /me/token

  /** `$set: { coords }`: the stored GeoJSON `location` is not touched. */
  function WithCoords(u: User, latitude: real, longitude: real): (r: User)
    ensures r.coords == Some(Coordinates(latitude, longitude))
    ensures r.(coords := u.coords) == u
    ensures r.location == u.location
  {
    u.(coords := Some(Coordinates(latitude, longitude)))
  }

  function WithDeviceToken(u: User, token: string): (r: User)
    ensures r.deviceToken == Some(token)
    ensures r.(deviceToken := u.deviceToken) == u
  {
    u.(deviceToken := Some(token))
  }

  /** A second identical update changes nothing more. */
  lemma UpdatesAreIdempotent(u: User, latitude: real, longitude: real, token: string)
    ensures WithCoords(WithCoords(u, latitude, longitude), latitude, longitude) == WithCoords(u, latitude, longitude)
    ensures WithDeviceToken(WithDeviceToken(u, token), token) == WithDeviceToken(u, token)
  {
  }

  /** 404 and nothing changed for an unknown user; otherwise only that
      user's `coords` change. */
  method UpdateLocation(db: Db, userId: Id, latitude: real, longitude: real) returns (r: Outcome<string>)
    requires db.Valid()
    modifies db`users
    ensures db.Valid()
    ensures var k := FindUser(old(db.users), userId);
            && (k.None? ==> r == Fail(NOT_FOUND, INVALID_USER_MESSAGE) && db.users == old(db.users))
            && (k.Some? ==>
                  && r == Ok(LOCATION_UPDATED_MESSAGE)
                  && db.users == old(db.users)[k.value := WithCoords(old(db.users)[k.value], latitude, longitude)])
  {
    var k := FindUser(db.users, userId);
    if k.None? {
      return Fail(NOT_FOUND, INVALID_USER_MESSAGE);
    }
    db.users := db.users[k.value := WithCoords(db.users[k.value], latitude, longitude)];
    r := Ok(LOCATION_UPDATED_MESSAGE);
  }

  /** 404 and nothing changed for an unknown user; otherwise only that
      user's `deviceToken` changes. */
  method UpdateDeviceToken(db: Db, userId: Id, token: string) returns (r: Outcome<string>)
    requires db.Valid()
    modifies db`users
    ensures db.Valid()
    ensures var k := FindUser(old(db.users), userId);
            && (k.None? ==> r == Fail(NOT_FOUND, INVALID_USER_MESSAGE) && db.users == old(db.users))
            && (k.Some? ==>
                  && r == Ok(TOKEN_UPDATED_MESSAGE)
                  && db.users == old(db.users)[k.value := WithDeviceToken(old(db.users)[k.value], token)])
  {
    var k := FindUser(db.users, userId);
    if k.None? {
      return Fail(NOT_FOUND, INVALID_USER_MESSAGE);
    }
    db.users := db.users[k.value := WithDeviceToken(db.users[k.value], token)];
    r := Ok(TOKEN_UPDATED_MESSAGE);
  }
}
