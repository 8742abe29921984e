/** The driver-profile routes of src/routes/profile.ts: the `$set` of one
    profile sub-document (with the user's names for the personal-information
    routes), the upload check of an image, the vehicle documents, the trip
    append with its duplicate check and the route push. Each route is a
    method on the store; the file upload service's answer is an input. */
module Profiles {
  import opened Common
  import opened Records
  import opened Store
  import opened Validators

  const INVALID_DRIVER_MESSAGE: string := "Invalid driver provided!"
  const USER_NOT_FOUND_MESSAGE: string := "Could not find the associated user!"
  const MISSING_FILE_MESSAGE: string := "Missing file!"
  const UPLOAD_FAILED_MESSAGE: string := "Something failed while uploading the file!"

  // ---------------------------------------------------------------------
  // validateImageFile

  /** Whether the request carried a file, and the `secure_url` the upload
      service answered with (None when it answered nothing). */
  datatype ImageUpload = ImageUpload(hasFile: bool, secureUrl: Option<string>)

  /** No file: 400. An upload without a (non-empty) URL: 500. Otherwise the
      URL. */
  function ValidateImageFile(u: ImageUpload): (r: Outcome<string>)
    ensures r == Fail(BAD_REQUEST, MISSING_FILE_MESSAGE) <==> !u.hasFile
    ensures r == Fail(INTERNAL_SERVER_ERROR, UPLOAD_FAILED_MESSAGE) <==>
              u.hasFile && (u.secureUrl.None? || u.secureUrl.value == "")
    ensures r.Ok? <==> u.hasFile && u.secureUrl.Some? && u.secureUrl.value != ""
    ensures r.Ok? ==> r.value == u.secureUrl.value
  {
    if !u.hasFile then Fail(BAD_REQUEST, MISSING_FILE_MESSAGE)
    else if u.secureUrl.None? || u.secureUrl.value == "" then Fail(INTERNAL_SERVER_ERROR, UPLOAD_FAILED_MESSAGE)
    else Ok(u.secureUrl.value)
  }

  // ---------------------------------------------------------------------
  // `$set: { 'profile.<field>': value }`

  datatype ProfileUpdate =
    | SetCar(car: CarInfo)
    | SetBus(bus: BusInfo)
    | SetLocal(local: LocalInfo)
    | SetPayment(payment: PaymentDetails)
    | SetDocuments(documents: VehicleDocuments)
    | SetInspection(url: string)

  /** The profile a `$set` starts from: the stored one, or an empty one. */
  function BaseProfile(p: Option<Profile>): Profile {
    if p.Some? then p.value else EmptyProfile
  }

  function ApplyUpdate(p: Option<Profile>, u: ProfileUpdate): Profile {
    var b := BaseProfile(p);
    match u
    case SetCar(car) => b.(carPersonalInformation := Some(car))
    case SetBus(bus) => b.(busPersonalInformation := Some(bus))
    case SetLocal(local) => b.(localRidePersonalInformation := Some(local))
    case SetPayment(payment) => b.(paymentDetails := Some(payment))
    case SetDocuments(documents) => b.(vehicleDocuments := Some(documents))
    case SetInspection(url) => b.(inspectionUrl := Some(url))
  }

  /** A `$set` replaces the one sub-document it names and leaves every other
      part of the profile, the trips and routes included, as it was. */
  lemma SetTouchesOneSubDocument(p: Option<Profile>, u: ProfileUpdate)
    ensures var r := ApplyUpdate(p, u);
            var b := BaseProfile(p);
            && r.tripDetails == b.tripDetails && r.routeDetails == b.routeDetails
            && r.profilePhotoUrl == b.profilePhotoUrl
            && r.carPersonalInformation == (if u.SetCar? then Some(u.car) else b.carPersonalInformation)
            && r.busPersonalInformation == (if u.SetBus? then Some(u.bus) else b.busPersonalInformation)
            && r.localRidePersonalInformation == (if u.SetLocal? then Some(u.local) else b.localRidePersonalInformation)
            && r.paymentDetails == (if u.SetPayment? then Some(u.payment) else b.paymentDetails)
            && r.vehicleDocuments == (if u.SetDocuments? then Some(u.documents) else b.vehicleDocuments)
            && r.inspectionUrl == (if u.SetInspection? then Some(u.url) else b.inspectionUrl)
  {
  }

  /** `Driver.findByIdAndUpdate(id, { $set })`: 404 when no driver has the
      id; otherwise the first such driver gets the updated profile. */
  method SetProfile(db: Db, driverId: Id, u: ProfileUpdate) returns (r: Outcome<Driver>)
    requires db.Valid()
    modifies db`drivers
    ensures db.Valid()
    ensures var found := FindDriver(old(db.drivers), driverId);
            && (found.None? ==> r == Fail(NOT_FOUND, INVALID_DRIVER_MESSAGE) && db.drivers == old(db.drivers))
            && (found.Some? ==>
                  var d := old(db.drivers)[found.value];
                  && r == Ok(d.(profile := Some(ApplyUpdate(d.profile, u))))
                  && db.drivers == old(db.drivers)[found.value := r.value])
  {
    var found := FindDriver(db.drivers, driverId);
    if found.None? {
      return Fail(NOT_FOUND, INVALID_DRIVER_MESSAGE);
    }
    var i := found.value;
    var d := db.drivers[i].(profile := Some(ApplyUpdate(db.drivers[i].profile, u)));
    assert d.profile.value.tripDetails == BaseProfile(db.drivers[i].profile).tripDetails;
    TripIdsBelowReplace(db.drivers, i, d, db.nextId);
    db.drivers := db.drivers[i := d];
    r := Ok(d);
  }

  /** The personal-information routes: the `$set` on the driver, then the
      user's first and last name. 404 for a missing driver (nothing written)
      or a missing user (the driver's update stays written). */
  method UpdatePersonalInformation(db: Db, driverId: Id, u: ProfileUpdate, firstName: string, lastName: string)
    returns (r: Outcome<Driver>)
    requires db.Valid()
    modifies db`drivers, db`users
    ensures db.Valid()
    ensures var found := FindDriver(old(db.drivers), driverId);
            && (found.None? ==>
                  r == Fail(NOT_FOUND, INVALID_DRIVER_MESSAGE)
                  && db.drivers == old(db.drivers) && db.users == old(db.users))
            && (found.Some? ==>
                  var d := old(db.drivers)[found.value];
                  var updated := d.(profile := Some(ApplyUpdate(d.profile, u)));
                  var owner := FindUser(old(db.users), d.user);
                  && db.drivers == old(db.drivers)[found.value := updated]
                  && (owner.None? ==> r == Fail(NOT_FOUND, USER_NOT_FOUND_MESSAGE) && db.users == old(db.users))
                  && (owner.Some? ==>
                        && r == Ok(updated)
                        && db.users == old(db.users)[owner.value :=
                             old(db.users)[owner.value].(firstName := Some(firstName), lastName := Some(lastName))]))
  {
    var driver := SetProfile(db, driverId, u);
    if driver.Fail? {
      return driver;
    }
    var owner := FindUser(db.users, driver.value.user);
    if owner.None? {
      return Fail(NOT_FOUND, USER_NOT_FOUND_MESSAGE);
    }
    var j := owner.value;
    db.users := db.users[j := db.users[j].(firstName := Some(firstName), lastName := Some(lastName))];
    r := driver;
  }

  /** `PUT /bus/personal-information` and `PUT /local/personal-information`:
      the image check first (a failure writes nothing), then the update with
      the uploaded URL as the company logo or the profile photo. */
  method UpdateWithImage(db: Db, driverId: Id, upload: ImageUpload, isBus: bool, companyName: string,
                         localRideType: Id, firstName: string, lastName: string) returns (r: Outcome<Driver>)
    requires db.Valid()
    modifies db`drivers, db`users
    ensures db.Valid()
    ensures ValidateImageFile(upload).Fail? ==>
              && r == Fail(ValidateImageFile(upload).status, ValidateImageFile(upload).message)
              && db.drivers == old(db.drivers) && db.users == old(db.users)
    ensures ValidateImageFile(upload).Ok? ==>
              var url := ValidateImageFile(upload).value;
              var u := if isBus then SetBus(BusInfo(companyName, url)) else SetLocal(LocalInfo(url, localRideType));
              var found := FindDriver(old(db.drivers), driverId);
              && (found.None? ==>
                    r == Fail(NOT_FOUND, INVALID_DRIVER_MESSAGE)
                    && db.drivers == old(db.drivers) && db.users == old(db.users))
              && (found.Some? ==>
                    var d := old(db.drivers)[found.value];
                    var updated := d.(profile := Some(ApplyUpdate(d.profile, u)));
                    var owner := FindUser(old(db.users), d.user);
                    && db.drivers == old(db.drivers)[found.value := updated]
                    && (owner.None? ==> r == Fail(NOT_FOUND, USER_NOT_FOUND_MESSAGE) && db.users == old(db.users))
                    && (owner.Some? ==>
                          && r == Ok(updated)
                          && db.users == old(db.users)[owner.value :=
                               old(db.users)[owner.value].(firstName := Some(firstName), lastName := Some(lastName))]))
  {
    var validation := ValidateImageFile(upload);
    if validation.Fail? {
      return Fail(validation.status, validation.message);
    }
    var u := if isBus then SetBus(BusInfo(companyName, validation.value))
             else SetLocal(LocalInfo(validation.value, localRideType));
    r := UpdatePersonalInformation(db, driverId, u, firstName, lastName);
  }

  /** `PUT /vehicle-inspection`: the image check, then the inspection URL. */
  method UpdateVehicleInspection(db: Db, driverId: Id, upload: ImageUpload) returns (r: Outcome<Driver>)
    requires db.Valid()
    modifies db`drivers
    ensures db.Valid()
    ensures ValidateImageFile(upload).Fail? ==>
              r == Fail(ValidateImageFile(upload).status, ValidateImageFile(upload).message)
              && db.drivers == old(db.drivers)
    ensures ValidateImageFile(upload).Ok? ==>
              var found := FindDriver(old(db.drivers), driverId);
              && (found.None? ==> r == Fail(NOT_FOUND, INVALID_DRIVER_MESSAGE) && db.drivers == old(db.drivers))
              && (found.Some? ==>
                    var d := old(db.drivers)[found.value];
                    && r == Ok(d.(profile := Some(ApplyUpdate(d.profile, SetInspection(ValidateImageFile(upload).value)))))
                    && db.drivers == old(db.drivers)[found.value := r.value])
  {
    var validation := ValidateImageFile(upload);
    if validation.Fail? {
      return Fail(validation.status, validation.message);
    }
    r := SetProfile(db, driverId, SetInspection(validation.value));
  }

  // ---------------------------------------------------------------------
  // PUT /vehicle-documents

  datatype DocumentsResult =
    | DocumentsSaved(driver: Driver)
    | DocumentsRejected(status: nat, message: string)
    | DocumentsInvalid(issues: seq<Issue>)

  /** No files: 400. A field without a file: 400 with the schema's issues.
      Otherwise the uploaded URLs (an input) become the vehicle documents. */
  method UpdateVehicleDocuments(db: Db, driverId: Id, files: Option<DocumentFiles>, urls: VehicleDocuments)
    returns (r: DocumentsResult)
    requires db.Valid()
    modifies db`drivers
    ensures db.Valid()
    ensures files.None? ==> r == DocumentsRejected(BAD_REQUEST, MISSING_FILE_MESSAGE) && db.drivers == old(db.drivers)
    ensures files.Some? && ValidateVehicleDocuments(files.value) != [] ==>
              r == DocumentsInvalid(ValidateVehicleDocuments(files.value)) && db.drivers == old(db.drivers)
    ensures files.Some? && ValidateVehicleDocuments(files.value) == [] ==>
              var found := FindDriver(old(db.drivers), driverId);
              && (found.None? ==> r == DocumentsRejected(NOT_FOUND, INVALID_DRIVER_MESSAGE) && db.drivers == old(db.drivers))
              && (found.Some? ==>
                    var d := old(db.drivers)[found.value];
                    && r == DocumentsSaved(d.(profile := Some(ApplyUpdate(d.profile, SetDocuments(urls)))))
                    && db.drivers == old(db.drivers)[found.value := r.driver])
  {
    if files.None? {
      return DocumentsRejected(BAD_REQUEST, MISSING_FILE_MESSAGE);
    }
    var issues := ValidateVehicleDocuments(files.value);
    if issues != [] {
      return DocumentsInvalid(issues);
    }
    var driver := SetProfile(db, driverId, SetDocuments(urls));
    if driver.Fail? {
      return DocumentsRejected(driver.status, driver.message);
    }
    r := DocumentsSaved(driver.value);
  }

  // ---------------------------------------------------------------------
  // PUT /trip-details

  /** The comparison key of the duplicate check: lower-cased, then trimmed. */
  function Normalize(s: string): string {
    Trim(Lower(s))
  }

  /** Two trips are the same when origin and destination agree after
      normalising; cities, weekdays, times, price and bus are not compared. */
  predicate SameRoute(t: Trip, input: TripDetailsInput) {
    Normalize(t.origin) == Normalize(input.origin) && Normalize(t.destination) == Normalize(input.destination)
  }

  predicate HasSameRoute(trips: seq<Trip>, input: TripDetailsInput) {
    exists k :: 0 <= k < |trips| && SameRoute(trips[k], input)
  }

  /** `tripDetails.find(...)`: the first trip with the same route. */
  function FindSameRoute(trips: seq<Trip>, input: TripDetailsInput): (r: Option<nat>)
    ensures r.None? <==> !HasSameRoute(trips, input)
    ensures r.Some? ==> r.value < |trips| && SameRoute(trips[r.value], input)
  {
    if trips == [] then None
    else if SameRoute(trips[0], input) then Some(0)
    else
      var rest := FindSameRoute(trips[1..], input);
      assert forall k :: 1 <= k < |trips| ==> trips[k] == trips[1..][k - 1];
      match rest
      case None => None
      case Some(k) => Some(k + 1)
  }

  function DuplicateTripMessage(input: TripDetailsInput): string {
    "Matching trip with Origin: " + input.origin + " & Destination: " + input.destination + " already exists!"
  }

  /** The stored trip sub-document for a request body and a fresh id. */
  function TripOf(id: Id, input: TripDetailsInput): Trip {
    Trip(id, input.origin, input.destination, input.originCity, input.destinationCity, input.price,
         input.isRoundTrip, input.departureDates, input.departureTime, input.returnDates, input.returnTime,
         input.busType, input.busCapacity, input.airConditioning)
  }

  /** `tripDetails.push(trip)` on the stored profile, or a new profile
      holding only that trip. */
  function AppendTrip(p: Option<Profile>, trip: Trip): (r: Profile)
    ensures |r.tripDetails| == |BaseProfile(p).tripDetails| + 1
    ensures r.tripDetails[..|r.tripDetails| - 1] == BaseProfile(p).tripDetails
    ensures r.tripDetails[|r.tripDetails| - 1] == trip
    ensures p.None? ==> r == EmptyProfile.(tripDetails := [trip])
    ensures r.(tripDetails := BaseProfile(p).tripDetails) == BaseProfile(p)
  {
    var b := BaseProfile(p);
    var trips := b.tripDetails + [trip];
    assert trips[..|trips| - 1] == b.tripDetails;
    b.(tripDetails := trips)
  }

  /** Once a request's trip is stored, the same request is a duplicate. */
  lemma AddedTripIsDuplicate(p: Option<Profile>, id: Id, input: TripDetailsInput)
    ensures HasSameRoute(AppendTrip(p, TripOf(id, input)).tripDetails, input)
  {
    var trips := AppendTrip(p, TripOf(id, input)).tripDetails;
    assert SameRoute(trips[|trips| - 1], input);
  }

  /** `PUT /trip-details`: 404 for an unknown driver; 400, with the driver
      unchanged, when a stored trip has the same route; otherwise the trip,
      with a fresh id, is appended to the driver's profile. */
  method AddTripDetails(db: Db, driverId: Id, input: TripDetailsInput) returns (r: Outcome<Driver>)
    requires db.Valid()
    modifies db`drivers, db`nextId
    ensures db.Valid()
    ensures var found := FindDriver(old(db.drivers), driverId);
            && (found.None? ==> r == Fail(NOT_FOUND, INVALID_DRIVER_MESSAGE) && db.drivers == old(db.drivers))
            && (found.Some? ==>
                  var d := old(db.drivers)[found.value];
                  && (d.profile.Some? && HasSameRoute(d.profile.value.tripDetails, input) ==>
                        r == Fail(BAD_REQUEST, DuplicateTripMessage(input)) && db.drivers == old(db.drivers))
                  && (d.profile.None? || !HasSameRoute(d.profile.value.tripDetails, input) ==>
                        && r == Ok(d.(profile := Some(AppendTrip(d.profile, TripOf(old(db.nextId), input)))))
                        && db.drivers == old(db.drivers)[found.value := r.value]))
  {
    var found := FindDriver(db.drivers, driverId);
    if found.None? {
      return Fail(NOT_FOUND, INVALID_DRIVER_MESSAGE);
    }
    var i := found.value;
    var driver := db.drivers[i];
    if driver.profile.Some? {
      var tripMatch := FindSameRoute(driver.profile.value.tripDetails, input);
      if tripMatch.Some? {
        return Fail(BAD_REQUEST, DuplicateTripMessage(input));
      }
    }
    var id := db.NewId();
    driver := driver.(profile := Some(AppendTrip(driver.profile, TripOf(id, input))));
    TripIdsBelowReplace(db.drivers, i, driver, db.nextId);
    db.drivers := db.drivers[i := driver];
    r := Ok(driver);
  }

  // ---------------------------------------------------------------------
  // PUT /route-details

  /** `$push` of `{ route, price }` onto the route list, which it creates
      when missing; no duplicate check, and no view count (it sums as 0). */
  function PushRoute(p: Option<Profile>, route: string, price: real): (r: Profile)
    ensures r.routeDetails.Some?
    ensures |r.routeDetails.value| >= 1
    ensures r.routeDetails.value[|r.routeDetails.value| - 1] == RouteDetail(route, price, 0)
    ensures r.routeDetails.value[..|r.routeDetails.value| - 1] ==
              (if p.Some? && p.value.routeDetails.Some? then p.value.routeDetails.value else [])
    ensures r.tripDetails == BaseProfile(p).tripDetails
    ensures r.(routeDetails := BaseProfile(p).routeDetails) == BaseProfile(p)
  {
    var b := BaseProfile(p);
    var routes := if b.routeDetails.Some? then b.routeDetails.value else [];
    var pushed := routes + [RouteDetail(route, price, 0)];
    assert pushed[..|pushed| - 1] == routes;
    b.(routeDetails := Some(pushed))
  }

  /** Pushing the same route twice stores it twice. */
  lemma PushRouteTwiceKeepsBoth(p: Option<Profile>, route: string, price: real)
    ensures var twice := PushRoute(Some(PushRoute(p, route, price)), route, price).routeDetails.value;
            |twice| >= 2 && twice[|twice| - 1] == twice[|twice| - 2] == RouteDetail(route, price, 0)
  {
    var once := PushRoute(p, route, price).routeDetails.value;
    var twice := PushRoute(Some(PushRoute(p, route, price)), route, price).routeDetails.value;
    assert twice[..|twice| - 1] == once;
    assert twice[|twice| - 2] == once[|once| - 1];
  }

  /** `PUT /route-details`: 404 for an unknown driver; otherwise the route is
      pushed onto that driver's profile. */
  method AddRouteDetails(db: Db, driverId: Id, route: string, price: real) returns (r: Outcome<Driver>)
    requires db.Valid()
    modifies db`drivers
    ensures db.Valid()
    ensures var found := FindDriver(old(db.drivers), driverId);
            && (found.None? ==> r == Fail(NOT_FOUND, INVALID_DRIVER_MESSAGE) && db.drivers == old(db.drivers))
            && (found.Some? ==>
                  var d := old(db.drivers)[found.value];
                  && r == Ok(d.(profile := Some(PushRoute(d.profile, route, price))))
                  && db.drivers == old(db.drivers)[found.value := r.value])
  {
    var found := FindDriver(db.drivers, driverId);
    if found.None? {
      return Fail(NOT_FOUND, INVALID_DRIVER_MESSAGE);
    }
    var i := found.value;
    var d := db.drivers[i].(profile := Some(PushRoute(db.drivers[i].profile, route, price)));
    TripIdsBelowReplace(db.drivers, i, d, db.nextId);
    db.drivers := db.drivers[i := d];
    r := Ok(d);
  }
}
