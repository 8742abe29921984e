/** The request-body rules of src/models/user/types.ts, as predicates over
    already-typed inputs. A validator returns the list of failed field rules
    in the schema's field order; the body is accepted exactly when that list
    is empty. A rule with a custom message carries it; a rule that uses the
    library's default wording carries None. Checks that call into other
    libraries (e-mail syntax, Nigerian phone numbers, ObjectId syntax) are
    not part of this model. */
module Validators {
  import opened Common
  import opened Constants

  datatype Issue = Issue(field: string, message: Option<string>)

  /** The issue list of one rule: empty when it holds. */
  function Check(holds: bool, field: string, message: Option<string>): (r: seq<Issue>)
    ensures holds <==> r == []
    ensures !holds ==> r == [Issue(field, message)]
  {
    if holds then [] else [Issue(field, message)]
  }

  // ---------------------------------------------------------------------
  // carPersonalInformationSchema

  datatype CarPersonalInformationInput = CarPersonalInformationInput(
    firstName: string,
    lastName: string,
    gender: string,
    isVehicleOwner: bool,
    numberOfSeats: int,
    vehicleManufacturer: string,
    vehicleYear: int,
    vehicleColor: string,
    vehicleLicensePlate: string)

  const SEATS_MESSAGE: string := "Car capacity must be at least 2. The driver and passenger"
  const YEAR_MESSAGE: string := "Vehicle must be at least 1990 model"
  const PLATE_MESSAGE: string := "License plate must be exactly 6 characters"

  /** A car is accepted when its gender is one of the options, it seats at
      least two, it is a 1990 model or newer and its plate has exactly six
      characters; each failed rule is reported under its own field. */
  function ValidateCarPersonalInformation(b: CarPersonalInformationInput): (r: seq<Issue>)
    ensures r == [] <==>
              && b.gender in GENDER_OPTIONS
              && b.numberOfSeats >= 2
              && b.vehicleYear >= MIN_CAR_YEAR
              && |b.vehicleLicensePlate| == 6
    ensures Issue("numberOfSeats", Some(SEATS_MESSAGE)) in r <==> b.numberOfSeats < 2
    ensures Issue("vehicleYear", Some(YEAR_MESSAGE)) in r <==> b.vehicleYear < MIN_CAR_YEAR
    ensures Issue("vehicleLicensePlate", Some(PLATE_MESSAGE)) in r <==> |b.vehicleLicensePlate| != 6
    ensures Issue("gender", None) in r <==> b.gender !in GENDER_OPTIONS
    ensures |r| <= 4
  {
    Check(b.gender in GENDER_OPTIONS, "gender", None)
    + Check(b.numberOfSeats >= 2, "numberOfSeats", Some(SEATS_MESSAGE))
    + Check(b.vehicleYear >= MIN_CAR_YEAR, "vehicleYear", Some(YEAR_MESSAGE))
    + Check(|b.vehicleLicensePlate| == 6, "vehicleLicensePlate", Some(PLATE_MESSAGE))
  }

  // ---------------------------------------------------------------------
  // paymentDetailsSchema

  datatype PaymentDetailsInput = PaymentDetailsInput(
    billingType: string, address: string, accountName: string, accountNumber: string, bankName: string)

  const ACCOUNT_NUMBER_MESSAGE: string := "Account number must be 10 digits"

  /** The account number must have exactly ten characters (the rule counts
      characters; it does not check that they are digits). */
  function ValidatePaymentDetails(b: PaymentDetailsInput): (r: seq<Issue>)
    ensures r == [] <==> |b.accountNumber| == 10
    ensures r != [] ==> r == [Issue("accountNumber", Some(ACCOUNT_NUMBER_MESSAGE))]
  {
    Check(|b.accountNumber| == 10, "accountNumber", Some(ACCOUNT_NUMBER_MESSAGE))
  }

  // ---------------------------------------------------------------------
  // tripDetailsSchema and routeDetailsSchema

  datatype TripDetailsInput = TripDetailsInput(
    origin: string,
    destination: string,
    originCity: string,
    destinationCity: string,
    price: real,
    isRoundTrip: bool,
    departureDates: seq<int>,
    departureTime: string,
    returnDates: seq<int>,
    returnTime: string,
    busType: string,
    busCapacity: int,
    airConditioning: bool)

  const DEPARTURE_DATES_MESSAGE: string := "At least one departure date required"
  const RETURN_DATES_MESSAGE: string := "At least one return date required"

  /** A trip needs a positive price and at least one departure and one return
      weekday; nothing else is constrained (not even the bus capacity). */
  function ValidateTripDetails(b: TripDetailsInput): (r: seq<Issue>)
    ensures r == [] <==> b.price > 0.0 && |b.departureDates| >= 1 && |b.returnDates| >= 1
    ensures Issue("price", None) in r <==> b.price <= 0.0
    ensures Issue("departureDates", Some(DEPARTURE_DATES_MESSAGE)) in r <==> b.departureDates == []
    ensures Issue("returnDates", Some(RETURN_DATES_MESSAGE)) in r <==> b.returnDates == []
  {
    Check(b.price > 0.0, "price", None)
    + Check(|b.departureDates| >= 1, "departureDates", Some(DEPARTURE_DATES_MESSAGE))
    + Check(|b.returnDates| >= 1, "returnDates", Some(RETURN_DATES_MESSAGE))
  }

  /** A route needs a positive price; the route text itself is free. */
  function ValidateRouteDetails(price: real, route: string): (r: seq<Issue>)
    ensures r == [] <==> price > 0.0
    ensures r != [] ==> r == [Issue("price", None)]
  {
    Check(price > 0.0, "price", None)
  }

  // ---------------------------------------------------------------------
  // Registration and profile update

  const CITY_MESSAGE: string := "City must be at least one character long"
  const PASSWORD_MESSAGE: string :=
    "Password must have at least 1 uppercase letter, 1 lowercase letter, 1 special character, 1 numeric character, and be at least 8 characters long."
  const FULL_NAME_MESSAGE: string := "Full name must be at least 3 characters"
  const LAST_NAME_MESSAGE: string := "Last name must be at least 3 characters"

  /** Driver registration: a non-empty city and a password the pattern
      accepts. */
  function ValidateDriverRegistration(city: string, password: string): (r: seq<Issue>)
    ensures r == [] <==> |city| >= 1 && MatchesPasswordPattern(password)
    ensures Issue("password", Some(PASSWORD_MESSAGE)) in r <==> !MatchesPasswordPattern(password)
    ensures Issue("city", Some(CITY_MESSAGE)) in r <==> city == []
  {
    PasswordCheckMatchesPattern(password);
    Check(|city| >= 1, "city", Some(CITY_MESSAGE))
    + Check(AcceptsPassword(password), "password", Some(PASSWORD_MESSAGE))
  }

  /** User registration: a name of at least three characters and a password
      the pattern accepts. */
  function ValidateUserRegistration(name: string, password: string): (r: seq<Issue>)
    ensures r == [] <==> |name| >= 3 && MatchesPasswordPattern(password)
    ensures Issue("name", Some(FULL_NAME_MESSAGE)) in r <==> |name| < 3
    ensures Issue("password", Some(PASSWORD_MESSAGE)) in r <==> !MatchesPasswordPattern(password)
  {
    PasswordCheckMatchesPattern(password);
    Check(|name| >= 3, "name", Some(FULL_NAME_MESSAGE))
    + Check(AcceptsPassword(password), "password", Some(PASSWORD_MESSAGE))
  }

  /** Profile update: both names need three characters. The first-name rule
      reports the last-name wording, as the schema has it. */
  function ValidateUserUpdate(firstName: string, lastName: string): (r: seq<Issue>)
    ensures r == [] <==> |firstName| >= 3 && |lastName| >= 3
    ensures Issue("firstName", Some(LAST_NAME_MESSAGE)) in r <==> |firstName| < 3
    ensures Issue("lastName", Some(LAST_NAME_MESSAGE)) in r <==> |lastName| < 3
  {
    Check(|firstName| >= 3, "firstName", Some(LAST_NAME_MESSAGE))
    + Check(|lastName| >= 3, "lastName", Some(LAST_NAME_MESSAGE))
  }

  // ---------------------------------------------------------------------
  // vehicleDocumentsSchema: nine file lists, each with at least one file

  /** The uploaded files by field. The upload middleware adds a field only
      when a file arrives for it, so a field without a file is absent (None). */
  datatype DocumentFiles = DocumentFiles(
    license: Option<seq<string>>, display: Option<seq<string>>, interior: Option<seq<string>>,
    exterior: Option<seq<string>>, ownership: Option<seq<string>>, roadWorthiness: Option<seq<string>>,
    insurance: Option<seq<string>>, lasrra: Option<seq<string>>, lasdri: Option<seq<string>>)

  const DOCUMENT_FIELDS: seq<string> :=
    ["license", "display", "interior", "exterior", "ownership", "roadWorthiness", "insurance", "lasrra", "lasdri"]

  /** The nine fields in field order. */
  function FileLists(f: DocumentFiles): (r: seq<Option<seq<string>>>)
    ensures |r| == |DOCUMENT_FIELDS|
  {
    [f.license, f.display, f.interior, f.exterior, f.ownership, f.roadWorthiness, f.insurance, f.lasrra, f.lasdri]
  }

  const DOCUMENT_MESSAGES: seq<string> := [
    "License must be at least 1 photo",
    "Display photo must be at least 1 photo",
    "Interior must be at least 1 photo",
    "Exterior must be at least 1 photo",
    "Proof of ownership must be at least 1 photo",
    "Road worthiness must be at least 1 photo",
    "Insurance must be at least 1 photo",
    "Lasrra must be at least 1 photo",
    "Lasdri must be at least 1 photo"
  ]

  /** A field passes when it is present with at least one file. */
  predicate HasFile(list: Option<seq<string>>) {
    list.Some? && list.value != []
  }

  /** The wording of a failing field: the library's default ("Required") for
      an absent field, the field's own message for an empty list. */
  function FileMessage(list: Option<seq<string>>, message: string): Option<string> {
    if list.None? then None else Some(message)
  }

  /** The issues of the fields from position `k` on: one, with that field's
      name and wording, for each field without a file. */
  function DocumentIssues(lists: seq<Option<seq<string>>>, names: seq<string>, messages: seq<string>, k: nat)
    : (r: seq<Issue>)
    requires |names| == |lists| && |messages| == |lists| && k <= |lists|
    ensures r == [] <==> forall j :: k <= j < |lists| ==> HasFile(lists[j])
    ensures forall j :: k <= j < |lists| && !HasFile(lists[j]) ==> Issue(names[j], FileMessage(lists[j], messages[j])) in r
    ensures forall i :: 0 <= i < |r| ==>
              exists j :: k <= j < |lists| && !HasFile(lists[j]) && r[i] == Issue(names[j], FileMessage(lists[j], messages[j]))
    decreases |lists| - k
  {
    if k == |lists| then []
    else
      var head := Check(HasFile(lists[k]), names[k], FileMessage(lists[k], messages[k]));
      var rest := DocumentIssues(lists, names, messages, k + 1);
      var r := head + rest;
      assert forall i :: 0 <= i < |r| ==>
               exists j :: k <= j < |lists| && !HasFile(lists[j]) && r[i] == Issue(names[j], FileMessage(lists[j], messages[j])) by {
        forall i | 0 <= i < |r|
          ensures exists j :: k <= j < |lists| && !HasFile(lists[j]) && r[i] == Issue(names[j], FileMessage(lists[j], messages[j]))
        {
          if i < |head| {
            assert r[i] == Issue(names[k], FileMessage(lists[k], messages[k]));
          } else {
            assert r[i] == rest[i - |head|];
          }
        }
      }
      r
  }

  /** The documents are accepted exactly when every one of the nine fields
      has a file. An absent field is reported with the default wording, an
      empty one with its own message. */
  function ValidateVehicleDocuments(f: DocumentFiles): (r: seq<Issue>)
    ensures r == [] <==> forall j :: 0 <= j < |DOCUMENT_FIELDS| ==> HasFile(FileLists(f)[j])
    ensures forall j :: 0 <= j < |DOCUMENT_FIELDS| && FileLists(f)[j].None? ==>
              Issue(DOCUMENT_FIELDS[j], None) in r
    ensures forall j :: 0 <= j < |DOCUMENT_FIELDS| && FileLists(f)[j] == Some([]) ==>
              Issue(DOCUMENT_FIELDS[j], Some(DOCUMENT_MESSAGES[j])) in r
    ensures forall i :: 0 <= i < |r| ==>
              exists j :: 0 <= j < |DOCUMENT_FIELDS| && !HasFile(FileLists(f)[j])
                          && r[i] == Issue(DOCUMENT_FIELDS[j], FileMessage(FileLists(f)[j], DOCUMENT_MESSAGES[j]))
  {
    DocumentIssues(FileLists(f), DOCUMENT_FIELDS, DOCUMENT_MESSAGES, 0)
  }

  /** A request whose only missing field is the license gets the default
      wording for it, not the license message. */
  lemma MissingLicenseExample(photo: seq<string>)
    requires photo != []
    ensures var p := Some(photo);
            ValidateVehicleDocuments(DocumentFiles(None, p, p, p, p, p, p, p, p)) == [Issue("license", None)]
  {
    var p := Some(photo);
    var f := DocumentFiles(None, p, p, p, p, p, p, p, p);
    var lists := FileLists(f);
    assert DocumentIssues(lists, DOCUMENT_FIELDS, DOCUMENT_MESSAGES, 1) == [] by {
      assert forall j :: 1 <= j < |lists| ==> HasFile(lists[j]);
    }
  }

  // ---------------------------------------------------------------------
  // locationCoordinatesSchema: two numbers, no range check

  /** Any latitude and longitude pass, even ones outside the globe. */
  function ValidateCoordinates(latitude: real, longitude: real): (r: seq<Issue>)
    ensures r == []
  {
    []
  }
}
