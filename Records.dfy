/** The stored records (the schema.ts files under src/models and the interfaces of
    src/models/user/types.ts), as plain values. A field that a document may
    lack is an Option; the profile's sub-documents are all optional, because
    each is written by a different profile route. */
module Records {
  import opened Common

  /** `{ latitude, longitude }`, as the location-update route writes it. */
  datatype Coordinates = Coordinates(latitude: real, longitude: real)

  /** The GeoJSON point `{ type: 'Point', coordinates: [longitude, latitude] }`. */
  datatype GeoPoint = GeoPoint(longitude: real, latitude: real)

  datatype User = User(
    id: Id,
    firstName: Option<string>,
    lastName: Option<string>,
    email: string,
    phoneNumber: Option<string>,
    city: Option<string>,
    passwordHash: string,
    deviceToken: Option<string>,
    rating: Option<real>,
    coords: Option<Coordinates>,
    location: Option<GeoPoint>)

  datatype CarInfo = CarInfo(
    gender: string,
    isVehicleOwner: bool,
    vehicleManufacturer: string,
    numberOfSeats: int,
    vehicleYear: int,
    vehicleColor: string,
    vehicleLicensePlate: string)

  datatype BusInfo = BusInfo(companyName: string, companyLogo: string)

  datatype LocalInfo = LocalInfo(profilePhotoUrl: string, localRideType: Id)

  datatype PaymentDetails = PaymentDetails(
    billingType: string, address: string, accountName: string, accountNumber: string, bankName: string)

  /** One uploaded file URL per document. */
  datatype VehicleDocuments = VehicleDocuments(
    license: string, display: string, interior: string, exterior: string, ownership: string,
    roadWorthiness: string, insurance: string, lasrra: string, lasdri: string)

  /** A bus trip template: a weekly schedule (weekdays 0 = Sunday .. 6) for one
      origin and destination. `id` is the sub-document's `_id`, the ticket id. */
  datatype Trip = Trip(
    id: Id,
    origin: string,
    destination: string,
    originCity: string,
    destinationCity: string,
    price: real,
    isRoundTrip: bool,
    departureDates: seq<int>,
    departureTime: string,
    returnDates: seq<int>,
    returnTime: string,
    busType: string,
    busCapacity: int,
    airConditioning: bool)

  /** A local-ride route. `views` is the counter the popular-locations query
      sums; a route pushed without one contributes 0 to that sum. */
  datatype RouteDetail = RouteDetail(route: string, price: real, views: int)

  datatype Profile = Profile(
    carPersonalInformation: Option<CarInfo>,
    busPersonalInformation: Option<BusInfo>,
    localRidePersonalInformation: Option<LocalInfo>,
    paymentDetails: Option<PaymentDetails>,
    vehicleDocuments: Option<VehicleDocuments>,
    tripDetails: seq<Trip>,
    routeDetails: Option<seq<RouteDetail>>,
    inspectionUrl: Option<string>,
    profilePhotoUrl: Option<string>)

  /** A profile holding nothing yet (what a `$set` starts from). */
  const EmptyProfile: Profile := Profile(None, None, None, None, None, [], None, None, None)

  datatype Driver = Driver(id: Id, user: Id, service: Id, profile: Option<Profile>)

  datatype Service = Service(id: Id, code: string, image: string)

  datatype RideType = RideType(id: Id, name: string)

  datatype Review = Review(id: Id, userId: Id)

  datatype Address = Address(address: string, latitude: real, longitude: real)

  datatype PaymentStatus = PaymentPending | PaymentSuccess | PaymentFailed

  datatype RideStatus = RidePending | RideStarted | RideEnded | RideCanceled

  /** A calendar day (days since 1970-01-01) and the clock time given with it. */
  datatype Instant = Instant(day: int, time: string)

  /** A price field as the aggregation pipelines produce it: a number, the
      array of numbers a path through an array yields, a whole trip
      sub-document, or nothing. */
  datatype PriceValue = NoPrice | Amount(amount: real) | PriceList(amounts: seq<real>) | TripElement(trip: Trip)

  /** A booking in the Ride ledger. Bus bookings carry `busTripId` and the
      `seatNumbers` the booking route writes. */
  datatype Ride = Ride(
    id: Id,
    driver: Id,
    user: Id,
    from: Address,
    to: Address,
    paymentStatus: PaymentStatus,
    rideStatus: RideStatus,
    busTripId: Option<Id>,
    departureDate: Instant,
    seatNumbers: seq<int>,
    price: PriceValue)

  datatype Notification = Notification(
    id: Id, userId: Id, title: string, body: string, isRead: bool, createdAt: int)

  // ---------------------------------------------------------------------
  // findById over a collection: the position of the first record with an id

  function FindUser(users: seq<User>, id: Id): (r: Option<nat>)
    ensures r.Some? ==> r.value < |users| && users[r.value].id == id
                        && forall k :: 0 <= k < r.value ==> users[k].id != id
    ensures r.None? <==> forall k :: 0 <= k < |users| ==> users[k].id != id
  {
    if users == [] then None
    else if users[0].id == id then Some(0)
    else match FindUser(users[1..], id)
      case None => None
      case Some(k) => Some(k + 1)
  }

  function FindDriver(drivers: seq<Driver>, id: Id): (r: Option<nat>)
    ensures r.Some? ==> r.value < |drivers| && drivers[r.value].id == id
                        && forall k :: 0 <= k < r.value ==> drivers[k].id != id
    ensures r.None? <==> forall k :: 0 <= k < |drivers| ==> drivers[k].id != id
  {
    if drivers == [] then None
    else if drivers[0].id == id then Some(0)
    else match FindDriver(drivers[1..], id)
      case None => None
      case Some(k) => Some(k + 1)
  }
}
