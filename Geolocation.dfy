/** Nearby-driver selection (src/routes/geolocation.ts). Each aggregation
    pipeline is a function over the stored collections:

      $geoNear            the users with a location within the radius; the
                          distance of a point from the centre is a parameter
      $lookup + $unwind   one row per matching driver, joined to its service
                          (and, for local riders, to its ride type)
      $match              a filter predicate
      $sort -1, $limit 10 the Sorting module
      $project            a projection function

    The Google distance-matrix answer that `getDriverTimeToLocation` reads is
    an input as well. */
module Geolocation {
  import opened Common
  import opened Records
  import opened Sorting

  const CAR_RADIUS_METERS: real := 5000.0
  const LOCAL_RADIUS_METERS: real := 5000000.0
  const DISTANCE_MULTIPLIER: real := 0.001
  const NEARBY_LIMIT: nat := 10

  /** The distance in meters between a search centre and a stored point. */
  type Distance = (Coordinates, GeoPoint) -> real

  // ---------------------------------------------------------------------
  // $geoNear

  /** A user the geo search returned, with its point and distance in meters. */
  datatype Near = Near(user: User, point: GeoPoint, meters: real)

  function GeoNear(users: seq<User>, centre: Coordinates, dist: Distance, maxMeters: real): (r: seq<Near>)
    ensures forall n :: n in r <==>
              n.user in users && n.user.location == Some(n.point)
              && n.meters == dist(centre, n.point) && n.meters <= maxMeters
  {
    if users == [] then []
    else
      var u := users[0];
      (if u.location.Some? && dist(centre, u.location.value) <= maxMeters
       then [Near(u, u.location.value, dist(centre, u.location.value))] else [])
      + GeoNear(users[1..], centre, dist, maxMeters)
  }

  // ---------------------------------------------------------------------
  // $lookup on `_id`: ids are unique, so at most one record matches

  function ServiceById(services: seq<Service>, id: Id): (r: Option<Service>)
    ensures r.Some? ==> r.value in services && r.value.id == id
    ensures r.None? <==> forall s :: s in services ==> s.id != id
  {
    if services == [] then None
    else if services[0].id == id then Some(services[0])
    else ServiceById(services[1..], id)
  }

  function RideTypeById(rideTypes: seq<RideType>, id: Id): (r: Option<RideType>)
    ensures r.Some? ==> r.value in rideTypes && r.value.id == id
    ensures r.None? <==> forall t :: t in rideTypes ==> t.id != id
  {
    if rideTypes == [] then None
    else if rideTypes[0].id == id then Some(rideTypes[0])
    else RideTypeById(rideTypes[1..], id)
  }

  // ---------------------------------------------------------------------
  // Car candidates: users -> drivers (by `user`) -> service

  datatype Candidate = Candidate(near: Near, driver: Driver, service: Service)

  predicate Joined(c: Candidate, drivers: seq<Driver>, services: seq<Service>) {
    c.driver in drivers && c.driver.user == c.near.user.id
    && ServiceById(services, c.driver.service) == Some(c.service)
  }

  /** The rows one geo result contributes: one per driver of that user whose
      service exists (the second `$unwind` drops the others). */
  function DriverRows(n: Near, drivers: seq<Driver>, services: seq<Service>): seq<Candidate>
  {
    if drivers == [] then []
    else
      var d := drivers[0];
      var s := ServiceById(services, d.service);
      (if d.user == n.user.id && s.Some? then [Candidate(n, d, s.value)] else [])
      + DriverRows(n, drivers[1..], services)
  }

  function JoinDrivers(near: seq<Near>, drivers: seq<Driver>, services: seq<Service>): seq<Candidate>
  {
    if near == [] then []
    else DriverRows(near[0], drivers, services) + JoinDrivers(near[1..], drivers, services)
  }

  lemma {:induction false} DriverRowsMembers(n: Near, drivers: seq<Driver>, services: seq<Service>, c: Candidate)
    ensures c in DriverRows(n, drivers, services) <==> c.near == n && Joined(c, drivers, services)
  {
    if drivers != [] {
      DriverRowsMembers(n, drivers[1..], services, c);
      assert drivers == [drivers[0]] + drivers[1..];
    }
  }

  /** The joined rows are exactly the (geo result, driver of that user,
      driver's service) triples. */
  lemma {:induction false} JoinDriversMembers(near: seq<Near>, drivers: seq<Driver>, services: seq<Service>, c: Candidate)
    ensures c in JoinDrivers(near, drivers, services) <==> c.near in near && Joined(c, drivers, services)
  {
    if near != [] {
      DriverRowsMembers(near[0], drivers, services, c);
      JoinDriversMembers(near[1..], drivers, services, c);
      assert near == [near[0]] + near[1..];
    }
  }

  /** The `/nearby-riders` filter: the driver has a profile holding car
      information. */
  predicate PassesCarFilter(c: Candidate) {
    c.driver.profile.Some? && c.driver.profile.value.carPersonalInformation.Some?
  }

  function CandidateMeters(c: Candidate): real { c.near.meters }

  /** The candidates that pass the filter, before sorting. */
  function CarCandidates(users: seq<User>, drivers: seq<Driver>, services: seq<Service>,
                         centre: Coordinates, dist: Distance): seq<Candidate>
  {
    Filter(JoinDrivers(GeoNear(users, centre, dist, CAR_RADIUS_METERS), drivers, services), PassesCarFilter)
  }

  /** Who enters the car selection: a user with a location within 5,000 m of
      the centre, one of that user's drivers whose service exists, and a
      profile with car information. */
  lemma CarCandidatesAre(users: seq<User>, drivers: seq<Driver>, services: seq<Service>,
                         centre: Coordinates, dist: Distance, c: Candidate)
    ensures c in CarCandidates(users, drivers, services, centre, dist) <==>
              && c.near.user in users && c.near.user.location == Some(c.near.point)
              && c.near.meters == dist(centre, c.near.point) && c.near.meters <= CAR_RADIUS_METERS
              && Joined(c, drivers, services)
              && c.driver.profile.Some? && c.driver.profile.value.carPersonalInformation.Some?
  {
    JoinDriversMembers(GeoNear(users, centre, dist, CAR_RADIUS_METERS), drivers, services, c);
  }

  /** `$sort` by distance descending and `$limit` 10. */
  function TopCars(cands: seq<Candidate>): seq<Candidate> {
    Take(SortDesc(cands, CandidateMeters), NEARBY_LIMIT)
  }

  // ---------------------------------------------------------------------
  // The price and image chains of `/nearby-riders` and `getDriversForTrip`

  /** The first trip with the lowest price (`$sortArray` by price, element 0). */
  function CheapestTrip(trips: seq<Trip>): (t: Trip)
    requires trips != []
    ensures t in trips
    ensures forall k :: 0 <= k < |trips| ==> t.price <= trips[k].price
  {
    if |trips| == 1 then trips[0]
    else
      var rest := CheapestTrip(trips[1..]);
      if trips[0].price <= rest.price then trips[0] else rest
  }

  function RoutePrices(routes: seq<RouteDetail>): (r: seq<real>)
    ensures |r| == |routes|
    ensures forall k :: 0 <= k < |routes| ==> r[k] == routes[k].price
  {
    seq(|routes|, k requires 0 <= k < |routes| => routes[k].price)
  }

  /** `$ifNull` of the route prices, the cheapest trip and 0. A present route
      list, even an empty one, is not null, so it wins; an empty trip list has
      no element 0, so it falls through to 0. */
  function CarPrice(p: Option<Profile>): (r: PriceValue)
    ensures p.Some? && p.value.routeDetails.Some? ==> r == PriceList(RoutePrices(p.value.routeDetails.value))
    ensures p.Some? && p.value.routeDetails.None? && p.value.tripDetails != [] ==>
              r.TripElement? && r.trip in p.value.tripDetails
              && forall t :: t in p.value.tripDetails ==> r.trip.price <= t.price
    ensures (p.None? || (p.value.routeDetails.None? && p.value.tripDetails == [])) ==> r == Amount(0.0)
  {
    if p.None? then Amount(0.0)
    else if p.value.routeDetails.Some? then PriceList(RoutePrices(p.value.routeDetails.value))
    else if p.value.tripDetails != [] then TripElement(CheapestTrip(p.value.tripDetails))
    else Amount(0.0)
  }

  /** `$driverDetails.profile.vehicleDocuments.display`. */
  function DisplayImage(p: Option<Profile>): (r: Option<string>)
    ensures r.Some? <==> p.Some? && p.value.vehicleDocuments.Some?
    ensures r.Some? ==> r.value == p.value.vehicleDocuments.value.display
  {
    if p.Some? && p.value.vehicleDocuments.Some? then Some(p.value.vehicleDocuments.value.display) else None
  }

  /** The rider-facing row of the car searches. `id` is the driver's id;
      `distance` is in kilometres. */
  datatype RiderForMap = RiderForMap(
    id: Id,
    firstName: Option<string>,
    lastName: Option<string>,
    rating: Option<real>,
    serviceDisplayImage: string,
    price: PriceValue,
    profileDisplayImage: Option<string>,
    longitude: real,
    latitude: real,
    distance: real)

  function ProjectCar(c: Candidate): RiderForMap {
    RiderForMap(c.driver.id, c.near.user.firstName, c.near.user.lastName, c.near.user.rating,
                c.service.image, CarPrice(c.driver.profile), DisplayImage(c.driver.profile),
                c.near.point.longitude, c.near.point.latitude, c.near.meters * DISTANCE_MULTIPLIER)
  }

  /** The sort, limit and projection stages over the passing candidates. */
  function SelectCars(cands: seq<Candidate>): seq<RiderForMap> {
    MapSeq(TopCars(cands), ProjectCar)
  }

  /** `getDriversWithinLocation` with the `/nearby-riders` filter and
      projection. */
  function NearbyCars(users: seq<User>, drivers: seq<Driver>, services: seq<Service>,
                      centre: Coordinates, dist: Distance): seq<RiderForMap>
  {
    SelectCars(CarCandidates(users, drivers, services, centre, dist))
  }

  function RiderDistance(r: RiderForMap): real { r.distance }

  lemma ScaledDistanceOrder(a: real, b: real)
    requires a >= b
    ensures a * DISTANCE_MULTIPLIER >= b * DISTANCE_MULTIPLIER
  {
  }

  /** At most ten rows, and exactly ten when there are that many
      candidates. */
  lemma SelectCarsAtMostTen(cands: seq<Candidate>)
    ensures |SelectCars(cands)| <= NEARBY_LIMIT
    ensures |cands| >= NEARBY_LIMIT ==> |SelectCars(cands)| == NEARBY_LIMIT
  {
    TopLength(cands, CandidateMeters, NEARBY_LIMIT);
  }

  /** Every row is the projection of a candidate. */
  lemma SelectCarsFromCandidates(cands: seq<Candidate>)
    ensures forall i :: 0 <= i < |SelectCars(cands)| ==> exists c :: c in cands && SelectCars(cands)[i] == ProjectCar(c)
  {
    var top := TopCars(cands);
    var r := SelectCars(cands);
    TopFromInput(cands, CandidateMeters, NEARBY_LIMIT);
    forall i | 0 <= i < |r|
      ensures exists c :: c in cands && r[i] == ProjectCar(c)
    {
      assert top[i] in multiset(cands);
    }
  }

  /** The rows are ordered by distance, farthest first. */
  lemma SelectCarsFarthestFirst(cands: seq<Candidate>)
    ensures SortedDesc(SelectCars(cands), RiderDistance)
  {
    var top := TopCars(cands);
    var r := SelectCars(cands);
    TopSorted(cands, CandidateMeters, NEARBY_LIMIT);
    forall i, j | 0 <= i < j < |r|
      ensures RiderDistance(r[i]) >= RiderDistance(r[j])
    {
      ScaledDistanceOrder(top[i].near.meters, top[j].near.meters);
    }
  }

  /** Every candidate left out is no farther than any row kept. */
  lemma SelectCarsLeavesOutNearer(cands: seq<Candidate>)
    ensures forall c, i :: c in multiset(cands) - multiset(TopCars(cands)) && 0 <= i < |SelectCars(cands)| ==>
              SelectCars(cands)[i].distance >= c.near.meters * DISTANCE_MULTIPLIER
  {
    var top := TopCars(cands);
    var r := SelectCars(cands);
    TopDominates(cands, CandidateMeters, NEARBY_LIMIT);
    forall c, i | c in multiset(cands) - multiset(top) && 0 <= i < |r|
      ensures r[i].distance >= c.near.meters * DISTANCE_MULTIPLIER
    {
      assert top[i] in top;
      ScaledDistanceOrder(top[i].near.meters, c.near.meters);
    }
  }

  // ---------------------------------------------------------------------
  // Local riders: users -> drivers -> ride type -> ride and review counts
  //   -> service

  datatype LocalCandidate = LocalCandidate(
    base: Candidate, rideType: RideType, rideCount: nat, reviewCount: nat)

  /** The ride type id a driver's local information names, if it has one. */
  function LocalRideTypeId(d: Driver): Option<Id> {
    if d.profile.Some? && d.profile.value.localRidePersonalInformation.Some?
    then Some(d.profile.value.localRidePersonalInformation.value.localRideType)
    else None
  }

  /** `$size` of the ride lookup, which matches a ride's own `_id` against
      the driver's `_id`. */
  function RideCount(rides: seq<Ride>, driverId: Id): (r: nat)
    ensures r == |Filter(rides, (x: Ride) => x.id == driverId)|
    ensures (forall x :: x in rides ==> x.id != driverId) ==> r == 0
  {
    var matched := Filter(rides, (x: Ride) => x.id == driverId);
    assert matched != [] ==> matched[0] in matched;
    |matched|
  }

  /** `$size` of the review lookup: the reviews whose `userId` is the rider's
      user. */
  function ReviewCount(reviews: seq<Review>, userId: Id): (r: nat)
    ensures r == |Filter(reviews, (v: Review) => v.userId == userId)|
    ensures r <= |reviews|
  {
    |Filter(reviews, (v: Review) => v.userId == userId)|
  }

  predicate LocalJoined(c: LocalCandidate, drivers: seq<Driver>, services: seq<Service>,
                        rideTypes: seq<RideType>, rides: seq<Ride>, reviews: seq<Review>) {
    && Joined(c.base, drivers, services)
    && LocalRideTypeId(c.base.driver).Some?
    && RideTypeById(rideTypes, LocalRideTypeId(c.base.driver).value) == Some(c.rideType)
    && c.rideCount == RideCount(rides, c.base.driver.id)
    && c.reviewCount == ReviewCount(reviews, c.base.near.user.id)
  }

  function LocalDriverRows(n: Near, drivers: seq<Driver>, services: seq<Service>,
                           rideTypes: seq<RideType>, rides: seq<Ride>, reviews: seq<Review>): seq<LocalCandidate>
  {
    if drivers == [] then []
    else
      var d := drivers[0];
      var s := ServiceById(services, d.service);
      var t := LocalRideTypeId(d);
      var rt := if t.Some? then RideTypeById(rideTypes, t.value) else None;
      (if d.user == n.user.id && rt.Some? && s.Some?
       then [LocalCandidate(Candidate(n, d, s.value), rt.value, RideCount(rides, d.id), ReviewCount(reviews, n.user.id))]
       else [])
      + LocalDriverRows(n, drivers[1..], services, rideTypes, rides, reviews)
  }

  function JoinLocalDrivers(near: seq<Near>, drivers: seq<Driver>, services: seq<Service>,
                            rideTypes: seq<RideType>, rides: seq<Ride>, reviews: seq<Review>): seq<LocalCandidate>
  {
    if near == [] then []
    else LocalDriverRows(near[0], drivers, services, rideTypes, rides, reviews)
         + JoinLocalDrivers(near[1..], drivers, services, rideTypes, rides, reviews)
  }

  lemma {:induction false} LocalDriverRowsMembers(n: Near, drivers: seq<Driver>, services: seq<Service>,
                                                  rideTypes: seq<RideType>, rides: seq<Ride>, reviews: seq<Review>,
                                                  c: LocalCandidate)
    ensures c in LocalDriverRows(n, drivers, services, rideTypes, rides, reviews) <==>
              c.base.near == n && LocalJoined(c, drivers, services, rideTypes, rides, reviews)
  {
    if drivers != [] {
      LocalDriverRowsMembers(n, drivers[1..], services, rideTypes, rides, reviews, c);
      assert drivers == [drivers[0]] + drivers[1..];
    }
  }

  /** The joined local rows are exactly the (geo result, driver of that user,
      its ride type, its service) combinations, with the two counts. */
  lemma {:induction false} JoinLocalDriversMembers(near: seq<Near>, drivers: seq<Driver>, services: seq<Service>,
                                                   rideTypes: seq<RideType>, rides: seq<Ride>, reviews: seq<Review>,
                                                   c: LocalCandidate)
    ensures c in JoinLocalDrivers(near, drivers, services, rideTypes, rides, reviews) <==>
              c.base.near in near && LocalJoined(c, drivers, services, rideTypes, rides, reviews)
  {
    if near != [] {
      var rest := near[1..];
      var here := LocalDriverRows(near[0], drivers, services, rideTypes, rides, reviews);
      var later := JoinLocalDrivers(rest, drivers, services, rideTypes, rides, reviews);
      LocalDriverRowsMembers(near[0], drivers, services, rideTypes, rides, reviews, c);
      JoinLocalDriversMembers(rest, drivers, services, rideTypes, rides, reviews, c);
      assert c in here + later <==> c in here || c in later;
      assert near == [near[0]] + rest;
      assert c.base.near in near <==> c.base.near == near[0] || c.base.near in rest;
    }
  }

  /** The route list of a driver's profile, if there is one. */
  function RoutesOf(d: Driver): Option<seq<RouteDetail>> {
    if d.profile.Some? then d.profile.value.routeDetails else None
  }

  predicate HasRoute(routes: seq<RouteDetail>, route: string) {
    exists k :: 0 <= k < |routes| && routes[k].route == route
  }

  /** The local filter of `/available-riders` (route None) and of
      `/local-trips/location` (route Some): the local service, local
      information with the requested ride type if one is given, a non-empty
      route list, and a route equal to the requested one if one is given. */
  predicate PassesLocalFilter(c: LocalCandidate, rideType: Option<Id>, route: Option<string>) {
    var d := c.base.driver;
    && c.base.service.code == "local"
    && d.profile.Some?
    && d.profile.value.localRidePersonalInformation.Some?
    && (rideType.Some? ==> d.profile.value.localRidePersonalInformation.value.localRideType == rideType.value)
    && d.profile.value.routeDetails.Some?
    && d.profile.value.routeDetails.value != []
    && (route.Some? ==> HasRoute(d.profile.value.routeDetails.value, route.value))
  }

  function LocalMeters(c: LocalCandidate): real { c.base.near.meters }

  function LocalCandidates(users: seq<User>, drivers: seq<Driver>, services: seq<Service>,
                           rideTypes: seq<RideType>, rides: seq<Ride>, reviews: seq<Review>,
                           centre: Coordinates, dist: Distance,
                           rideType: Option<Id>, route: Option<string>): seq<LocalCandidate>
  {
    Filter(JoinLocalDrivers(GeoNear(users, centre, dist, LOCAL_RADIUS_METERS), drivers, services, rideTypes, rides, reviews),
           (c: LocalCandidate) => PassesLocalFilter(c, rideType, route))
  }

  /** Who enters the local selection: a user within 5,000,000 m, one of its
      drivers whose ride type and service exist, passing the local filter. */
  lemma LocalCandidatesAre(users: seq<User>, drivers: seq<Driver>, services: seq<Service>,
                           rideTypes: seq<RideType>, rides: seq<Ride>, reviews: seq<Review>,
                           centre: Coordinates, dist: Distance,
                           rideType: Option<Id>, route: Option<string>, c: LocalCandidate)
    ensures c in LocalCandidates(users, drivers, services, rideTypes, rides, reviews, centre, dist, rideType, route) <==>
              && c.base.near.user in users && c.base.near.user.location == Some(c.base.near.point)
              && c.base.near.meters == dist(centre, c.base.near.point)
              && c.base.near.meters <= LOCAL_RADIUS_METERS
              && LocalJoined(c, drivers, services, rideTypes, rides, reviews)
              && PassesLocalFilter(c, rideType, route)
  {
    JoinLocalDriversMembers(GeoNear(users, centre, dist, LOCAL_RADIUS_METERS), drivers, services, rideTypes, rides, reviews, c);
  }

  function TopLocal(cands: seq<LocalCandidate>): seq<LocalCandidate> {
    Take(SortDesc(cands, LocalMeters), NEARBY_LIMIT)
  }

  /** The local rider row: the common fields plus the contact count (always
      0), the phone number, the ride type, the two counts and the routes. */
  datatype LocalRider = LocalRider(
    rider: RiderForMap,
    contactCount: nat,
    phoneNumber: Option<string>,
    rideType: RideType,
    rideCount: nat,
    reviewCount: nat,
    routes: Option<seq<RouteDetail>>)

  /** `$ifNull: ['$profile.routeDetails.price', 0]` is evaluated on the user
      document, which has no `profile`, so the price is always 0; the image
      is the local profile photo. */
  function ProjectLocal(c: LocalCandidate): (r: LocalRider)
    ensures r.rider.price == Amount(0.0)
    ensures r.rider.id == c.base.driver.id && r.contactCount == 0
    ensures r.rider.distance == c.base.near.meters * DISTANCE_MULTIPLIER
  {
    var d := c.base.driver;
    var photo := if d.profile.Some? && d.profile.value.localRidePersonalInformation.Some?
                 then Some(d.profile.value.localRidePersonalInformation.value.profilePhotoUrl) else None;
    LocalRider(
      RiderForMap(d.id, c.base.near.user.firstName, c.base.near.user.lastName, c.base.near.user.rating,
                  c.base.service.image, Amount(0.0), photo,
                  c.base.near.point.longitude, c.base.near.point.latitude, c.base.near.meters * DISTANCE_MULTIPLIER),
      0, c.base.near.user.phoneNumber, c.rideType, c.rideCount, c.reviewCount, RoutesOf(d))
  }

  function SelectLocal(cands: seq<LocalCandidate>): seq<LocalRider> {
    MapSeq(TopLocal(cands), ProjectLocal)
  }

  /** `getLocalRidersWithinLocation` with a local filter. */
  function NearbyLocalRiders(users: seq<User>, drivers: seq<Driver>, services: seq<Service>,
                             rideTypes: seq<RideType>, rides: seq<Ride>, reviews: seq<Review>,
                             centre: Coordinates, dist: Distance,
                             rideType: Option<Id>, route: Option<string>): seq<LocalRider>
  {
    SelectLocal(LocalCandidates(users, drivers, services, rideTypes, rides, reviews, centre, dist, rideType, route))
  }

  function LocalRiderDistance(r: LocalRider): real { r.rider.distance }

  /** At most ten rows, and exactly ten when there are that many
      candidates. */
  lemma SelectLocalAtMostTen(cands: seq<LocalCandidate>)
    ensures |SelectLocal(cands)| <= NEARBY_LIMIT
    ensures |cands| >= NEARBY_LIMIT ==> |SelectLocal(cands)| == NEARBY_LIMIT
  {
    TopLength(cands, LocalMeters, NEARBY_LIMIT);
  }

  /** Every row is the projection of a candidate. */
  lemma SelectLocalFromCandidates(cands: seq<LocalCandidate>)
    ensures forall i :: 0 <= i < |SelectLocal(cands)| ==> exists c :: c in cands && SelectLocal(cands)[i] == ProjectLocal(c)
  {
    var top := TopLocal(cands);
    var r := SelectLocal(cands);
    TopFromInput(cands, LocalMeters, NEARBY_LIMIT);
    forall i | 0 <= i < |r|
      ensures exists c :: c in cands && r[i] == ProjectLocal(c)
    {
      assert top[i] in multiset(cands);
    }
  }

  /** The rows are ordered by distance, farthest first. */
  lemma SelectLocalFarthestFirst(cands: seq<LocalCandidate>)
    ensures SortedDesc(SelectLocal(cands), LocalRiderDistance)
  {
    var top := TopLocal(cands);
    var r := SelectLocal(cands);
    TopSorted(cands, LocalMeters, NEARBY_LIMIT);
    forall i, j | 0 <= i < j < |r|
      ensures LocalRiderDistance(r[i]) >= LocalRiderDistance(r[j])
    {
      ScaledDistanceOrder(top[i].base.near.meters, top[j].base.near.meters);
    }
  }

  /** Every candidate left out is no farther than any row kept. */
  lemma SelectLocalLeavesOutNearer(cands: seq<LocalCandidate>)
    ensures forall c, i :: c in multiset(cands) - multiset(TopLocal(cands)) && 0 <= i < |SelectLocal(cands)| ==>
              SelectLocal(cands)[i].rider.distance >= c.base.near.meters * DISTANCE_MULTIPLIER
  {
    var top := TopLocal(cands);
    var r := SelectLocal(cands);
    TopDominates(cands, LocalMeters, NEARBY_LIMIT);
    forall c, i | c in multiset(cands) - multiset(top) && 0 <= i < |r|
      ensures r[i].rider.distance >= c.base.near.meters * DISTANCE_MULTIPLIER
    {
      assert top[i] in top;
      ScaledDistanceOrder(top[i].base.near.meters, c.base.near.meters);
    }
  }

  /** Every local row is priced 0 and carries a non-empty route list, which
      holds the requested route when one is given. */
  lemma LocalRidersOfferTheRoute(users: seq<User>, drivers: seq<Driver>, services: seq<Service>,
                                 rideTypes: seq<RideType>, rides: seq<Ride>, reviews: seq<Review>,
                                 centre: Coordinates, dist: Distance,
                                 rideType: Option<Id>, route: Option<string>)
    ensures var r := NearbyLocalRiders(users, drivers, services, rideTypes, rides, reviews, centre, dist, rideType, route);
            forall i :: 0 <= i < |r| ==>
              r[i].rider.price == Amount(0.0) && r[i].routes.Some? && r[i].routes.value != []
              && (route.Some? ==> HasRoute(r[i].routes.value, route.value))
  {
    var cands := LocalCandidates(users, drivers, services, rideTypes, rides, reviews, centre, dist, rideType, route);
    assert forall c :: c in cands ==> PassesLocalFilter(c, rideType, route);
    SelectedPassFilter(cands, rideType, route);
  }

  lemma SelectedPassFilter(cands: seq<LocalCandidate>, rideType: Option<Id>, route: Option<string>)
    requires forall c :: c in cands ==> PassesLocalFilter(c, rideType, route)
    ensures forall i :: 0 <= i < |SelectLocal(cands)| ==>
              SelectLocal(cands)[i].rider.price == Amount(0.0)
              && SelectLocal(cands)[i].routes.Some? && SelectLocal(cands)[i].routes.value != []
              && (route.Some? ==> HasRoute(SelectLocal(cands)[i].routes.value, route.value))
  {
    var top := TopLocal(cands);
    TopFromInput(cands, LocalMeters, NEARBY_LIMIT);
    forall i | 0 <= i < |top|
      ensures PassesLocalFilter(top[i], rideType, route)
    {
      assert top[i] in multiset(cands);
    }
  }

  // ---------------------------------------------------------------------
  // getPopularLocations

  /** The drivers the popular-locations match keeps: a non-empty route list
      and, when a ride type is given, local information naming it. */
  predicate KeepsForPopular(d: Driver, rideType: Option<Id>) {
    && RoutesOf(d).Some? && RoutesOf(d).value != []
    && (rideType.Some? ==> LocalRideTypeId(d) == rideType)
  }

  /** `$unwind` of the route lists of the kept drivers, in driver order. */
  function UnwoundRoutes(drivers: seq<Driver>, rideType: Option<Id>): (r: seq<RouteDetail>)
    ensures forall x :: x in r <==> exists d :: d in drivers && KeepsForPopular(d, rideType) && x in RoutesOf(d).value
  {
    if drivers == [] then []
    else
      (if KeepsForPopular(drivers[0], rideType) then RoutesOf(drivers[0]).value else [])
      + UnwoundRoutes(drivers[1..], rideType)
  }

  datatype RouteSummary = RouteSummary(route: string, views: int, price: real)

  /** `$sum` of the views of the routes named `name` (a route stored without
      a counter has 0 views). */
  function SumViews(routes: seq<RouteDetail>, name: string): int {
    if routes == [] then 0
    else (if routes[0].route == name then routes[0].views else 0) + SumViews(routes[1..], name)
  }

  /** `$min` of the prices of the routes named `name`, if any. */
  function MinPrice(routes: seq<RouteDetail>, name: string): (r: Option<real>)
    ensures r.Some? <==> HasRoute(routes, name)
    ensures r.Some? ==> (exists k :: 0 <= k < |routes| && routes[k].route == name && routes[k].price == r.value)
                        && forall k :: 0 <= k < |routes| && routes[k].route == name ==> r.value <= routes[k].price
  {
    if routes == [] then None
    else
      var rest := MinPrice(routes[1..], name);
      assert forall k :: 1 <= k < |routes| ==> routes[k] == routes[1..][k - 1];
      if routes[0].route != name then rest
      else if rest.None? || routes[0].price <= rest.value then Some(routes[0].price)
      else rest
  }

  function RouteNames(routes: seq<RouteDetail>): (r: seq<string>)
    ensures forall x :: x in r <==> HasRoute(routes, x)
  {
    var r := seq(|routes|, k requires 0 <= k < |routes| => routes[k].route);
    assert forall x :: x in r ==> HasRoute(routes, x);
    assert forall x :: HasRoute(routes, x) ==> x in r by {
      forall x | HasRoute(routes, x)
        ensures x in r
      {
        var k :| 0 <= k < |routes| && routes[k].route == x;
        assert r[k] == x;
      }
    }
    r
  }

  predicate DistinctRoutes(groups: seq<RouteSummary>) {
    forall i, j :: 0 <= i < j < |groups| ==> groups[i].route != groups[j].route
  }

  /** `$group` by route name: one summary per name, holding the sum of the
      views and the lowest price of the routes with that name. */
  function GroupRoutes(routes: seq<RouteDetail>): (r: seq<RouteSummary>)
    ensures DistinctRoutes(r)
    ensures forall name :: HasRoute(routes, name) ==> exists i :: 0 <= i < |r| && r[i].route == name
    ensures forall i :: 0 <= i < |r| ==>
              HasRoute(routes, r[i].route)
              && r[i].views == SumViews(routes, r[i].route) && Some(r[i].price) == MinPrice(routes, r[i].route)
  {
    var names := Distinct(RouteNames(routes));
    var r := seq(|names|, i requires 0 <= i < |names| =>
                   RouteSummary(names[i], SumViews(routes, names[i]), MinPrice(routes, names[i]).value));
    forall name | HasRoute(routes, name)
      ensures exists i :: 0 <= i < |r| && r[i].route == name
    {
      assert name in names;
      var i :| 0 <= i < |names| && names[i] == name;
      assert r[i].route == name;
    }
    r
  }

  function SummaryViews(s: RouteSummary): real { s.views as real }

  /** `getPopularLocations`: the grouped routes, most viewed first. */
  function PopularLocations(drivers: seq<Driver>, rideType: Option<Id>): seq<RouteSummary> {
    SortDesc(GroupRoutes(UnwoundRoutes(drivers, rideType)), SummaryViews)
  }

  lemma {:induction false} DistinctMultiset(s: seq<RouteSummary>, x: RouteSummary)
    requires DistinctRoutes(s)
    ensures multiset(s)[x] <= 1
  {
    if s != [] {
      assert s == [s[0]] + s[1..];
      DistinctMultiset(s[1..], x);
      if s[0] == x {
        forall j | 0 <= j < |s[1..]|
          ensures s[1..][j] != x
        {
          assert s[1..][j] == s[j + 1];
        }
      }
    }
  }

  /** A permutation of a list with distinct route names has distinct route
      names. */
  lemma DistinctRoutesPermutation(s: seq<RouteSummary>, t: seq<RouteSummary>)
    requires DistinctRoutes(s) && multiset(t) == multiset(s)
    ensures DistinctRoutes(t)
  {
    forall i, j | 0 <= i < j < |t|
      ensures t[i].route != t[j].route
    {
      assert t[i] in multiset(s) && t[j] in multiset(s);
      if t[i] == t[j] {
        TwoOccurrences(t, i, j);
        DistinctMultiset(s, t[i]);
      } else {
        var a :| 0 <= a < |s| && s[a] == t[i];
        var b :| 0 <= b < |s| && s[b] == t[j];
        assert a != b;
      }
    }
  }

  /** Popular locations list each route name once, most viewed first. */
  lemma PopularLocationsDistinctAndSorted(drivers: seq<Driver>, rideType: Option<Id>)
    ensures DistinctRoutes(PopularLocations(drivers, rideType))
    ensures SortedDesc(PopularLocations(drivers, rideType), SummaryViews)
  {
    var groups := GroupRoutes(UnwoundRoutes(drivers, rideType));
    DistinctRoutesPermutation(groups, PopularLocations(drivers, rideType));
  }

  /** A reordering keeps the rows and the route names a list holds. */
  lemma ReorderedSummaries(groups: seq<RouteSummary>, r: seq<RouteSummary>)
    requires multiset(r) == multiset(groups)
    ensures forall i :: 0 <= i < |r| ==> r[i] in groups
    ensures forall g :: 0 <= g < |groups| ==> exists i :: 0 <= i < |r| && r[i] == groups[g]
  {
    forall i | 0 <= i < |r|
      ensures r[i] in groups
    {
      assert r[i] in multiset(groups);
    }
    forall g | 0 <= g < |groups|
      ensures exists i :: 0 <= i < |r| && r[i] == groups[g]
    {
      assert groups[g] in multiset(r);
    }
  }

  /** Each row holds, for its route name, the sum of the views and the lowest
      price of the kept drivers' routes with that name. */
  lemma PopularLocationsSummarise(drivers: seq<Driver>, rideType: Option<Id>)
    ensures var r := PopularLocations(drivers, rideType);
            var routes := UnwoundRoutes(drivers, rideType);
            forall i :: 0 <= i < |r| ==>
              HasRoute(routes, r[i].route)
              && r[i].views == SumViews(routes, r[i].route) && Some(r[i].price) == MinPrice(routes, r[i].route)
  {
    ReorderedSummaries(GroupRoutes(UnwoundRoutes(drivers, rideType)), PopularLocations(drivers, rideType));
  }

  /** Every route name of the kept drivers has a row. */
  lemma PopularLocationsCoverRoutes(drivers: seq<Driver>, rideType: Option<Id>)
    ensures var r := PopularLocations(drivers, rideType);
            forall name :: HasRoute(UnwoundRoutes(drivers, rideType), name) ==>
              exists i :: 0 <= i < |r| && r[i].route == name
  {
    var routes := UnwoundRoutes(drivers, rideType);
    var groups := GroupRoutes(routes);
    var r := PopularLocations(drivers, rideType);
    ReorderedSummaries(groups, r);
    forall name | HasRoute(routes, name)
      ensures exists i :: 0 <= i < |r| && r[i].route == name
    {
      var g :| 0 <= g < |groups| && groups[g].route == name;
      var i :| 0 <= i < |r| && r[i] == groups[g];
    }
  }

  // ---------------------------------------------------------------------
  // getLocalRideRoutes

  predicate KeepsForRoute(d: Driver, route: string) {
    RoutesOf(d).Some? && RoutesOf(d).value != [] && HasRoute(RoutesOf(d).value, route)
  }

  /** Every route of every driver that offers `route`, in driver order (the
      driver's other routes come along). */
  function LocalRideRoutes(drivers: seq<Driver>, route: string): (r: seq<RouteDetail>)
    ensures forall x :: x in r <==> exists d :: d in drivers && KeepsForRoute(d, route) && x in RoutesOf(d).value
  {
    if drivers == [] then []
    else
      (if KeepsForRoute(drivers[0], route) then RoutesOf(drivers[0]).value else [])
      + LocalRideRoutes(drivers[1..], route)
  }

  // ---------------------------------------------------------------------
  // getDriverTimeToLocation

  /** One distance-matrix element with its duration and distance. */
  datatype MatrixElement = MatrixElement(durationText: string, durationSeconds: int, distanceText: string)

  datatype TimeToLocation = TimeToLocation(
    timeToLocationText: string, distanceToLocation: string, timeToLocationInSeconds: int)

  const NO_TIME_TO_LOCATION: TimeToLocation := TimeToLocation("", "", 0)

  /** `_.minBy` on durations: the first element of least duration. */
  function FirstFastest(row: seq<MatrixElement>): (k: nat)
    requires row != []
    ensures k < |row|
    ensures forall j :: 0 <= j < |row| ==> row[k].durationSeconds <= row[j].durationSeconds
    ensures forall j :: 0 <= j < k ==> row[j].durationSeconds > row[k].durationSeconds
  {
    if |row| == 1 then 0
    else
      var rest := FirstFastest(row[1..]) + 1;
      assert forall j :: 1 <= j < |row| ==> row[j] == row[1..][j - 1];
      if row[0].durationSeconds <= row[rest].durationSeconds then 0 else rest
  }

  /** The details for a matrix answer (None when the call returned nothing):
      the defaults unless the first row has an element, else the fastest
      element of the first row. */
  function TimeToLocationOf(result: Option<seq<seq<MatrixElement>>>): (r: TimeToLocation)
    ensures (result.None? || result.value == [] || result.value[0] == []) ==> r == NO_TIME_TO_LOCATION
    ensures result.Some? && result.value != [] && result.value[0] != [] ==>
              exists k :: 0 <= k < |result.value[0]|
                          && r == TimeToLocation(result.value[0][k].durationText, result.value[0][k].distanceText,
                                                 result.value[0][k].durationSeconds)
                          && (forall j :: 0 <= j < |result.value[0]| ==>
                                result.value[0][k].durationSeconds <= result.value[0][j].durationSeconds)
                          && (forall j :: 0 <= j < k ==>
                                result.value[0][j].durationSeconds > result.value[0][k].durationSeconds)
  {
    if result.None? || result.value == [] || result.value[0] == [] then NO_TIME_TO_LOCATION
    else
      var e := result.value[0][FirstFastest(result.value[0])];
      TimeToLocation(e.durationText, e.distanceText, e.durationSeconds)
  }

  /** `getDriverTimeToLocation`: start from the defaults and, when the first
      row has an element, scan it for the fastest one and fill the three
      fields from it. */
  method DriverTimeToLocation(result: Option<seq<seq<MatrixElement>>>) returns (details: TimeToLocation)
    ensures details == TimeToLocationOf(result)
  {
    details := NO_TIME_TO_LOCATION;
    if result.Some? && result.value != [] && result.value[0] != [] {
      var row := result.value[0];
      var best := 0;
      var j := 1;
      while j < |row|
        invariant 1 <= j <= |row| && best < j
        invariant forall m :: 0 <= m < j ==> row[best].durationSeconds <= row[m].durationSeconds
        invariant forall m :: 0 <= m < best ==> row[m].durationSeconds > row[best].durationSeconds
      {
        if row[j].durationSeconds < row[best].durationSeconds {
          best := j;
        }
        j := j + 1;
      }
      FirstMinimumIsUnique(row, best, FirstFastest(row));
      details := TimeToLocation(row[best].durationText, row[best].distanceText, row[best].durationSeconds);
    }
  }

  lemma FirstMinimumIsUnique(row: seq<MatrixElement>, a: nat, b: nat)
    requires a < |row| && b < |row|
    requires forall m :: 0 <= m < |row| ==> row[a].durationSeconds <= row[m].durationSeconds
    requires forall m :: 0 <= m < a ==> row[m].durationSeconds > row[a].durationSeconds
    requires forall m :: 0 <= m < |row| ==> row[b].durationSeconds <= row[m].durationSeconds
    requires forall m :: 0 <= m < b ==> row[m].durationSeconds > row[b].durationSeconds
    ensures a == b
  {
    assert row[a].durationSeconds == row[b].durationSeconds;
  }

  // ---------------------------------------------------------------------
  // getDriversForTrip (the sequential reading of the Promise.all fan-out)

  datatype TripRider = TripRider(rider: RiderForMap, timeToLocation: string, distanceToLocation: string)

  /** The `drivers.map` step: each candidate, in order, copied with the two
      fields of its time to the rider's point; `matrixFor` stands for the
      distance-matrix call from the candidate's coordinates to the rider's. */
  method WithTimesToLocation(candidates: seq<RiderForMap>, matrixFor: RiderForMap -> Option<seq<seq<MatrixElement>>>)
    returns (r: seq<TripRider>)
    ensures |r| == |candidates|
    ensures forall i :: 0 <= i < |r| ==>
              r[i].rider == candidates[i]
              && r[i].timeToLocation == TimeToLocationOf(matrixFor(candidates[i])).timeToLocationText
              && r[i].distanceToLocation == TimeToLocationOf(matrixFor(candidates[i])).distanceToLocation
  {
    r := [];
    var i := 0;
    while i < |candidates|
      invariant 0 <= i <= |candidates| && |r| == i
      invariant forall k :: 0 <= k < i ==>
                  r[k].rider == candidates[k]
                  && r[k].timeToLocation == TimeToLocationOf(matrixFor(candidates[k])).timeToLocationText
                  && r[k].distanceToLocation == TimeToLocationOf(matrixFor(candidates[k])).distanceToLocation
    {
      var details := DriverTimeToLocation(matrixFor(candidates[i]));
      r := r + [TripRider(candidates[i], details.timeToLocationText, details.distanceToLocation)];
      i := i + 1;
    }
  }

  /** `getDriversForTrip`: the nearby car drivers around the rider's point
      (the `/nearby-riders` filter and projection), at most ten, each with its
      time to that point. */
  method DriversForTrip(users: seq<User>, drivers: seq<Driver>, services: seq<Service>,
                        centre: Coordinates, dist: Distance,
                        matrixFor: RiderForMap -> Option<seq<seq<MatrixElement>>>)
    returns (r: seq<TripRider>)
    ensures var cars := NearbyCars(users, drivers, services, centre, dist);
            && |r| == |cars| <= NEARBY_LIMIT
            && forall i :: 0 <= i < |r| ==>
                 r[i].rider == cars[i]
                 && r[i].timeToLocation == TimeToLocationOf(matrixFor(cars[i])).timeToLocationText
                 && r[i].distanceToLocation == TimeToLocationOf(matrixFor(cars[i])).distanceToLocation
  {
    var cars := NearbyCars(users, drivers, services, centre, dist);
    SelectCarsAtMostTen(CarCandidates(users, drivers, services, centre, dist));
    r := WithTimesToLocation(cars, matrixFor);
  }

  // ---------------------------------------------------------------------
  // The ride-type filter

  /** Every candidate of a ride-type search names that ride type. */
  lemma LocalCandidatesHaveTheRideType(users: seq<User>, drivers: seq<Driver>, services: seq<Service>,
                                       rideTypes: seq<RideType>, rides: seq<Ride>, reviews: seq<Review>,
                                       centre: Coordinates, dist: Distance, t: Id, route: Option<string>)
    ensures forall c :: c in LocalCandidates(users, drivers, services, rideTypes, rides, reviews, centre, dist, Some(t), route) ==>
              c.rideType.id == t
  {
    forall c | c in LocalCandidates(users, drivers, services, rideTypes, rides, reviews, centre, dist, Some(t), route)
      ensures c.rideType.id == t
    {
      LocalCandidatesAre(users, drivers, services, rideTypes, rides, reviews, centre, dist, Some(t), route, c);
      assert LocalRideTypeId(c.base.driver) == Some(t);
    }
  }

  lemma SelectedHaveTheRideType(cands: seq<LocalCandidate>, t: Id)
    requires forall c :: c in cands ==> c.rideType.id == t
    ensures forall i :: 0 <= i < |SelectLocal(cands)| ==> SelectLocal(cands)[i].rideType.id == t
  {
    var top := TopLocal(cands);
    TopFromInput(cands, LocalMeters, NEARBY_LIMIT);
    forall i | 0 <= i < |top|
      ensures top[i].rideType.id == t
    {
      assert top[i] in multiset(cands);
    }
  }

  /** With a ride type, every local row carries that ride type. */
  lemma LocalRidersHaveTheRideType(users: seq<User>, drivers: seq<Driver>, services: seq<Service>,
                                   rideTypes: seq<RideType>, rides: seq<Ride>, reviews: seq<Review>,
                                   centre: Coordinates, dist: Distance, t: Id, route: Option<string>)
    ensures var r := NearbyLocalRiders(users, drivers, services, rideTypes, rides, reviews, centre, dist, Some(t), route);
            forall i :: 0 <= i < |r| ==> r[i].rideType.id == t
  {
    LocalCandidatesHaveTheRideType(users, drivers, services, rideTypes, rides, reviews, centre, dist, t, route);
    SelectedHaveTheRideType(LocalCandidates(users, drivers, services, rideTypes, rides, reviews, centre, dist, Some(t), route), t);
  }

  /** With a ride type, every popular location is a route of a driver whose
      local information names that ride type. */
  lemma PopularLocationsHaveTheRideType(drivers: seq<Driver>, t: Id)
    ensures var r := PopularLocations(drivers, Some(t));
            forall i :: 0 <= i < |r| ==>
              exists d :: d in drivers && LocalRideTypeId(d) == Some(t) && RoutesOf(d).Some?
                          && HasRoute(RoutesOf(d).value, r[i].route)
  {
    var r := PopularLocations(drivers, Some(t));
    var routes := UnwoundRoutes(drivers, Some(t));
    PopularLocationsSummarise(drivers, Some(t));
    forall i | 0 <= i < |r|
      ensures exists d :: d in drivers && LocalRideTypeId(d) == Some(t) && RoutesOf(d).Some?
                          && HasRoute(RoutesOf(d).value, r[i].route)
    {
      var k :| 0 <= k < |routes| && routes[k].route == r[i].route;
      UnwoundRouteOwner(drivers, t, routes, k);
    }
  }

  /** An unwound route of a ride-type match belongs to a driver of that
      ride type. */
  lemma UnwoundRouteOwner(drivers: seq<Driver>, t: Id, routes: seq<RouteDetail>, k: int)
    requires routes == UnwoundRoutes(drivers, Some(t)) && 0 <= k < |routes|
    ensures exists d :: d in drivers && LocalRideTypeId(d) == Some(t) && RoutesOf(d).Some?
                        && HasRoute(RoutesOf(d).value, routes[k].route)
  {
    assert routes[k] in routes;
    var d :| d in drivers && KeepsForPopular(d, Some(t)) && routes[k] in RoutesOf(d).value;
    var m :| 0 <= m < |RoutesOf(d).value| && RoutesOf(d).value[m] == routes[k];
  }

  // ---------------------------------------------------------------------
  // The handlers

  /** The error the database server raises for a `$match` object that mixes
      the operator `$exists` with the plain field `localRideType`; the error
      middleware answers it with status 500 and this message. */
  const UNKNOWN_OPERATOR_MESSAGE: string := "unknown operator: localRideType"

  /** What `/available-riders` evidently means to answer: at most ten local
      riders around the given point, farthest first, each priced 0 and
      offering some route, of the requested ride type if one is given, next
      to the popular locations, each route once and most viewed first. */
  function IntendedAvailableRiders(users: seq<User>, drivers: seq<Driver>, services: seq<Service>,
                                   rideTypes: seq<RideType>, rides: seq<Ride>, reviews: seq<Review>,
                                   centre: Coordinates, dist: Distance, rideType: Option<Id>)
    : (r: (seq<LocalRider>, seq<RouteSummary>))
    ensures |r.0| <= NEARBY_LIMIT
    ensures SortedDesc(r.0, LocalRiderDistance)
    ensures forall i :: 0 <= i < |r.0| ==>
              r.0[i].rider.price == Amount(0.0) && r.0[i].routes.Some? && r.0[i].routes.value != []
    ensures rideType.Some? ==> forall i :: 0 <= i < |r.0| ==> r.0[i].rideType.id == rideType.value
    ensures DistinctRoutes(r.1) && SortedDesc(r.1, SummaryViews)
  {
    var cands := LocalCandidates(users, drivers, services, rideTypes, rides, reviews, centre, dist, rideType, None);
    SelectLocalAtMostTen(cands);
    SelectLocalFarthestFirst(cands);
    LocalRidersOfferTheRoute(users, drivers, services, rideTypes, rides, reviews, centre, dist, rideType, None);
    var riders := NearbyLocalRiders(users, drivers, services, rideTypes, rides, reviews, centre, dist, rideType, None);
    assert rideType.Some? ==> forall i :: 0 <= i < |riders| ==> riders[i].rideType.id == rideType.value by {
      if rideType.Some? {
        LocalRidersHaveTheRideType(users, drivers, services, rideTypes, rides, reviews, centre, dist, rideType.value, None);
      }
    }
    PopularLocationsDistinctAndSorted(drivers, rideType);
    (riders, PopularLocations(drivers, rideType))
  }

  /** `/available-riders` as written: a ride type puts the malformed
      `$match` object into both queries, so the route answers 500; without
      one it answers the intended riders and popular locations. */
  function AvailableRiders(users: seq<User>, drivers: seq<Driver>, services: seq<Service>,
                           rideTypes: seq<RideType>, rides: seq<Ride>, reviews: seq<Review>,
                           centre: Coordinates, dist: Distance, rideType: Option<Id>)
    : (r: Outcome<(seq<LocalRider>, seq<RouteSummary>)>)
    ensures rideType.Some? <==> r == Fail(INTERNAL_SERVER_ERROR, UNKNOWN_OPERATOR_MESSAGE)
    ensures r.Fail? ==> rideType.Some?
    ensures r.Ok? ==>
              && |r.value.0| <= NEARBY_LIMIT
              && SortedDesc(r.value.0, LocalRiderDistance)
              && (forall i :: 0 <= i < |r.value.0| ==>
                    r.value.0[i].rider.price == Amount(0.0) && r.value.0[i].routes.Some? && r.value.0[i].routes.value != [])
              && DistinctRoutes(r.value.1) && SortedDesc(r.value.1, SummaryViews)
    ensures r.Ok? ==> r.value == IntendedAvailableRiders(users, drivers, services, rideTypes, rides, reviews, centre, dist, None)
  {
    if rideType.Some? then Fail(INTERNAL_SERVER_ERROR, UNKNOWN_OPERATOR_MESSAGE)
    else Ok(IntendedAvailableRiders(users, drivers, services, rideTypes, rides, reviews, centre, dist, None))
  }

  const GEOCODE_FAILED_MESSAGE: string := "An unexpected error occured!"

  /** What `/local-trips/location` evidently means to answer: geocode the
      route (None when the geocoder did not answer OK); fail with 500 when it
      did not, else search around its first result for riders offering that
      route, of the requested ride type if one is given, next to every route
      of the drivers that offer it. */
  function IntendedLocalTripsForLocation(users: seq<User>, drivers: seq<Driver>, services: seq<Service>,
                                         rideTypes: seq<RideType>, rides: seq<Ride>, reviews: seq<Review>,
                                         geocoded: Option<Coordinates>, dist: Distance,
                                         rideType: Option<Id>, route: string)
    : (r: Outcome<(seq<LocalRider>, seq<RouteDetail>)>)
    ensures geocoded.None? <==> r == Fail(INTERNAL_SERVER_ERROR, GEOCODE_FAILED_MESSAGE)
    ensures r.Ok? ==> forall i :: 0 <= i < |r.value.0| ==>
                        r.value.0[i].routes.Some? && HasRoute(r.value.0[i].routes.value, route)
    ensures r.Ok? && rideType.Some? ==> forall i :: 0 <= i < |r.value.0| ==> r.value.0[i].rideType.id == rideType.value
    ensures r.Ok? ==> r.value.1 == LocalRideRoutes(drivers, route)
  {
    if geocoded.None? then Fail(INTERNAL_SERVER_ERROR, GEOCODE_FAILED_MESSAGE)
    else
      LocalRidersOfferTheRoute(users, drivers, services, rideTypes, rides, reviews, geocoded.value, dist, rideType, Some(route));
      var riders := NearbyLocalRiders(users, drivers, services, rideTypes, rides, reviews, geocoded.value, dist, rideType, Some(route));
      assert rideType.Some? ==> forall i :: 0 <= i < |riders| ==> riders[i].rideType.id == rideType.value by {
        if rideType.Some? {
          LocalRidersHaveTheRideType(users, drivers, services, rideTypes, rides, reviews, geocoded.value, dist, rideType.value, Some(route));
        }
      }
      Ok((riders, LocalRideRoutes(drivers, route)))
  }

  /** `/local-trips/location` as written: the geocoder failure first, then
      the 500 of the malformed `$match` object whenever a ride type is
      given; otherwise the intended answer. */
  function LocalTripsForLocation(users: seq<User>, drivers: seq<Driver>, services: seq<Service>,
                                 rideTypes: seq<RideType>, rides: seq<Ride>, reviews: seq<Review>,
                                 geocoded: Option<Coordinates>, dist: Distance,
                                 rideType: Option<Id>, route: string)
    : (r: Outcome<(seq<LocalRider>, seq<RouteDetail>)>)
    ensures geocoded.None? <==> r == Fail(INTERNAL_SERVER_ERROR, GEOCODE_FAILED_MESSAGE)
    ensures geocoded.Some? && rideType.Some? <==> r == Fail(INTERNAL_SERVER_ERROR, UNKNOWN_OPERATOR_MESSAGE)
    ensures r.Ok? ==> geocoded.Some? && rideType.None?
    ensures r.Ok? ==> forall i :: 0 <= i < |r.value.0| ==>
                        r.value.0[i].routes.Some? && HasRoute(r.value.0[i].routes.value, route)
    ensures r.Ok? ==> r.value.1 == LocalRideRoutes(drivers, route)
  {
    if geocoded.None? then Fail(INTERNAL_SERVER_ERROR, GEOCODE_FAILED_MESSAGE)
    else if rideType.Some? then Fail(INTERNAL_SERVER_ERROR, UNKNOWN_OPERATOR_MESSAGE)
    else IntendedLocalTripsForLocation(users, drivers, services, rideTypes, rides, reviews, geocoded, dist, None, route)
  }

  /** The source as written never answers a ride-type search, while the
      intended answer lists riders of that ride type only. */
  lemma RideTypeSearchFails(users: seq<User>, drivers: seq<Driver>, services: seq<Service>,
                            rideTypes: seq<RideType>, rides: seq<Ride>, reviews: seq<Review>,
                            centre: Coordinates, dist: Distance, t: Id, route: string)
    ensures AvailableRiders(users, drivers, services, rideTypes, rides, reviews, centre, dist, Some(t))
              == Fail(INTERNAL_SERVER_ERROR, UNKNOWN_OPERATOR_MESSAGE)
    ensures LocalTripsForLocation(users, drivers, services, rideTypes, rides, reviews, Some(centre), dist, Some(t), route)
              == Fail(INTERNAL_SERVER_ERROR, UNKNOWN_OPERATOR_MESSAGE)
    ensures IntendedLocalTripsForLocation(users, drivers, services, rideTypes, rides, reviews, Some(centre), dist, Some(t), route).Ok?
    ensures var r := IntendedAvailableRiders(users, drivers, services, rideTypes, rides, reviews, centre, dist, Some(t));
            forall i :: 0 <= i < |r.0| ==> r.0[i].rideType.id == t
  {
  }
}
