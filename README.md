# ClickRide backend core in Dafny

This project models the ride-booking core of the ClickRide backend, an
Express and MongoDB service for car, bus and local rides. It covers:

- **bus seat inventory and booking**: the seats already booked on a bus trip,
  the seat-conflict check and its message, the weekday offset of a departure
  date, the ticket query filter, the one row per trip and weekday that the
  ticket list shows, the booking checks (schedule, then capacity), the fare,
  and the ride record that a bus or car booking appends to the ledger;
- **nearby-driver selection**: the geo search within a radius, the joins to
  drivers, services and ride types, the car and local filters, the
  farthest-first top ten, the price and image fallback chains, the
  distance-matrix summary, and the popular-location grouping;
- **driver profile updates**: the `$set` of one profile sub-document, the
  image upload check, the vehicle documents, the trip append with its
  duplicate check, and the route push;
- **request validators** (the zod schemas) and the password pattern;
- **driver registration** with its uniqueness check, the location and
  device-token updates, and the caller's notifications with mark-as-read.

The MongoDB collections are the fields of the class `Store.Db`. Every route
that writes is a method on it. `nextId` stands for ObjectId generation: the
invariant `Valid()` keeps every stored id below it. Every aggregation
pipeline is a function over the stored sequences. `$lookup` on `_id` takes
the first match, `$unwind` is concatenation, `$group` keeps first-appearance
order, and `$sort` is a stable insertion sort.

A route's answer is an `Outcome`: `Ok(value)`, or `Fail(status, message)`
with the HTTP status and the message the route sends. Distances, today's
date, the upload service's answer, the geocoder's answer and the password
hash are parameters.

The model follows the code as written; the main quirks are:

- The ticket rows are grouped without a weekday. So `details.departureDate`
  is undefined, the day offset is NaN, moment leaves the date unchanged, and
  every listed ticket departs today (`Rides.TicketOf`).
- Booked seats are read from `seatNumbers` and matched by `busTripId` alone,
  with no date.
- The capacity check ignores the seats being requested.
- The local-rider price path is read on the user document, so it is always 0.
- The car price's second fallback is the whole cheapest trip sub-document,
  not its price (`PriceValue.TripElement`). The ride schema cannot cast that,
  or the route-price list, to a Number: the model of `/car` answers 500 for
  either, and writes a ride priced 0 only when the cast succeeds
  (`Rides.BookCar`; the required ride `service` is under "## Left out").
- A ride-type search puts `localRideType` next to `$exists` in one `$match`
  object, which the database server rejects, so `/available-riders` and
  `/local-trips/location` answer 500 whenever a ride type is given (see
  "## Findings").

## Model

| member | source | states |
|---|---|---|
| Rides.ValidateBusBooking | src/routes/ride.ts:40-45 | a booking body is accepted iff it names at least one seat and every seat number is positive; an empty list is reported with "Please provide at least 1 seat" |
| Rides.ValidateBusTripQuery | src/routes/ride.ts:30-38 | a ticket query is accepted iff the seat count is positive |
| Rides.BookedSeats | src/routes/ride.ts:387-407 | no ride on the trip gives the empty list |
| Rides.BookedSeatsMembers | src/routes/ride.ts:387-407 | a seat is booked on a trip iff some ride whose `busTripId` is that trip lists it; the date plays no part |
| Rides.BookedSeatsAppend | src/routes/ride.ts:387-407 | appending a ride appends its seats (for that trip) at the end: the list is the concatenation in ride order |
| Rides.Difference | src/routes/ride.ts:410 | `_.difference` keeps exactly the requested seats not booked, and keeps every one iff none is booked |
| Rides.Intersection | src/routes/ride.ts:413 | `_.intersection` holds each requested and booked seat exactly once, in the order the request first names them |
| Rides.CheckUniqueSeats | src/routes/ride.ts:409-418 | the check passes iff no requested seat is booked (repeats in the request do not fail it); a failure lists the deduplicated conflicting seats |
| Rides.UnavailableOneDigitExample | src/routes/ride.ts:413-414 | one one-digit seat says "is" |
| Rides.UnavailableTwoDigitExample | src/routes/ride.ts:413-414 | a single seat 12 says "are", because the test is on the joined string's length |
| Rides.UnavailableSeveralSeatsExample | src/routes/ride.ts:413-414 | seats 1 and 2 give "Seat: 1,2 are unavailable" |
| Rides.SeatCheckDuplicateRequestExample | src/routes/ride.ts:410-412 | requesting seat 5 twice against booked seat 1 passes |
| Rides.Weekday | src/routes/ride.ts:484 | the weekday of a day number lies in 0..6 |
| Rides.JsRem | src/routes/ride.ts:486 | JavaScript `%` agrees with the Euclidean remainder on non-negative operands and is non-positive on negative ones |
| Rides.NextDateHasWeekday | src/routes/ride.ts:482-491 | the offset lies in 0..6, lands on the requested weekday, and is 0 (today) exactly when today has that weekday; the "next week" line is commented out |
| Rides.DateFromWeekday | src/routes/ride.ts:482-491 | the date is today plus the offset, today itself for an undefined weekday, and for a weekday 0..6 on that weekday within the week |
| Rides.ReturnLegAddsNothing | src/routes/ride.ts:420-480 | a driver matches the query iff it has a trip matching the outbound leg, or, with a return date, the reversed leg; the return-days variant only adds trips the outbound leg already matches |
| Rides.TicketPrice | src/routes/ride.ts:513-519 | a round trip costs half its price, any other trip its full price |
| Rides.TripRowsCount | src/routes/ride.ts:496-497 | a driver's trips give one row per departure weekday |
| Rides.TripRowsMembers | src/routes/ride.ts:493-542 | a row belongs to a driver's rows iff it comes from one of its trips that has a departure weekday |
| Rides.TicketRowsMembers | src/routes/ride.ts:493-542 | a row is listed iff it comes from a trip with a departure weekday of a driver the filter selects |
| Rides.TicketRowsListEveryTrip | src/routes/ride.ts:493-527 | every trip with a departure weekday of a selected driver is listed, at its ticket price |
| Rides.AvailableBusTickets | src/routes/ride.ts:544-575 | one ticket per row, carrying the seats booked on its trip and departing today |
| Rides.QueryBusTickets | src/routes/ride.ts:376-385 | 404 "No available tickets!" iff no row matches; otherwise the matching tickets |
| Rides.QueryFindsOutboundTrip | src/routes/ride.ts:420-436 | a trip that matches the outbound leg makes the query succeed |
| Rides.TripWithId | src/routes/ride.ts:593-597 | the first trip with the id, or none iff no trip has it |
| Rides.FirstOffering | src/routes/ride.ts:578-589 | the first driver whose trips include one with the ticket id on that weekday at that time, or None exactly when no driver has one |
| Rides.OfferedTrip | src/routes/ride.ts:590-600 | for a driver offering the schedule, a trip of that driver with the ticket id |
| Rides.BusTripDetailsForBooking | src/routes/ride.ts:577-620 | every failure is a 400 with one of the two messages; "Invalid ticket details provided!" iff no driver runs that trip on that weekday and time; "Please select fewer seats!" only when the booked seats exceed the capacity; an accepted trip has the id and capacity minus booked |
| Rides.BusTripDetailsOfFirstOffering | src/routes/ride.ts:611-620 | when some driver offers the schedule, the answer is Ok exactly when the first such driver's trip holds the booked seats, and then it is that driver, that trip and capacity minus booked; otherwise it is "Please select fewer seats!" |
| Rides.BusBookingCheck | src/routes/ride.ts:213-221 | a bus booking gets past its checks iff none of its seats is booked and the trip details check succeeds; every failure is a 400 |
| Rides.BookBus | src/routes/ride.ts:213-256 | the checks fail with nothing written, or one ride is appended with the trip id as driver and `busTripId`, "city, place" addresses at 0,0 and price ticket price times seat count; the trip's booked seats grow by the request and other trips' stay |
| Rides.BookedSeatStaysTaken | src/routes/ride.ts:213-245 | once a booking is stored, any request naming one of its seats fails the seat check |
| Rides.CarBookingDriver | src/routes/ride.ts:48-73 | the driver booked is the first with the id and a profile whose service and user both exist; none iff every such driver lacks one |
| Rides.IfNull | src/routes/ride.ts:80-86 | `$ifNull` picks the first present value, and is missing iff all are |
| Rides.CarBookingImage | src/routes/ride.ts:80-86 | the car image is the display photo, else the company logo, else the profile photo |
| Rides.CarPriceCasts | src/models/ride/schema.ts:22 | a joined driver's projected price casts to a Number exactly when its profile has neither a route list nor a trip, and is then 0 |
| Rides.BookCar | src/routes/ride.ts:47-134 | 404 "Driver does not exist!" with nothing written; 500 with nothing written when the projected price does not cast to a Number; otherwise one pending ride priced 0 is appended; no bus trip's booked seats change |
| Rides.LocationOfInjective | src/routes/ride.ts:333-336 | two location options are equal only for the same place and city |
| Rides.BusService | src/routes/ride.ts:316 | the first service coded "bus", none iff there is no bus service |
| Rides.BusTripsMembers | src/routes/ride.ts:320-321 | a trip is listed iff it belongs to the profile of a driver of the bus service |
| Rides.LocationOptions | src/routes/ride.ts:322-338 | the options are exactly the labels of the pairs, each once |
| Rides.Origins | src/routes/ride.ts:319-339 | one option "origin -- originCity" per distinct origin pair, each once |
| Rides.Destinations | src/routes/ride.ts:341-358 | one option per distinct destination pair, each once |
| Rides.BusLocations | src/routes/ride.ts:315-367 | 500 "Something failed!" iff there is no bus service; otherwise the origins, and the destinations sorted by label as a permutation of the distinct destinations |
| Rides.BusDestinationsListEveryPlace | src/routes/ride.ts:341-362 | after sorting, the destinations still hold each distinct destination exactly once and nothing else |
| Geolocation.GeoNear | src/routes/geolocation.ts:128-141 | the geo search returns exactly the users with a location within the radius |
| Geolocation.ServiceById | src/routes/geolocation.ts:151-159 | the service lookup finds a service with the id, none iff there is none |
| Geolocation.RideTypeById | src/routes/geolocation.ts:207-223 | the ride-type lookup finds a ride type with the id, none iff there is none |
| Geolocation.DriverRowsMembers | src/routes/geolocation.ts:142-159 | one geo result gives exactly the rows of its user's drivers whose service exists |
| Geolocation.JoinDriversMembers | src/routes/geolocation.ts:142-159 | the joined rows are exactly (geo result, driver of that user, its service) |
| Geolocation.CarCandidatesAre | src/routes/geolocation.ts:28-53 | a car candidate is a user within 5,000 m, one of its drivers with a profile holding car information, and that driver's service |
| Geolocation.CheapestTrip | src/routes/geolocation.ts:40-43 | the trip chosen is stored on the profile and has the lowest price |
| Geolocation.RoutePrices | src/routes/geolocation.ts:38 | the path through the route list gives the list of route prices |
| Geolocation.CarPrice | src/routes/geolocation.ts:36-47 | the route prices when a route list exists (even an empty one), else the whole cheapest trip, else 0 |
| Geolocation.DisplayImage | src/routes/geolocation.ts:35 | the vehicle's display photo, present iff the profile has vehicle documents |
| Geolocation.ScaledDistanceOrder | src/routes/geolocation.ts:137 | scaling by 0.001 keeps the distance order |
| Geolocation.SelectCarsAtMostTen | src/routes/geolocation.ts:162 | at most ten rows, and exactly ten when there are enough candidates |
| Geolocation.SelectCarsFromCandidates | src/routes/geolocation.ts:160-178 | every row is the projection of a passing candidate |
| Geolocation.SelectCarsFarthestFirst | src/routes/geolocation.ts:161 | the rows are ordered by distance, farthest first |
| Geolocation.SelectCarsLeavesOutNearer | src/routes/geolocation.ts:160-162 | every candidate left out is no farther than any row kept |
| Geolocation.RideCount | src/routes/geolocation.ts:224-236 | the ride count counts rides whose own id is the driver's id, so it is 0 when no ride has it |
| Geolocation.ReviewCount | src/routes/geolocation.ts:237-250 | the review count counts the reviews whose `userId` is the rider's user |
| Geolocation.LocalDriverRowsMembers | src/routes/geolocation.ts:198-259 | one geo result gives exactly the rows of its user's drivers whose ride type and service exist, with their ride and review counts |
| Geolocation.JoinLocalDriversMembers | src/routes/geolocation.ts:198-259 | the joined local rows are exactly the fully joined (geo result, driver, ride type, service) rows |
| Geolocation.LocalCandidatesAre | src/routes/geolocation.ts:64-126 | a local candidate is a user within 5,000,000 m with a joined driver of the local service having local information, a non-empty route list and the route when one is given; with a ride type, the intended ride-type match |
| Geolocation.ProjectLocal | src/routes/geolocation.ts:78-81 | the local price reads a path on the user document and is always 0; the distance is scaled by 0.001 and the contact count is 0 |
| Geolocation.SelectLocalAtMostTen | src/routes/geolocation.ts:262 | at most ten local rows, exactly ten when there are enough |
| Geolocation.SelectLocalFromCandidates | src/routes/geolocation.ts:260-284 | every local row is the projection of a candidate |
| Geolocation.SelectLocalFarthestFirst | src/routes/geolocation.ts:261 | local rows are ordered farthest first |
| Geolocation.SelectLocalLeavesOutNearer | src/routes/geolocation.ts:260-262 | a local candidate left out is no farther than any row kept |
| Geolocation.LocalRidersOfferTheRoute | src/routes/geolocation.ts:101-118 | every local row is priced 0 and lists a non-empty route list, holding the route when one was asked for |
| Geolocation.SelectedPassFilter | src/routes/geolocation.ts:260-262 | sorting and the limit keep only rows that passed the filter |
| Geolocation.UnwoundRoutes | src/routes/geolocation.ts:311-325 | the unwound routes are exactly the routes of drivers with a non-empty route list (and, as intended, the ride type when one is given) |
| Geolocation.MinPrice | src/routes/geolocation.ts:330 | the group's price is one of the prices of that route and present iff the route occurs |
| Geolocation.RouteNames | src/routes/geolocation.ts:328 | the group keys are exactly the route names that occur |
| Geolocation.GroupRoutes | src/routes/geolocation.ts:326-332 | one summary per route name, holding the sum of its views and its lowest price |
| Geolocation.PopularLocationsDistinctAndSorted | src/routes/geolocation.ts:310-349 | popular locations list each route once, most viewed first |
| Geolocation.PopularLocationsSummarise | src/routes/geolocation.ts:326-343 | each popular row is an occurring route with its summed views and minimum price |
| Geolocation.PopularLocationsCoverRoutes | src/routes/geolocation.ts:310-349 | every route name of the kept drivers has a row |
| Geolocation.LocalRideRoutes | src/routes/geolocation.ts:351-369 | exactly the routes of the drivers that offer the route, all of their routes included |
| Geolocation.FirstFastest | src/routes/geolocation.ts:299 | `_.minBy` gives the first element of least duration |
| Geolocation.TimeToLocationOf | src/routes/geolocation.ts:290-308 | blank text and 0 seconds without an answer or with an empty first row; otherwise the fastest element's texts and seconds |
| Geolocation.DriverTimeToLocation | src/routes/geolocation.ts:290-308 | filling the defaults field by field gives the summary above |
| Geolocation.FirstMinimumIsUnique | src/routes/geolocation.ts:299 | there is exactly one first element of least duration |
| Geolocation.WithTimesToLocation | src/routes/geolocation.ts:397-407 | the candidates keep their order and gain only the time and the distance to the location |
| Geolocation.DriversForTrip | src/routes/geolocation.ts:371-410 | at most ten nearby car drivers, those of the `/nearby-riders` query in its order, each with its time and distance to the rider's point |
| Geolocation.LocalCandidatesHaveTheRideType | src/routes/geolocation.ts:68-71 | with the intended ride-type match, every candidate names that ride type |
| Geolocation.LocalRidersHaveTheRideType | src/routes/geolocation.ts:68-71 | with the intended ride-type match, every local row carries that ride type |
| Geolocation.PopularLocationsHaveTheRideType | src/routes/geolocation.ts:313-321 | with the intended ride-type match, every popular location is a route of a driver of that ride type |
| Geolocation.IntendedAvailableRiders | src/routes/geolocation.ts:64-89 | at most ten riders, farthest first, each priced 0 with a non-empty route list and of the ride type when one is given, next to the popular locations, each route once and most viewed first |
| Geolocation.AvailableRiders | src/routes/geolocation.ts:64-89 | 500 exactly when a ride type is given; otherwise at most ten riders, farthest first, each priced 0 with a non-empty route list, next to the popular locations, each route once and most viewed first |
| Geolocation.IntendedLocalTripsForLocation | src/routes/geolocation.ts:91-126 | 500 iff the geocoder fails; otherwise riders that offer the route, of the ride type when one is given, and that route's locations |
| Geolocation.LocalTripsForLocation | src/routes/geolocation.ts:91-126 | 500 iff the geocoder fails; else 500 exactly when a ride type is given; otherwise riders that offer the route, and that route's locations |
| Geolocation.RideTypeSearchFails | src/routes/geolocation.ts:68-71 | a ride-type search answers 500 on both routes, where the intended answer lists riders of that ride type |
| Profiles.ValidateImageFile | src/routes/profile.ts:284-295 | 400 "Missing file!" iff there is no file; 500 iff the upload gives no URL or an empty one; otherwise that URL |
| Profiles.SetTouchesOneSubDocument | src/routes/profile.ts:30-43 | a `$set` replaces only the sub-document it names; trips, routes and every other part stay |
| Profiles.SetProfile | src/routes/profile.ts:129-148 | 404 "Invalid driver provided!" with nothing written, or only that driver's profile changes, by the `$set` |
| Profiles.UpdatePersonalInformation | src/routes/profile.ts:30-61 | the driver's sub-document is set, then the user's first and last names; a missing user gives 404 after the driver's write |
| Profiles.UpdateWithImage | src/routes/profile.ts:63-127 | a failed image check writes nothing; otherwise 404 with nothing written for an unknown driver, else the URL becomes the company logo (bus) or the profile photo (local), then 404 for a missing user or the user's names are written and the driver is answered |
| Profiles.UpdateVehicleInspection | src/routes/profile.ts:175-196 | the image check fails with nothing written; 404 for an unknown driver; otherwise the answer is that driver with only the inspection URL set in its profile, stored at its index |
| Profiles.UpdateVehicleDocuments | src/routes/profile.ts:150-173 | 400 without files, 400 with the schema's issues when a field has no file, 404 for an unknown driver, all with nothing written; otherwise the answer is that driver with only its vehicle documents set, stored at its index |
| Profiles.FindSameRoute | src/routes/profile.ts:205-210 | finds a stored trip with the same origin and destination after lower-casing and trimming, none iff there is none |
| Profiles.AppendTrip | src/routes/profile.ts:216-252 | the trip is appended at the end, earlier trips and every other field stay, and a missing profile becomes exactly that trip |
| Profiles.AddedTripIsDuplicate | src/routes/profile.ts:204-214 | once stored, the same request is a duplicate |
| Profiles.AddTripDetails | src/routes/profile.ts:198-261 | 404 for an unknown driver; 400 "Matching trip with Origin … already exists!" with nothing changed for a duplicate route; otherwise the trip with a fresh id is appended |
| Profiles.PushRoute | src/routes/profile.ts:264-271 | `{route, price}` is appended after the stored routes (or forms a new list), and every other part of the profile stays as it was |
| Profiles.PushRouteTwiceKeepsBoth | src/routes/profile.ts:264-271 | there is no duplicate check: pushing twice stores two copies |
| Profiles.AddRouteDetails | src/routes/profile.ts:263-282 | 404 for an unknown driver, otherwise only that driver's routes grow by the push |
| Users.LinkedUser | src/routes/users.ts:19-35 | a driver's user is found iff a user has the driver's `user` id |
| Users.DriverUsers | src/routes/users.ts:17-39 | the rows are exactly the users some driver points at |
| Users.RegistrationConflicts | src/routes/users.ts:17-52 | the rows are non-empty iff some driver's user has the email or the phone |
| Users.RiderDoesNotBlock | src/routes/users.ts:17-48 | a user no driver points at never blocks a registration |
| Users.RegisteredDriverIsTaken | src/routes/users.ts:54-64 | after a registration its email and phone are taken |
| Users.RegisterDriver | src/routes/users.ts:16-67 | 400 with nothing created when taken; otherwise exactly one user (email, phone, city, hash) and one driver pointing at it with the requested service |
| Users.WithCoords | src/routes/users.ts:70-77 | only `coords` changes; the GeoJSON `location` is not touched |
| Users.WithDeviceToken | src/routes/users.ts:89 | only `deviceToken` changes |
| Users.UpdatesAreIdempotent | src/routes/users.ts:69-98 | repeating either update changes nothing more |
| Users.UpdateLocation | src/routes/users.ts:69-86 | 404 "Invalid user provided" with nothing changed, or only that user's coords change |
| Users.UpdateDeviceToken | src/routes/users.ts:88-98 | 404 with nothing changed, or only that user's token changes |
| Notifications.UserNotifications | src/routes/notifications.ts:11 | exactly the caller's notifications, newest first |
| Notifications.HasUnread | src/routes/notifications.ts:12 | true iff some notification in the list is unread |
| Notifications.HasUnreadIsOwnerScoped | src/routes/notifications.ts:10-14 | the flag is true iff one of the caller's own notifications is unread |
| Notifications.FindOwned | src/routes/notifications.ts:18 | the first notification with that id and owner, none iff there is none |
| Notifications.MarkReadChangesOnlyTheMatch | src/routes/notifications.ts:18-20 | only the caller's notification with that id can change, and it becomes read |
| Notifications.MarkReadIdempotent | src/routes/notifications.ts:18-20 | marking twice equals marking once |
| Notifications.MarkRead | src/routes/notifications.ts:17-27 | 400 "Invalid notification provided" iff the caller owns no such notification; the store becomes the marked list |
| Records.FindUser | src/routes/users.ts:70 | `findById` on users: the first user with the id, none iff there is none |
| Records.FindDriver | src/routes/profile.ts:199 | `findById` on drivers: the first driver with the id, none iff there is none |
| Store.Db.NewId | src/routes/ride.ts:226 | a new record's id is one that no stored user, driver or ride carries |
| Validators.ValidateCarPersonalInformation | src/models/user/types.ts:53-63 | accepted iff the gender is an option, the car seats at least 2, is a 1990 model or newer and has a 6-character plate; each failure under its field and message |
| Validators.ValidatePaymentDetails | src/models/user/types.ts:77-83 | accepted iff the account number has exactly 10 characters |
| Validators.ValidateTripDetails | src/models/user/types.ts:85-99 | accepted iff the price is positive and there is a departure and a return weekday |
| Validators.ValidateRouteDetails | src/models/user/types.ts:101-104 | accepted iff the price is positive |
| Validators.ValidateDriverRegistration | src/models/user/types.ts:106-114 | accepted iff the city is non-empty and the password matches the pattern |
| Validators.ValidateUserRegistration | src/models/user/types.ts:116-120 | accepted iff the name has 3 characters and the password matches |
| Validators.ValidateUserUpdate | src/models/user/types.ts:122-129 | accepted iff both names have 3 characters, each reported with the schema's last-name message |
| Validators.DocumentIssues | src/models/user/types.ts:16-26 | one issue per field without a file: the default wording for an absent field, that field's message for an empty list, and no others |
| Validators.ValidateVehicleDocuments | src/models/user/types.ts:16-26 | accepted iff each of the nine fields is present with a file; an absent field is reported with the default wording ("Required"), an empty list with the field's own message |
| Validators.MissingLicenseExample | src/models/user/types.ts:17 | a request without a `license` field gets only the default-wording issue for `license`, not the license message |
| Validators.ValidateCoordinates | src/models/user/types.ts:28-31 | any latitude and longitude pass |
| Constants.ParseServiceCode | src/utils/constants.ts:17-23 | a code parses iff it is car, bus or local, back to its own value |
| Constants.ServiceCodesRoundTrip | src/utils/constants.ts:17-23 | each service code prints to a distinct listed string and parses back |
| Constants.ClassifyIsExact | src/utils/constants.ts:27 | one pass over the password finds exactly its character classes and length |
| Constants.PasswordCheckMatchesPattern | src/utils/constants.ts:27 | the check accepts iff the password has 8 or more characters, all letters, digits or listed specials, with an upper, a lower, a digit and a special |
| Constants.PasswordAcceptedExample | src/utils/constants.ts:27 | "Passw0rd!" is accepted |
| Constants.PasswordTooShortExample | src/utils/constants.ts:27 | a 7-character password with every class is refused |

## Left out

- Great-circle distance: the distance in meters of a stored point is a parameter, and floating point is modelled by `real`.
- Moment date parsing, formatting and time zones: today's day number, the weekday of a date and the `HH:mm` time are inputs.
- Regular expressions in the ticket filter: matching is a literal, case-insensitive substring test, so metacharacters are not modelled.
- Case folding covers ASCII only; `trim` removes the common JavaScript whitespace characters.
- Mongoose schema behaviour:
  - strict mode would drop `seatNumbers`, the trip fields `originCity` and `destinationCity` (which the trip sub-document schema does not declare, while the ticket filter and the location options read them), and the profile sub-documents the user schema does not declare;
  - of the schema validators, only the Number cast of the ride `price` is modelled;
  - the other validators (required fields, enums, unique indexes) are not modelled.
  The model follows what the handlers write.
- `Rides.BookBus`: the model follows what the handler writes. The ride schema requires a `service` (src/models/ride/schema.ts:12), which the `/bus` create does not set, so in the source that create fails validation and the route answers 500.
- `Rides.BookCar`: the model follows what the handler writes. The `/car` create does not set the required ride `service` either, so in the source it also fails validation with 500, whatever the price.
- `Users.RegisterDriver`: the model follows what the handler writes. The driver schema's `service` is a string enum of the service values (src/models/user/schema.ts:88), while registration passes a service id. In the source, `Driver.create` then fails validation after `User.create` has already stored the user.
- The `validateService` guard on the profile routes (src/middleware/validateService.ts:6-21) is not modelled. It answers 400 when the authenticated driver is on another service than the route's. The `Profiles` methods start after it has passed.
- `Profiles.SetProfile`: for payment details, an unknown driver gets the model's 404. The source's `upsert: true` would create a bare driver instead.
- `Profiles.UpdateVehicleDocuments`: the uploaded URLs are an input; upload failures are not modelled.
- The order MongoDB gives to `$group` results and to equal sort keys is not promised; the model keeps first-appearance and input order.
- `Promise.all` fan-out and the race between reading the booked seats and writing the ride are modelled sequentially.
- External calls are not modelled. The Google distance matrix and geocoder, Cloudinary and Multer, and Expo push appear only as their answers (parameters). Barcodes, e-mail and chat are left out.
- JSON numbers are `int` or `real`: seat numbers, weekdays and capacities are integers.
- Distance-matrix elements are assumed to carry a duration.
- `Users.UpdateLocation` writes `coords`, while the geo search reads `location`; the model keeps that split, and no route here sets `location`.
- `Geolocation.RideCount` counts rides whose own id equals the driver's id, as the lookup is written.
- The zod lengths count characters; JavaScript counts UTF-16 code units.
- The ride tracking, ride history and ride status routes of src/routes/ride.ts are not part of this model.
- `Rides.BookCar`: the model answers a failed price cast with the status 500 and the start of Mongoose's validation message; the rendered value and path that Mongoose appends are not modelled.
- LocalCandidatesAre: with a ride type it states the intended ride-type match, which the source never runs, because that query fails with 500 (see "## Findings").
- UnwoundRoutes: with a ride type it states the intended ride-type match, which the source's `$match` rejects, so the source never unwinds those routes (see "## Findings").
- AvailableRiders: with a ride type, the model answers 500 like the source; the message is the database server's, whose wording the model fixes as "unknown operator: localRideType".
- LocalTripsForLocation: the same holds for a ride type after a successful geocode.
- The location, arrival time and coordinates of a listed ticket come from external calls, so `Rides.AvailableBusTickets` does not model them.
- E-mail syntax, Nigerian phone numbers and ObjectId syntax are checked by libraries, so the validators do not model them.
- JWT authentication, bcrypt and the driver session answer are not part of this model.

## Findings

| source | as written | input that shows it | evidently intended | confidence | as-written member | corrected member |
|---|---|---|---|---|---|---|
| src/routes/geolocation.ts:64-89 | with a `rideType`, the `$match` on `driverDetails.profile.localRidePersonalInformation` and the one in `getPopularLocations` put `localRideType` beside `$exists` in one object; the server rejects that as an unknown operator and the route answers 500 | `POST /available-riders` with any `rideType` | keep only the riders, and the popular routes of drivers, whose local information names that ride type | not executed | Geolocation.AvailableRiders | Geolocation.IntendedAvailableRiders |
| src/routes/geolocation.ts:91-126 | the same object in the riders' `$match` makes the route answer 500 after a successful geocode | `POST /local-trips/location` with a route the geocoder finds and any `rideType` | keep only the riders offering the route whose local information names that ride type | not executed | Geolocation.LocalTripsForLocation | Geolocation.IntendedLocalTripsForLocation |

`Geolocation.RideTypeSearchFails` shows both discrepancies for every input
with a ride type. The intended ride-type match compares the id of the ride
type the driver's local information names. The earlier `$lookup` has by then
replaced that field with the `{ _id, name }` document, so even a separate
equality on the field would never hold. `Geolocation.LocalRidersHaveTheRideType`
and `Geolocation.PopularLocationsHaveTheRideType` prove the intended match.
