/** The bus-ticket and booking rules of src/routes/ride.ts: the seat
    inventory of a bus trip, the weekday arithmetic of a ticket's next date,
    the ticket query and its rows, the checks and the record a bus booking
    writes, the car booking, and the bus location lists. Every aggregation
    pipeline is a function of the stored collections; the two bookings are
    methods that append to the ride ledger of the store. */
module Rides {
  import opened Common
  import opened Records
  import opened Store
  import opened Sorting
  import opened Validators
  import Geolocation

  // ---------------------------------------------------------------------
  // Request bodies: busTripSchema and busBookingSchema

  const AT_LEAST_ONE_SEAT_MESSAGE: string := "Please provide at least 1 seat"

  /** A booking names at least one seat, and every seat number is positive. */
  function ValidateBusBooking(seatNumbers: seq<int>): (r: seq<Issue>)
    ensures r == [] <==> |seatNumbers| >= 1 && forall i :: 0 <= i < |seatNumbers| ==> seatNumbers[i] > 0
    ensures Issue("seatNumbers", Some(AT_LEAST_ONE_SEAT_MESSAGE)) in r <==> seatNumbers == []
  {
    Check(|seatNumbers| >= 1, "seatNumbers", Some(AT_LEAST_ONE_SEAT_MESSAGE))
    + Check(forall i :: 0 <= i < |seatNumbers| ==> seatNumbers[i] > 0, "seatNumbers", None)
  }

  /** A ticket query asks for a positive number of seats. */
  function ValidateBusTripQuery(numberOfSeats: real): (r: seq<Issue>)
    ensures r == [] <==> numberOfSeats > 0.0
    ensures r != [] ==> r == [Issue("numberOfSeats", None)]
  {
    Check(numberOfSeats > 0.0, "numberOfSeats", None)
  }

  // ---------------------------------------------------------------------
  // getBookedSeatsInBusTrip

  /** The seats one ride holds on the trip: its seat numbers when it was
      booked on that trip, none otherwise. */
  function SeatsOn(ride: Ride, tripId: Id): seq<int> {
    if ride.busTripId == Some(tripId) then ride.seatNumbers else []
  }

  /** The seat numbers of every ride booked on the trip, in ride order; only
      the trip id is compared, never the date. */
  function BookedSeats(rides: seq<Ride>, tripId: Id): (r: seq<int>)
    ensures (forall i :: 0 <= i < |rides| ==> rides[i].busTripId != Some(tripId)) ==> r == []
  {
    if rides == [] then [] else SeatsOn(rides[0], tripId) + BookedSeats(rides[1..], tripId)
  }

  /** A seat is booked on a trip exactly when some ride on that trip holds it. */
  lemma {:induction false} BookedSeatsMembers(rides: seq<Ride>, tripId: Id, seat: int)
    ensures seat in BookedSeats(rides, tripId) <==>
              exists i :: 0 <= i < |rides| && rides[i].busTripId == Some(tripId) && seat in rides[i].seatNumbers
  {
    if rides != [] {
      BookedSeatsMembers(rides[1..], tripId, seat);
      assert forall i :: 1 <= i < |rides| ==> rides[i] == rides[1..][i - 1];
      if exists i :: 0 <= i < |rides| && rides[i].busTripId == Some(tripId) && seat in rides[i].seatNumbers {
        var i :| 0 <= i < |rides| && rides[i].busTripId == Some(tripId) && seat in rides[i].seatNumbers;
        if i > 0 {
          assert rides[1..][i - 1] == rides[i];
        }
      }
    }
  }

  /** Appending a ride to the ledger appends its seats on the trip. */
  lemma {:induction false} BookedSeatsAppend(rides: seq<Ride>, ride: Ride, tripId: Id)
    ensures BookedSeats(rides + [ride], tripId) == BookedSeats(rides, tripId) + SeatsOn(ride, tripId)
  {
    if rides == [] {
      assert [ride][1..] == [];
    } else {
      assert (rides + [ride])[1..] == rides[1..] + [ride];
      BookedSeatsAppend(rides[1..], ride, tripId);
    }
  }

  /** Appending a bus ride booked on `ticketId` adds its seats to that trip
      and leaves every other trip's seats as they were. */
  lemma BusRideAppend(rides: seq<Ride>, ride: Ride, ticketId: Id)
    requires ride.busTripId == Some(ticketId)
    ensures BookedSeats(rides + [ride], ticketId) == BookedSeats(rides, ticketId) + ride.seatNumbers
    ensures forall t :: t != ticketId ==> BookedSeats(rides + [ride], t) == BookedSeats(rides, t)
  {
    forall t
      ensures BookedSeats(rides + [ride], t) == BookedSeats(rides, t) + SeatsOn(ride, t)
    {
      BookedSeatsAppend(rides, ride, t);
    }
  }

  // ---------------------------------------------------------------------
  // checkUniqueSeatsInBusTripBooking

  /** lodash `difference`: the elements of `a` that are not in `b`, in order,
      duplicates kept. */
  function Difference(a: seq<int>, b: seq<int>): (r: seq<int>)
    ensures forall x :: x in r <==> x in a && x !in b
    ensures |r| == |a| <==> forall i :: 0 <= i < |a| ==> a[i] !in b
  {
    var keep := (x: int) => x !in b;
    FilterKeepsAll(a, keep);
    Filter(a, keep)
  }

  /** lodash `intersection`: the distinct elements of `a` that are also in
      `b`, in order of first appearance in `a`. */
  function Intersection(a: seq<int>, b: seq<int>): (r: seq<int>)
    ensures forall x :: x in r <==> x in a && x in b
    ensures forall i, j :: 0 <= i < j < |r| ==> r[i] != r[j]
    ensures forall i, j :: 0 <= i < j < |r| ==> FirstIndex(a, r[i]) < FirstIndex(a, r[j])
  {
    var kept := Filter(a, (x: int) => x in b);
    var r := Distinct(kept);
    assert forall i, j :: 0 <= i < j < |r| ==> FirstIndex(a, r[i]) < FirstIndex(a, r[j]) by {
      forall i, j | 0 <= i < j < |r|
        ensures FirstIndex(a, r[i]) < FirstIndex(a, r[j])
      {
        FilterKeepsFirstOrder(a, (x: int) => x in b, r[i], r[j]);
      }
    }
    r
  }

  datatype SeatCheck = SeatCheck(status: bool, message: string)

  const ALL_SEATS_AVAILABLE: string := "All seats are available"

  /** The conflict message: the verb is chosen by the length of the joined
      text, not by the number of seats. */
  function UnavailableMessage(seats: seq<int>): string {
    var joined := JoinInts(seats, ",");
    "Seat: " + joined + (if |joined| > 1 then " are" else " is") + " unavailable"
  }

  /** The requested seats pass exactly when none of them is already booked;
      a seat requested twice does not fail the check. On a conflict the
      message lists the conflicting seats once each. */
  function CheckUniqueSeats(seatsToBook: seq<int>, bookedSeats: seq<int>): (r: SeatCheck)
    ensures r.status <==> forall i :: 0 <= i < |seatsToBook| ==> seatsToBook[i] !in bookedSeats
    ensures r.status ==> r.message == ALL_SEATS_AVAILABLE
    ensures !r.status ==> r.message == UnavailableMessage(Intersection(seatsToBook, bookedSeats))
  {
    if |Difference(seatsToBook, bookedSeats)| != |seatsToBook| then
      SeatCheck(false, UnavailableMessage(Intersection(seatsToBook, bookedSeats)))
    else
      SeatCheck(true, ALL_SEATS_AVAILABLE)
  }

  /** One single-digit seat is reported with "is". */
  lemma UnavailableOneDigitExample()
    ensures UnavailableMessage([4]) == "Seat: 4 is unavailable"
  {
    assert NatToString(4) == "4";
    assert JoinInts([4], ",") == "4";
  }

  /** A single two-digit seat is reported with "are", as several seats are. */
  lemma UnavailableTwoDigitExample()
    ensures UnavailableMessage([12]) == "Seat: 12 are unavailable"
  {
    assert NatToString(1) == "1";
    assert NatToString(12) == "12";
    assert JoinInts([12], ",") == "12";
  }

  lemma UnavailableSeveralSeatsExample()
    ensures UnavailableMessage([1, 2]) == "Seat: 1,2 are unavailable"
  {
    assert NatToString(1) == "1" && NatToString(2) == "2";
    var parts := seq(2, i requires 0 <= i < 2 => IntToString([1, 2][i]));
    assert parts == ["1", "2"];
    assert Join(parts, ",") == "1" + "," + Join(["2"], ",");
    assert JoinInts([1, 2], ",") == "1,2";
  }

  /** Requesting the same free seat twice passes. */
  lemma SeatCheckDuplicateRequestExample()
    ensures CheckUniqueSeats([5, 5], [1]).status
  {
  }

  // ---------------------------------------------------------------------
  // getDateFromWeekday

  /** The weekday, 0 = Sunday, of a day counted from 1970-01-01, a Thursday. */
  function Weekday(day: int): (w: int)
    ensures 0 <= w < 7
  {
    (day + 4) % 7
  }

  /** JavaScript `%`: the remainder takes the sign of the dividend. */
  function JsRem(a: int, n: int): (r: int)
    requires n > 0
    ensures a >= 0 ==> 0 <= r < n && r == a % n
    ensures a < 0 ==> -n < r <= 0
  {
    if a >= 0 then a % n else -((-a) % n)
  }

  /** The days to add to today. An argument that is not a number (the ticket
      rows carry none, see TicketOf) makes moment add nothing. */
  function DayOffset(weekday: Option<int>, today: int): int {
    if weekday.None? then 0 else JsRem(weekday.value - Weekday(today) + 7, 7)
  }

  /** For a weekday 0..6 the offset lies in 0..6, lands on that weekday, and
      is 0 (today) when today already is that weekday. */
  lemma NextDateHasWeekday(today: int, w: int)
    requires 0 <= w < 7
    ensures 0 <= DayOffset(Some(w), today) < 7
    ensures Weekday(today + DayOffset(Some(w), today)) == w
    ensures w == Weekday(today) <==> DayOffset(Some(w), today) == 0
  {
    var c := Weekday(today);
    var off := DayOffset(Some(w), today);
    var q := (today + 4) / 7;
    assert today + 4 == 7 * q + c;
    if w >= c {
      assert off == w - c;
      assert today + off + 4 == 7 * q + w;
    } else {
      assert off == w - c + 7;
      assert today + off + 4 == 7 * (q + 1) + w;
    }
  }

  /** `getDateFromWeekday`: moves today's date forward to the next day with
      the given weekday (today itself when it matches). Dates are day numbers;
      their formatting is not modelled. */
  method DateFromWeekday(today: int, weekday: Option<int>) returns (date: int)
    ensures date == today + DayOffset(weekday, today)
    ensures weekday.None? ==> date == today
    ensures weekday.Some? && 0 <= weekday.value < 7 ==>
              today <= date < today + 7 && Weekday(date) == weekday.value
  {
    var day := today;
    if weekday.Some? {
      var currentWeekday := Weekday(day);
      var daysUntilNext := JsRem(weekday.value - currentWeekday + 7, 7);
      day := day + daysUntilNext;
      if 0 <= weekday.value < 7 {
        NextDateHasWeekday(today, weekday.value);
      }
    }
    date := day;
  }

  // ---------------------------------------------------------------------
  // getFiltersForTicketQuery

  /** The body of a ticket query, with the dates already read as weekdays. */
  datatype TicketQuery = TicketQuery(
    origin: string,
    originCity: string,
    destination: string,
    destinationCity: string,
    departureWeekday: int,
    returnWeekday: Option<int>,
    numberOfSeats: real)

  /** One `$elemMatch` leg: the four places contain the query texts ignoring
      case, the trip runs on the weekday, and the bus is large enough. */
  predicate LegMatches(t: Trip, origin: string, originCity: string, destination: string,
                       destinationCity: string, weekday: int, seats: real)
  {
    && ContainsIgnoringCase(t.origin, origin)
    && ContainsIgnoringCase(t.originCity, originCity)
    && ContainsIgnoringCase(t.destination, destination)
    && ContainsIgnoringCase(t.destinationCity, destinationCity)
    && weekday in t.departureDates
    && t.busCapacity as real >= seats
  }

  predicate OutboundMatch(t: Trip, q: TicketQuery) {
    LegMatches(t, q.origin, q.originCity, q.destination, q.destinationCity, q.departureWeekday, q.numberOfSeats)
  }

  /** With a return date: the outbound leg that also returns on that weekday. */
  predicate ReturnMatch(t: Trip, q: TicketQuery) {
    q.returnWeekday.Some? && OutboundMatch(t, q) && q.returnWeekday.value in t.returnDates
  }

  /** With a return date: a trip the other way, leaving on the return weekday. */
  predicate ReverseMatch(t: Trip, q: TicketQuery) {
    && q.returnWeekday.Some?
    && LegMatches(t, q.destination, q.destinationCity, q.origin, q.originCity, q.returnWeekday.value, q.numberOfSeats)
  }

  /** `HasMatchingTrip(trips, q, leg)`: some trip matches leg 0 (outbound),
      1 (return) or 2 (reverse). */
  predicate HasMatchingTrip(trips: seq<Trip>, q: TicketQuery, leg: int) {
    exists k :: 0 <= k < |trips| &&
      (if leg == 0 then OutboundMatch(trips[k], q) else if leg == 1 then ReturnMatch(trips[k], q) else ReverseMatch(trips[k], q))
  }

  /** Which drivers a ticket listing reads: any driver with a profile, or one
      whose profile has a trip matching one of the query's `$or` legs. */
  datatype TicketFilter = AllTickets | Query(q: TicketQuery)

  predicate Selected(d: Driver, f: TicketFilter) {
    && d.profile.Some?
    && (f.Query? ==>
          var trips := d.profile.value.tripDetails;
          || HasMatchingTrip(trips, f.q, 0)
          || (f.q.returnWeekday.Some? && (HasMatchingTrip(trips, f.q, 1) || HasMatchingTrip(trips, f.q, 2))))
  }

  /** The return leg only narrows the outbound leg, so a query selects a
      driver exactly when one of its trips matches outbound or reversed. */
  lemma ReturnLegAddsNothing(d: Driver, q: TicketQuery)
    ensures Selected(d, Query(q)) <==>
              d.profile.Some? &&
              exists k :: 0 <= k < |d.profile.value.tripDetails| &&
                (OutboundMatch(d.profile.value.tripDetails[k], q) || ReverseMatch(d.profile.value.tripDetails[k], q))
  {
    if Selected(d, Query(q)) {
      var trips := d.profile.value.tripDetails;
      if HasMatchingTrip(trips, q, 1) {
        var k :| 0 <= k < |trips| && ReturnMatch(trips[k], q);
        assert OutboundMatch(trips[k], q);
      }
    }
  }

  // ---------------------------------------------------------------------
  // generateTicketQuery

  datatype TicketDetails = TicketDetails(
    ticketId: Id,
    logo: Option<string>,
    seatCount: int,
    price: real,
    departureTime: string,
    returnDate: seq<int>,
    returnTime: string)

  /** A ticket row. Its details carry no departure weekday. */
  datatype TicketRow = TicketRow(
    origin: string, originCity: string, destination: string, destinationCity: string, details: TicketDetails)

  /** The price of one seat: half the trip price for a round trip. */
  function TicketPrice(t: Trip): (p: real)
    ensures t.isRoundTrip ==> p * 2.0 == t.price
    ensures !t.isRoundTrip ==> p == t.price
  {
    if t.isRoundTrip then t.price / 2.0 else t.price
  }

  function CompanyLogo(d: Driver): Option<string> {
    if d.profile.Some? && d.profile.value.busPersonalInformation.Some? then
      Some(d.profile.value.busPersonalInformation.value.companyLogo)
    else None
  }

  function TicketRowOf(d: Driver, t: Trip): TicketRow {
    TicketRow(t.origin, t.originCity, t.destination, t.destinationCity,
      TicketDetails(t.id, CompanyLogo(d), t.busCapacity, TicketPrice(t), t.departureTime, t.returnDates, t.returnTime))
  }

  /** The two `$unwind` stages: one row per trip and weekday; a trip without
      weekdays yields none. */
  function TripRows(d: Driver, trips: seq<Trip>): seq<TicketRow> {
    if trips == [] then []
    else seq(|trips[0].departureDates|, _ => TicketRowOf(d, trips[0])) + TripRows(d, trips[1..])
  }

  /** The rows of every selected driver. The match selects drivers, not
      trips: every trip of a selected driver is listed. */
  function TicketRows(drivers: seq<Driver>, f: TicketFilter): seq<TicketRow> {
    if drivers == [] then []
    else
      (if Selected(drivers[0], f) then TripRows(drivers[0], drivers[0].profile.value.tripDetails) else [])
      + TicketRows(drivers[1..], f)
  }

  /** The number of scheduled departures: the weekdays of all trips. */
  function Departures(trips: seq<Trip>): nat {
    if trips == [] then 0 else |trips[0].departureDates| + Departures(trips[1..])
  }

  lemma {:induction false} TripRowsCount(d: Driver, trips: seq<Trip>)
    ensures |TripRows(d, trips)| == Departures(trips)
  {
    if trips != [] {
      TripRowsCount(d, trips[1..]);
    }
  }

  lemma {:induction false} TripRowsMembers(d: Driver, trips: seq<Trip>, x: TicketRow)
    ensures x in TripRows(d, trips) <==>
              exists k :: 0 <= k < |trips| && trips[k].departureDates != [] && x == TicketRowOf(d, trips[k])
  {
    if trips != [] {
      TripRowsMembers(d, trips[1..], x);
      var head := seq(|trips[0].departureDates|, _ => TicketRowOf(d, trips[0]));
      assert TripRows(d, trips) == head + TripRows(d, trips[1..]);
      assert forall k :: 1 <= k < |trips| ==> trips[k] == trips[1..][k - 1];
      if x in TripRows(d, trips) && x in head {
        assert trips[0].departureDates != [] && x == TicketRowOf(d, trips[0]);
      }
      if exists k :: 0 <= k < |trips| && trips[k].departureDates != [] && x == TicketRowOf(d, trips[k]) {
        var k :| 0 <= k < |trips| && trips[k].departureDates != [] && x == TicketRowOf(d, trips[k]);
        if k == 0 {
          assert head[0] == x;
        } else {
          assert trips[1..][k - 1] == trips[k];
        }
      }
    }
  }

  /** A row is listed exactly when it belongs to a selected driver. */
  lemma {:induction false} TicketRowsMembers(drivers: seq<Driver>, f: TicketFilter, x: TicketRow)
    ensures x in TicketRows(drivers, f) <==>
              exists i :: 0 <= i < |drivers| && Selected(drivers[i], f)
                          && x in TripRows(drivers[i], drivers[i].profile.value.tripDetails)
  {
    if drivers != [] {
      TicketRowsMembers(drivers[1..], f, x);
      assert forall i :: 1 <= i < |drivers| ==> drivers[i] == drivers[1..][i - 1];
      if exists i :: 0 <= i < |drivers| && Selected(drivers[i], f)
                     && x in TripRows(drivers[i], drivers[i].profile.value.tripDetails) {
        var i :| 0 <= i < |drivers| && Selected(drivers[i], f)
                 && x in TripRows(drivers[i], drivers[i].profile.value.tripDetails);
        if i > 0 {
          assert drivers[1..][i - 1] == drivers[i];
        }
      }
    }
  }

  /** Every scheduled trip of a selected driver is listed, at its seat price,
      whether or not that trip itself matches the query. */
  lemma TicketRowsListEveryTrip(drivers: seq<Driver>, f: TicketFilter, i: int, k: int)
    requires 0 <= i < |drivers| && Selected(drivers[i], f)
    requires 0 <= k < |drivers[i].profile.value.tripDetails|
    requires drivers[i].profile.value.tripDetails[k].departureDates != []
    ensures TicketRowOf(drivers[i], drivers[i].profile.value.tripDetails[k]) in TicketRows(drivers, f)
    ensures TicketRowOf(drivers[i], drivers[i].profile.value.tripDetails[k]).details.price
            == TicketPrice(drivers[i].profile.value.tripDetails[k])
  {
    var trips := drivers[i].profile.value.tripDetails;
    TripRowsMembers(drivers[i], trips, TicketRowOf(drivers[i], trips[k]));
    TicketRowsMembers(drivers, f, TicketRowOf(drivers[i], trips[k]));
  }

  // ---------------------------------------------------------------------
  // getAvailableBusTickets and the two ticket routes

  /** A listed ticket: the row, the seats booked on its trip and the date the
      row's departure weekday leads to. */
  datatype Ticket = Ticket(row: TicketRow, bookedSeats: seq<int>, departureDate: int)

  /** The rows have no departure weekday, so the date lookup is given none. */
  function TicketOf(row: TicketRow, rides: seq<Ride>, today: int): Ticket {
    Ticket(row, BookedSeats(rides, row.details.ticketId), today + DayOffset(None, today))
  }

  /** Every listed ticket, in row order, carries its trip's booked seats and
      today's date; directions, arrival time and coordinates come from the
      mapping service and are not part of this model. */
  function AvailableBusTickets(drivers: seq<Driver>, rides: seq<Ride>, f: TicketFilter, today: int): (r: seq<Ticket>)
    ensures |r| == |TicketRows(drivers, f)|
    ensures forall i :: 0 <= i < |r| ==>
              && r[i].row == TicketRows(drivers, f)[i]
              && r[i].bookedSeats == BookedSeats(rides, r[i].row.details.ticketId)
              && r[i].departureDate == today
  {
    MapSeq(TicketRows(drivers, f), (row: TicketRow) => TicketOf(row, rides, today))
  }

  const NO_TICKETS_MESSAGE: string := "No available tickets!"

  /** `/bus/tickets/query`: 404 when no row is listed. */
  function QueryBusTickets(drivers: seq<Driver>, rides: seq<Ride>, q: TicketQuery, today: int): (r: Outcome<seq<Ticket>>)
    ensures r.Fail? <==> TicketRows(drivers, Query(q)) == []
    ensures r.Fail? ==> r == Fail(NOT_FOUND, NO_TICKETS_MESSAGE)
    ensures r.Ok? ==> r.value == AvailableBusTickets(drivers, rides, Query(q), today)
  {
    var tickets := AvailableBusTickets(drivers, rides, Query(q), today);
    if |tickets| == 0 then Fail(NOT_FOUND, NO_TICKETS_MESSAGE) else Ok(tickets)
  }

  /** A driver with a trip matching the outbound leg makes the query succeed. */
  lemma QueryFindsOutboundTrip(drivers: seq<Driver>, rides: seq<Ride>, q: TicketQuery, today: int, i: int, k: int)
    requires 0 <= i < |drivers| && drivers[i].profile.Some?
    requires 0 <= k < |drivers[i].profile.value.tripDetails|
    requires OutboundMatch(drivers[i].profile.value.tripDetails[k], q)
    ensures QueryBusTickets(drivers, rides, q, today).Ok?
  {
    var trips := drivers[i].profile.value.tripDetails;
    assert HasMatchingTrip(trips, q, 0);
    assert q.departureWeekday in trips[k].departureDates;
    TicketRowsListEveryTrip(drivers, Query(q), i, k);
  }

  // ---------------------------------------------------------------------
  // getBusTripDetailsForBooking

  datatype BookingDetails = BookingDetails(driverId: Id, trip: Trip, availableSeats: int)

  const INVALID_TICKET_MESSAGE: string := "Invalid ticket details provided!"
  const FEWER_SEATS_MESSAGE: string := "Please select fewer seats!"

  /** The trip sub-document with the ticket id that runs on the weekday at
      the `HH:mm` time. */
  predicate RunsAt(t: Trip, tripId: Id, weekday: int, time: string) {
    t.id == tripId && weekday in t.departureDates && t.departureTime == time
  }

  predicate OffersTrip(d: Driver, tripId: Id, weekday: int, time: string) {
    d.profile.Some? &&
    exists k :: 0 <= k < |d.profile.value.tripDetails| && RunsAt(d.profile.value.tripDetails[k], tripId, weekday, time)
  }

  /** The first trip with the id (the `$filter` on `_id`). */
  function TripWithId(trips: seq<Trip>, tripId: Id): (r: Option<Trip>)
    ensures r.Some? ==> r.value in trips && r.value.id == tripId
    ensures r.None? <==> forall k :: 0 <= k < |trips| ==> trips[k].id != tripId
  {
    if trips == [] then None
    else if trips[0].id == tripId then Some(trips[0])
    else TripWithId(trips[1..], tripId)
  }

  /** The index of the first driver whose trips include the schedule (the
      first result of the aggregate), or None when no driver offers it. */
  function FirstOffering(drivers: seq<Driver>, tripId: Id, weekday: int, time: string): (j: Option<nat>)
    ensures j.None? <==> forall i :: 0 <= i < |drivers| ==> !OffersTrip(drivers[i], tripId, weekday, time)
    ensures j.Some? ==> && j.value < |drivers| && OffersTrip(drivers[j.value], tripId, weekday, time)
                        && forall i :: 0 <= i < j.value ==> !OffersTrip(drivers[i], tripId, weekday, time)
  {
    if drivers == [] then None
    else if OffersTrip(drivers[0], tripId, weekday, time) then Some(0)
    else
      var j := FirstOffering(drivers[1..], tripId, weekday, time);
      assert forall i :: 1 <= i < |drivers| ==> drivers[i] == drivers[1..][i - 1];
      if j.None? then None else Some(j.value + 1)
  }

  /** The trip sub-document the `$filter` on the ticket id keeps for a driver
      that offers the schedule. */
  function OfferedTrip(d: Driver, tripId: Id, weekday: int, time: string): (t: Trip)
    requires OffersTrip(d, tripId, weekday, time)
    ensures t in d.profile.value.tripDetails && t.id == tripId
  {
    var k :| 0 <= k < |d.profile.value.tripDetails| && RunsAt(d.profile.value.tripDetails[k], tripId, weekday, time);
    TripWithId(d.profile.value.tripDetails, tripId).value
  }

  /** The trip of the first driver offering the schedule, or the first
      failure: no driver offers it (400, invalid ticket), or the bus already
      has more booked seats than it holds (400, fewer seats). The seats now
      requested are not counted. */
  function BusTripDetailsForBooking(drivers: seq<Driver>, tripId: Id, weekday: int, time: string, booked: seq<int>)
    : (r: Outcome<BookingDetails>)
    ensures r.Fail? ==> r.status == BAD_REQUEST
    ensures r == Fail(BAD_REQUEST, INVALID_TICKET_MESSAGE) <==>
              forall i :: 0 <= i < |drivers| ==> !OffersTrip(drivers[i], tripId, weekday, time)
    ensures r.Fail? && r.message == FEWER_SEATS_MESSAGE ==>
              exists i :: 0 <= i < |drivers| && OffersTrip(drivers[i], tripId, weekday, time)
                          && exists t :: t in drivers[i].profile.value.tripDetails && t.id == tripId
                                         && t.busCapacity < |booked|
    ensures r.Ok? ==>
              && r.value.trip.id == tripId
              && r.value.availableSeats == r.value.trip.busCapacity - |booked| >= 0
              && exists i :: 0 <= i < |drivers| && drivers[i].id == r.value.driverId
                             && OffersTrip(drivers[i], tripId, weekday, time)
                             && r.value.trip in drivers[i].profile.value.tripDetails
    ensures r.Fail? ==> r.message == INVALID_TICKET_MESSAGE || r.message == FEWER_SEATS_MESSAGE
  {
    if drivers == [] then Fail(BAD_REQUEST, INVALID_TICKET_MESSAGE)
    else if OffersTrip(drivers[0], tripId, weekday, time) then
      var t := OfferedTrip(drivers[0], tripId, weekday, time);
      if t.busCapacity - |booked| < 0 then Fail(BAD_REQUEST, FEWER_SEATS_MESSAGE)
      else Ok(BookingDetails(drivers[0].id, t, t.busCapacity - |booked|))
    else
      var r := BusTripDetailsForBooking(drivers[1..], tripId, weekday, time, booked);
      assert forall i :: 1 <= i < |drivers| ==> drivers[i] == drivers[1..][i - 1];
      r
  }

  /** The details come from the first driver offering the schedule: its trip
      with the ticket id, accepted exactly when the bus holds the seats
      already booked. */
  lemma {:induction false} BusTripDetailsOfFirstOffering(drivers: seq<Driver>, tripId: Id, weekday: int, time: string,
                                                         booked: seq<int>)
    requires FirstOffering(drivers, tripId, weekday, time).Some?
    ensures var j := FirstOffering(drivers, tripId, weekday, time).value;
            var t := OfferedTrip(drivers[j], tripId, weekday, time);
            var r := BusTripDetailsForBooking(drivers, tripId, weekday, time, booked);
            && (r.Ok? <==> t.busCapacity >= |booked|)
            && (r.Fail? ==> r == Fail(BAD_REQUEST, FEWER_SEATS_MESSAGE))
            && (r.Ok? ==> r.value == BookingDetails(drivers[j].id, t, t.busCapacity - |booked|))
  {
    if !OffersTrip(drivers[0], tripId, weekday, time) {
      BusTripDetailsOfFirstOffering(drivers[1..], tripId, weekday, time, booked);
      assert drivers[1..][FirstOffering(drivers[1..], tripId, weekday, time).value]
          == drivers[FirstOffering(drivers, tripId, weekday, time).value];
    }
  }

  // ---------------------------------------------------------------------
  // POST /bus

  /** The checks `/bus` makes before it writes: the seat check against the
      seats already booked on the ticket, then the schedule and capacity. */
  function BusBookingCheck(drivers: seq<Driver>, rides: seq<Ride>, ticketId: Id, seatNumbers: seq<int>,
                           weekday: int, time: string): (r: Outcome<BookingDetails>)
    ensures r.Fail? ==> r.status == BAD_REQUEST
    ensures r.Ok? <==>
              && (forall i :: 0 <= i < |seatNumbers| ==> seatNumbers[i] !in BookedSeats(rides, ticketId))
              && BusTripDetailsForBooking(drivers, ticketId, weekday, time, BookedSeats(rides, ticketId)).Ok?
  {
    var booked := BookedSeats(rides, ticketId);
    var check := CheckUniqueSeats(seatNumbers, booked);
    if !check.status then Fail(BAD_REQUEST, check.message)
    else BusTripDetailsForBooking(drivers, ticketId, weekday, time, booked)
  }

  /** The ride a bus booking writes. Its `driver` and `busTripId` are both the
      trip's id; the addresses are "<city>, <place>" at coordinates 0, 0; the
      price is the seat price times the number of seats. */
  function BusRide(id: Id, userId: Id, trip: Trip, seatNumbers: seq<int>, departure: Instant): Ride {
    Ride(
      id, trip.id, userId,
      Address(trip.originCity + ", " + trip.origin, 0.0, 0.0),
      Address(trip.destinationCity + ", " + trip.destination, 0.0, 0.0),
      PaymentPending, RidePending, Some(trip.id), departure, seatNumbers,
      Amount(TicketPrice(trip) * |seatNumbers| as real))
  }

  /** `POST /bus`: on a passing check, appends the booking to the ride
      ledger; otherwise answers 400 and writes nothing. */
  method BookBus(db: Db, userId: Id, ticketId: Id, seatNumbers: seq<int>, weekday: int, time: string,
                 departure: Instant) returns (r: Outcome<Ride>)
    requires db.Valid()
    modifies db`rides, db`nextId
    ensures db.Valid()
    ensures var check := BusBookingCheck(db.drivers, old(db.rides), ticketId, seatNumbers, weekday, time);
            && (check.Fail? ==> r == Fail(check.status, check.message) && db.rides == old(db.rides))
            && (check.Ok? ==>
                  && r == Ok(BusRide(old(db.nextId), userId, check.value.trip, seatNumbers, departure))
                  && db.rides == old(db.rides) + [r.value])
    ensures r.Ok? ==> BookedSeats(db.rides, ticketId) == BookedSeats(old(db.rides), ticketId) + seatNumbers
    ensures forall t :: t != ticketId ==> BookedSeats(db.rides, t) == BookedSeats(old(db.rides), t)
  {
    var check := BusBookingCheck(db.drivers, db.rides, ticketId, seatNumbers, weekday, time);
    if check.Fail? {
      return Fail(check.status, check.message);
    }
    BusRideAppend(db.rides, BusRide(db.nextId, userId, check.value.trip, seatNumbers, departure), ticketId);
    var ride := StoreBusRide(db, userId, check.value.trip, seatNumbers, departure);
    r := Ok(ride);
  }

  /** Writes the bus ride under a fresh id. */
  method StoreBusRide(db: Db, userId: Id, trip: Trip, seatNumbers: seq<int>, departure: Instant)
    returns (ride: Ride)
    requires db.Valid()
    modifies db`rides, db`nextId
    ensures db.Valid()
    ensures ride == BusRide(old(db.nextId), userId, trip, seatNumbers, departure)
    ensures db.rides == old(db.rides) + [ride]
  {
    var id := db.NewId();
    ride := BusRide(id, userId, trip, seatNumbers, departure);
    db.rides := db.rides + [ride];
  }

  /** Once booked, a seat stays taken: any later request that names it fails
      the seat check. */
  lemma BookedSeatStaysTaken(rides: seq<Ride>, ride: Ride, ticketId: Id, request: seq<int>, seat: int)
    requires ride.busTripId == Some(ticketId) && seat in ride.seatNumbers && seat in request
    ensures !CheckUniqueSeats(request, BookedSeats(rides + [ride], ticketId)).status
  {
    BookedSeatsAppend(rides, ride, ticketId);
    var i :| 0 <= i < |request| && request[i] == seat;
  }

  // ---------------------------------------------------------------------
  // POST /car

  const DRIVER_NOT_FOUND_MESSAGE: string := "Driver does not exist!"

  /** The driver `/car` books: the first with the id and a profile whose
      service and user both exist (each `$unwind` drops a missing one). */
  function CarBookingDriver(drivers: seq<Driver>, services: seq<Service>, users: seq<User>, driverId: Id)
    : (r: Option<Driver>)
    ensures r.Some? ==>
              && r.value in drivers && r.value.id == driverId && r.value.profile.Some?
              && Geolocation.ServiceById(services, r.value.service).Some?
              && FindUser(users, r.value.user).Some?
    ensures r.None? <==>
              forall i :: 0 <= i < |drivers| && drivers[i].id == driverId && drivers[i].profile.Some? ==>
                Geolocation.ServiceById(services, drivers[i].service).None? || FindUser(users, drivers[i].user).None?
  {
    if drivers == [] then None
    else
      var d := drivers[0];
      if d.id == driverId && d.profile.Some?
         && Geolocation.ServiceById(services, d.service).Some? && FindUser(users, d.user).Some?
      then Some(d)
      else
        var r := CarBookingDriver(drivers[1..], services, users, driverId);
        assert forall i :: 1 <= i < |drivers| ==> drivers[i] == drivers[1..][i - 1];
        r
  }

  /** MongoDB `$ifNull` over several expressions: the first that is present. */
  function IfNull<T>(xs: seq<Option<T>>): (r: Option<T>)
    ensures r.None? <==> forall k :: 0 <= k < |xs| ==> xs[k].None?
    ensures r.Some? ==> exists k :: 0 <= k < |xs| && xs[k] == r && forall j :: 0 <= j < k ==> xs[j].None?
  {
    if xs == [] then None
    else if xs[0].Some? then xs[0]
    else
      var r := IfNull(xs[1..]);
      assert forall k :: 1 <= k < |xs| ==> xs[k] == xs[1..][k - 1];
      assert r.Some? ==> exists k :: 0 <= k < |xs| && xs[k] == r && forall j :: 0 <= j < k ==> xs[j].None? by {
        if r.Some? {
          var k :| 0 <= k < |xs[1..]| && xs[1..][k] == r && forall j :: 0 <= j < k ==> xs[1..][j].None?;
          assert xs[k + 1] == r;
        }
      }
      r
  }

  /** The image `/car` projects: the vehicle's display photo, else the bus
      company logo, else the profile photo. */
  function CarBookingImage(p: Profile): (r: Option<string>)
    ensures r.None? <==>
              p.vehicleDocuments.None? && p.busPersonalInformation.None? && p.profilePhotoUrl.None?
    ensures p.vehicleDocuments.Some? ==> r == Some(p.vehicleDocuments.value.display)
    ensures p.vehicleDocuments.None? && p.busPersonalInformation.Some? ==>
              r == Some(p.busPersonalInformation.value.companyLogo)
  {
    var display := if p.vehicleDocuments.Some? then Some(p.vehicleDocuments.value.display) else None;
    var logo := if p.busPersonalInformation.Some? then Some(p.busPersonalInformation.value.companyLogo) else None;
    var xs := [display, logo, p.profilePhotoUrl];
    var r := IfNull(xs);
    assert xs[0] == display && xs[1] == logo && xs[2] == p.profilePhotoUrl;
    assert r.Some? ==> exists k :: 0 <= k < |xs| && xs[k] == r && forall j :: 0 <= j < k ==> xs[j].None?;
    assert display.Some? ==> r == display by {
      if display.Some? {
        var k :| 0 <= k < |xs| && xs[k] == r && forall j :: 0 <= j < k ==> xs[j].None?;
        assert k == 0;
      }
    }
    assert display.None? && logo.Some? ==> r == logo by {
      if display.None? && logo.Some? {
        var k :| 0 <= k < |xs| && xs[k] == r && forall j :: 0 <= j < k ==> xs[j].None?;
        assert k == 1;
      }
    }
    r
  }

  /** Mongoose casts the `price` it is given to the schema's Number: a
      number passes and an absent value stays absent, while an array or a
      sub-document is rejected and the create fails. */
  predicate CastsToNumber(p: PriceValue) {
    p.Amount? || p.NoPrice?
  }

  /** The start of the validation error the failed cast raises. */
  const PRICE_CAST_FAILED_MESSAGE: string := "Ride validation failed: price: Cast to Number failed"

  /** A joined `/car` driver's price casts exactly when the profile has
      neither a route list nor a trip, and then it is the fallback 0. */
  lemma CarPriceCasts(p: Profile)
    ensures CastsToNumber(Geolocation.CarPrice(Some(p))) <==> p.routeDetails.None? && p.tripDetails == []
    ensures CastsToNumber(Geolocation.CarPrice(Some(p))) ==> Geolocation.CarPrice(Some(p)) == Amount(0.0)
  {
  }

  /** The ride a car booking writes, priced by the car price rule. */
  function CarRide(id: Id, d: Driver, userId: Id, from: Address, to: Address, now: Instant): Ride {
    Ride(id, d.id, userId, from, to, PaymentPending, RidePending, None, now, [], Geolocation.CarPrice(d.profile))
  }

  /** `POST /car`: 404 and nothing written when the driver cannot be joined;
      500 and nothing written when the projected price does not cast to a
      number; otherwise the booking is appended to the ride ledger. A car
      booking holds no bus seats. */
  method BookCar(db: Db, userId: Id, driverId: Id, from: Address, to: Address, now: Instant)
    returns (r: Outcome<Ride>)
    requires db.Valid()
    modifies db`rides, db`nextId
    ensures db.Valid()
    ensures var d := CarBookingDriver(db.drivers, db.services, db.users, driverId);
            && (d.None? ==> r == Fail(NOT_FOUND, DRIVER_NOT_FOUND_MESSAGE) && db.rides == old(db.rides))
            && (d.Some? && !CastsToNumber(Geolocation.CarPrice(d.value.profile)) ==>
                  r == Fail(INTERNAL_SERVER_ERROR, PRICE_CAST_FAILED_MESSAGE) && db.rides == old(db.rides))
            && (d.Some? && CastsToNumber(Geolocation.CarPrice(d.value.profile)) ==>
                  && r == Ok(CarRide(old(db.nextId), d.value, userId, from, to, now))
                  && r.value.price == Amount(0.0)
                  && db.rides == old(db.rides) + [r.value])
    ensures forall t :: BookedSeats(db.rides, t) == BookedSeats(old(db.rides), t)
  {
    var d := CarBookingDriver(db.drivers, db.services, db.users, driverId);
    if d.None? {
      return Fail(NOT_FOUND, DRIVER_NOT_FOUND_MESSAGE);
    }
    if !CastsToNumber(Geolocation.CarPrice(d.value.profile)) {
      return Fail(INTERNAL_SERVER_ERROR, PRICE_CAST_FAILED_MESSAGE);
    }
    CarPriceCasts(d.value.profile.value);
    var id := db.NewId();
    var ride := CarRide(id, d.value, userId, from, to, now);
    forall t
      ensures BookedSeats(db.rides + [ride], t) == BookedSeats(db.rides, t)
    {
      BookedSeatsAppend(db.rides, ride, t);
    }
    db.rides := db.rides + [ride];
    r := Ok(ride);
  }

  // ---------------------------------------------------------------------
  // GET /bus/locations

  datatype LocationOption = LocationOption(labelText: string, value: string)

  /** `{ label: "<place> -- <city>", value: "<city>" }`; the label is held
      in `labelText`. */
  function LocationOf(place: string, city: string): LocationOption {
    LocationOption(place + " -- " + city, city)
  }

  /** Different (place, city) pairs give different options. */
  lemma LocationOfInjective(a: string, b: string, c: string, d: string)
    requires LocationOf(a, b) == LocationOf(c, d)
    ensures a == c && b == d
  {
    var la := LocationOf(a, b).labelText;
    assert b == d;
    assert la[..|a|] == a;
    assert |a| == |c|;
    assert la[..|c|] == c;
  }

  /** `Service.findOne({ code: 'bus' })`: the first bus service. */
  function BusService(services: seq<Service>): (r: Option<Service>)
    ensures r.Some? ==> r.value in services && r.value.code == "bus"
    ensures r.None? <==> forall s :: s in services ==> s.code != "bus"
  {
    if services == [] then None
    else if services[0].code == "bus" then Some(services[0])
    else BusService(services[1..])
  }

  /** The trips of the drivers of the service that have a profile (the
      `$match` and `$unwind` stages). */
  function BusTrips(drivers: seq<Driver>, serviceId: Id): seq<Trip> {
    if drivers == [] then []
    else
      (if drivers[0].service == serviceId && drivers[0].profile.Some? then drivers[0].profile.value.tripDetails else [])
      + BusTrips(drivers[1..], serviceId)
  }

  lemma {:induction false} BusTripsMembers(drivers: seq<Driver>, serviceId: Id, t: Trip)
    ensures t in BusTrips(drivers, serviceId) <==>
              exists i :: 0 <= i < |drivers| && drivers[i].service == serviceId && drivers[i].profile.Some?
                          && t in drivers[i].profile.value.tripDetails
  {
    if drivers != [] {
      BusTripsMembers(drivers[1..], serviceId, t);
      assert forall i :: 1 <= i < |drivers| ==> drivers[i] == drivers[1..][i - 1];
      if exists i :: 0 <= i < |drivers| && drivers[i].service == serviceId && drivers[i].profile.Some?
                     && t in drivers[i].profile.value.tripDetails {
        var i :| 0 <= i < |drivers| && drivers[i].service == serviceId && drivers[i].profile.Some?
                 && t in drivers[i].profile.value.tripDetails;
        if i > 0 {
          assert drivers[1..][i - 1] == drivers[i];
        }
      }
    }
  }

  function OriginPair(t: Trip): (string, string) { (t.origin, t.originCity) }
  function DestinationPair(t: Trip): (string, string) { (t.destination, t.destinationCity) }

  /** A `$group` on the pair followed by the label projection. */
  function LocationOptions(pairs: seq<(string, string)>): (r: seq<LocationOption>)
    ensures forall o :: o in r <==> exists k :: 0 <= k < |pairs| && o == LocationOf(pairs[k].0, pairs[k].1)
    ensures forall i, j :: 0 <= i < j < |r| ==> r[i] != r[j]
  {
    var keys := Distinct(pairs);
    var r := MapSeq(keys, (p: (string, string)) => LocationOf(p.0, p.1));
    forall o | o in r
      ensures exists k :: 0 <= k < |pairs| && o == LocationOf(pairs[k].0, pairs[k].1)
    {
      var i :| 0 <= i < |r| && r[i] == o;
      assert keys[i] in pairs;
      var k :| 0 <= k < |pairs| && pairs[k] == keys[i];
    }
    forall o | exists k :: 0 <= k < |pairs| && o == LocationOf(pairs[k].0, pairs[k].1)
      ensures o in r
    {
      var k :| 0 <= k < |pairs| && o == LocationOf(pairs[k].0, pairs[k].1);
      assert pairs[k] in keys;
      var i :| 0 <= i < |keys| && keys[i] == pairs[k];
      assert r[i] == o;
    }
    forall i, j | 0 <= i < j < |r|
      ensures r[i] != r[j]
    {
      if r[i] == r[j] {
        LocationOfInjective(keys[i].0, keys[i].1, keys[j].0, keys[j].1);
        assert false;
      }
    }
    r
  }

  /** The origin options: one per distinct (origin, originCity) of the trips. */
  function Origins(trips: seq<Trip>): (r: seq<LocationOption>)
    ensures forall o :: o in r <==> exists k :: 0 <= k < |trips| && o == LocationOf(trips[k].origin, trips[k].originCity)
    ensures forall i, j :: 0 <= i < j < |r| ==> r[i] != r[j]
  {
    var pairs := MapSeq(trips, OriginPair);
    assert forall k :: 0 <= k < |trips| ==> pairs[k] == (trips[k].origin, trips[k].originCity);
    LocationOptions(pairs)
  }

  /** The destination options: one per distinct (destination,
      destinationCity) of the trips. */
  function Destinations(trips: seq<Trip>): (r: seq<LocationOption>)
    ensures forall o :: o in r <==>
              exists k :: 0 <= k < |trips| && o == LocationOf(trips[k].destination, trips[k].destinationCity)
    ensures forall i, j :: 0 <= i < j < |r| ==> r[i] != r[j]
  {
    var pairs := MapSeq(trips, DestinationPair);
    assert forall k :: 0 <= k < |trips| ==> pairs[k] == (trips[k].destination, trips[k].destinationCity);
    LocationOptions(pairs)
  }

  datatype BusLocationLists = BusLocationLists(origins: seq<LocationOption>, destinations: seq<LocationOption>)

  const SOMETHING_FAILED_MESSAGE: string := "Something failed!"

  function Label(o: LocationOption): string { o.labelText }

  /** `GET /bus/locations`: 500 without a bus service; otherwise the distinct
      origins and the distinct destinations of the bus trips, the
      destinations sorted by label. */
  function BusLocations(services: seq<Service>, drivers: seq<Driver>): (r: Outcome<BusLocationLists>)
    ensures r.Fail? <==> forall s :: s in services ==> s.code != "bus"
    ensures r.Fail? ==> r == Fail(INTERNAL_SERVER_ERROR, SOMETHING_FAILED_MESSAGE)
    ensures r.Ok? ==>
              var trips := BusTrips(drivers, BusService(services).value.id);
              && r.value.origins == Origins(trips)
              && SortedAsc(r.value.destinations, Label)
              && multiset(r.value.destinations) == multiset(Destinations(trips))
  {
    match BusService(services)
    case None => Fail(INTERNAL_SERVER_ERROR, SOMETHING_FAILED_MESSAGE)
    case Some(bus) =>
      var trips := BusTrips(drivers, bus.id);
      Ok(BusLocationLists(Origins(trips), SortAsc(Destinations(trips), Label)))
  }

  /** The sorted destination list still holds one option per distinct
      (destination, destinationCity) of the bus trips, and nothing else. */
  lemma BusDestinationsListEveryPlace(services: seq<Service>, drivers: seq<Driver>)
    requires BusLocations(services, drivers).Ok?
    ensures var dests := BusLocations(services, drivers).value.destinations;
            var trips := BusTrips(drivers, BusService(services).value.id);
            && (forall o :: o in dests <==>
                  exists k :: 0 <= k < |trips| && o == LocationOf(trips[k].destination, trips[k].destinationCity))
            && (forall i, j :: 0 <= i < j < |dests| ==> dests[i] != dests[j])
  {
    var trips := BusTrips(drivers, BusService(services).value.id);
    PermutationKeepsDistinct(Destinations(trips), BusLocations(services, drivers).value.destinations);
  }
}
