/** The MongoDB collections the core reads and writes, as one object whose
    fields the route handlers reassign. `nextId` stands for ObjectId
    generation: every stored id is below it, so the value it holds is unused. */
module Store {
  import opened Common
  import opened Records

  ghost predicate TripIdsBelow(drivers: seq<Driver>, bound: nat) {
    forall i, k :: 0 <= i < |drivers| && drivers[i].profile.Some?
                   && 0 <= k < |drivers[i].profile.value.tripDetails|
                   ==> drivers[i].profile.value.tripDetails[k].id < bound
  }

  /** Replacing one driver by one whose trips are below the bound keeps
      every trip below it. */
  lemma TripIdsBelowReplace(drivers: seq<Driver>, i: int, d: Driver, bound: nat)
    requires TripIdsBelow(drivers, bound) && 0 <= i < |drivers|
    requires d.profile.Some? ==> forall k :: 0 <= k < |d.profile.value.tripDetails| ==> d.profile.value.tripDetails[k].id < bound
    ensures TripIdsBelow(drivers[i := d], bound)
  {
  }

  class Db {
    var users: seq<User>
    var drivers: seq<Driver>
    var services: seq<Service>
    var rideTypes: seq<RideType>
    var reviews: seq<Review>
    var rides: seq<Ride>
    var notifications: seq<Notification>
    var nextId: nat

    /** Every id handed out so far, of a record or of a trip sub-document, is
        below `nextId`. */
    ghost predicate Valid()
      reads this
    {
      && (forall i :: 0 <= i < |users| ==> users[i].id < nextId)
      && (forall i :: 0 <= i < |drivers| ==> drivers[i].id < nextId)
      && TripIdsBelow(drivers, nextId)
      && (forall i :: 0 <= i < |rides| ==> rides[i].id < nextId)
      && (forall i :: 0 <= i < |notifications| ==> notifications[i].id < nextId)
    }

    constructor ()
      ensures Valid()
      ensures users == [] && drivers == [] && services == [] && rideTypes == []
      ensures reviews == [] && rides == [] && notifications == [] && nextId == 0
    {
      users, drivers, services, rideTypes := [], [], [], [];
      reviews, rides, notifications, nextId := [], [], [], 0;
    }

    /** Hands out an id no stored record or trip carries. */
    method NewId() returns (id: Id)
      requires Valid()
      modifies this`nextId
      ensures Valid()
      ensures id == old(nextId) && nextId == id + 1
      ensures forall i :: 0 <= i < |users| ==> users[i].id != id
      ensures forall i :: 0 <= i < |drivers| ==> drivers[i].id != id
      ensures forall i :: 0 <= i < |rides| ==> rides[i].id != id
    {
      id := nextId;
      nextId := nextId + 1;
    }
  }
}
