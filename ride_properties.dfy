/**
 * What the ride routes do, stated over the steps of module Rides: which
 * requests are stored and how, the guarded accept and its error paths, the
 * unguarded status overwrite and what it allows, the one-event-per-success
 * rule for socket notifications, and the fields no handler ever changes.
 */
module RideProperties {
  import opened Wrappers
  import opened RideSchema
  import Fare
  import opened Rides

  /** A request body that passes both the property reads and the schema. */
  predicate Admissible(body: RequestBody) {
    && body.riderId.Some?
    && body.pickup.Some? && body.pickup.value.coordinates.Some?
    && body.dropoff.Some? && body.dropoff.value.coordinates.Some?
    && (body.vehicleType.None? || ParseVehicle(body.vehicleType.value).Some?)
  }

  /** The location a request place is stored as. */
  function Stored(p: Place): Location
    requires p.coordinates.Some?
  {
    Location(DefaultKind, p.coordinates.value, p.address)
  }

  // ---------------------------------------------------------------- request

  /** A request fails exactly when a location object is missing, the rider
      or a coordinate array is missing, or the type is not in the enum; a
      failed request stores nothing and emits nothing. */
  lemma RequestFailsCleanly(db: Db, body: RequestBody, now: Time)
    ensures RequestStep(db, body, now).reply.Ok? <==> Admissible(body)
    ensures !Admissible(body) ==> RequestStep(db, body, now) == Step(db, Err(ServerError))
  {
  }

  /**
   * A successful request adds exactly one ride, under the fresh id: status
   * requested, no driver, the given rider, places, distance, the type
   * (bike when omitted), the estimated fare, both timestamps `now`. Every
   * earlier ride is unchanged, and one `ride_requested` broadcast follows.
   */
  lemma {:induction false} RequestCreates(db: Db, body: RequestBody, now: Time)
    requires Inv(db) && Admissible(body)
    ensures var s := RequestStep(db, body, now);
      && s.reply.Ok?
      && var (id, ride) := s.reply.value;
      && id == db.nextId && id !in db.rides
      && s.db.rides == db.rides[id := ride]
      && s.db.nextId == db.nextId + 1
      && s.db.log == db.log + [Event(RideRequested, Everyone, id, ride)]
      && ride.rider == body.riderId.value
      && ride.driver == None
      && ride.status == Requested
      && ride.pickup == Stored(body.pickup.value)
      && ride.dropoff == Stored(body.dropoff.value)
      && ride.vehicleType == Fare.PricingTier(body.vehicleType)
      && ride.fare == Some(Fare.Estimate(body.vehicleType, body.distance))
      && ride.distance == Some(body.distance)
      && ride.duration == None
      && ride.createdAt == now && ride.updatedAt == now
  {
    assert db.nextId !in db.rides;
  }

  /** An omitted vehicle type is both priced and stored as a bike. */
  lemma OmittedTypeIsBike(db: Db, body: RequestBody, now: Time)
    requires Inv(db) && Admissible(body) && body.vehicleType.None?
    ensures var ride := RequestStep(db, body, now).reply.value.1;
      ride.vehicleType == Bike && ride.fare == Some(Fare.Quote(Bike, body.distance))
  {
    RequestCreates(db, body, now);
  }

  /** A type outside the enum is priced at bike rates by the fallback, but
      the enum validator then rejects the save: nothing is stored or emitted. */
  lemma UnknownTypeRejected(db: Db, body: RequestBody, now: Time)
    requires body.vehicleType.Some? && ParseVehicle(body.vehicleType.value).None?
    ensures Fare.Estimate(body.vehicleType, body.distance) == Fare.Quote(Bike, body.distance)
    ensures RequestStep(db, body, now) == Step(db, Err(ServerError))
  {
  }

  /** A requested ride appears in the available list at once. */
  lemma {:induction false} RequestedRideIsAvailable(db: Db, body: RequestBody, now: Time)
    requires Inv(db) && Admissible(body)
    ensures RequestStep(db, body, now).reply.value in Available(RequestStep(db, body, now).db)
  {
    RequestCreates(db, body, now);
  }

  // ----------------------------------------------------------------- accept

  /** Accepting an unknown id answers not-found and changes nothing. */
  lemma AcceptUnknown(db: Db, id: RideId, driverId: Option<UserId>, now: Time)
    requires id !in db.rides
    ensures AcceptStep(db, id, driverId, now) == Step(db, Err(NotFound))
  {
  }

  /** Accepting a ride in any status but requested (accepted, started, but
      also completed or cancelled) answers "already accepted" and changes nothing. */
  lemma AcceptNotRequested(db: Db, id: RideId, driverId: Option<UserId>, now: Time)
    requires id in db.rides && db.rides[id].status != Requested
    ensures AcceptStep(db, id, driverId, now) == Step(db, Err(AlreadyAccepted))
  {
  }

  /**
   * Accepting a requested ride sets its driver and status (and updatedAt),
   * leaves every other field and every other ride as it was, and notifies
   * only that ride's rider.
   */
  lemma {:induction false} AcceptAssignsDriver(db: Db, id: RideId, driverId: Option<UserId>, now: Time)
    requires id in db.rides && db.rides[id].status == Requested
    ensures var ride := db.rides[id];
      var accepted := ride.(driver := driverId, status := Accepted, updatedAt := now);
      AcceptStep(db, id, driverId, now)
        == Step(Db(db.rides[id := accepted], db.nextId,
                   db.log + [Event(RideAccepted, Room(ride.rider), id, accepted)]),
                Ok((id, accepted)))
  {
    SaveEdited(db.rides[id], driverId, Accepted, now);
  }

  /** After a successful accept the ride is gone from the available list and
      a second accept of it, by any driver, fails. */
  lemma {:induction false} AcceptIsFinal(db: Db, id: RideId, d1: Option<UserId>, d2: Option<UserId>, t1: Time, t2: Time)
    requires Inv(db) && id in db.rides && db.rides[id].status == Requested
    ensures var s := AcceptStep(db, id, d1, t1);
      && (forall k :: 0 <= k < |Available(s.db)| ==> Available(s.db)[k].0 != id)
      && AcceptStep(s.db, id, d2, t2) == Step(s.db, Err(AlreadyAccepted))
  {
    AcceptAssignsDriver(db, id, d1, t1);
  }

  // ----------------------------------------------------------------- status

  /** Updating the status of an unknown id answers not-found and changes nothing. */
  lemma StatusUnknown(db: Db, id: RideId, status: string, now: Time)
    requires id !in db.rides
    ensures StatusStep(db, id, status, now) == Step(db, Err(NotFound))
  {
  }

  /** A status string outside the enum fails validation at save: 500, the
      stored ride unchanged, no event. */
  lemma StatusOutsideEnum(db: Db, id: RideId, status: string, now: Time)
    requires id in db.rides && ParseStatus(status).None?
    ensures StatusStep(db, id, status, now) == Step(db, Err(ServerError))
  {
  }

  /**
   * Any enum value overwrites the status of any ride, whatever its current
   * status: there is no transition check. Only status and updatedAt change;
   * the rider is notified.
   */
  lemma {:induction false} StatusOverwrites(db: Db, id: RideId, status: string, now: Time)
    requires id in db.rides && ParseStatus(status).Some?
    ensures var ride := db.rides[id];
      var updated := ride.(status := ParseStatus(status).value, updatedAt := now);
      StatusStep(db, id, status, now)
        == Step(Db(db.rides[id := updated], db.nextId,
                   db.log + [Event(RideStatusUpdated, Room(ride.rider), id, updated)]),
                Ok((id, updated)))
  {
    var ride := db.rides[id];
    SaveEdited(ride, ride.driver, ParseStatus(status).value, now);
    assert ToDocument(ride).(driver := ride.driver) == ToDocument(ride);
  }

  /** A requested ride can be marked completed directly: it is then a
      completed ride with no driver. */
  lemma {:induction false} SkipToCompleted(db: Db, id: RideId, now: Time)
    requires id in db.rides && db.rides[id].status == Requested && db.rides[id].driver.None?
    ensures var s := StatusStep(db, id, "completed", now);
      s.reply.Ok? && s.db.rides[id].status == Completed && s.db.rides[id].driver.None?
  {
    StatusOverwrites(db, id, "completed", now);
  }

  /**
   * A completed ride can be moved back to requested; it is then available
   * again, and a later accept succeeds and replaces its driver.
   */
  lemma {:induction false} ReopenAndReassign(db: Db, id: RideId, d2: UserId, t1: Time, t2: Time)
    requires Inv(db) && id in db.rides && db.rides[id].status == Completed
    ensures var s1 := StatusStep(db, id, "requested", t1);
      && s1.reply.Ok?
      && (id, s1.db.rides[id]) in Available(s1.db)
      && var s2 := AcceptStep(s1.db, id, Some(d2), t2);
      && s2.reply.Ok?
      && s2.db.rides[id].driver == Some(d2)
      && s2.db.rides[id].status == Accepted
  {
    StatusOverwrites(db, id, "requested", t1);
    var s1 := StatusStep(db, id, "requested", t1);
    StatusKeepsInv(db, id, "requested", t1);
    AcceptAssignsDriver(s1.db, id, Some(d2), t2);
  }

  // ------------------------------------------------------- across handlers

  /** The paths that no handler writes after creation. */
  predicate SameRecord(r: Ride, r': Ride) {
    && r'.rider == r.rider
    && r'.pickup == r.pickup && r'.dropoff == r.dropoff
    && r'.vehicleType == r.vehicleType
    && r'.fare == r.fare && r'.distance == r.distance && r'.duration == r.duration
    && r'.createdAt == r.createdAt
  }

  /** No ride is removed, no fixed path changes, ids only grow, and the
      event log is only appended to: one event per success, none on failure. */
  predicate Evolves(db: Db, s: Step) {
    && (forall id :: id in db.rides ==> id in s.db.rides && SameRecord(db.rides[id], s.db.rides[id]))
    && db.nextId <= s.db.nextId
    && db.log <= s.db.log
    && |s.db.log| == |db.log| + (if s.reply.Ok? then 1 else 0)
  }

  lemma {:induction false} RequestEvolves(db: Db, body: RequestBody, now: Time)
    requires Inv(db)
    ensures Evolves(db, RequestStep(db, body, now))
  {
    if Admissible(body) {
      RequestCreates(db, body, now);
    }
  }

  lemma {:induction false} AcceptEvolves(db: Db, id: RideId, driverId: Option<UserId>, now: Time)
    ensures Evolves(db, AcceptStep(db, id, driverId, now))
  {
    if id in db.rides && db.rides[id].status == Requested {
      AcceptAssignsDriver(db, id, driverId, now);
    }
  }

  lemma {:induction false} StatusEvolves(db: Db, id: RideId, status: string, now: Time)
    ensures Evolves(db, StatusStep(db, id, status, now))
  {
    if id in db.rides && ParseStatus(status).Some? {
      StatusOverwrites(db, id, status, now);
    }
  }

  // ---------------------------------------------------------------- example

  /** An auto ride of 5 km is quoted 105 and stored as requested; the first
      driver to accept it gets it, the second is told it is already accepted. */
  lemma {:induction false} FirstAcceptWins(now: Time)
    ensures
      var body := RequestBody(Some(1), Some(Place(Some([0.0, 0.0]), Some("A"))),
                              Some(Place(Some([0.0, 1.0]), Some("B"))), 5.0, Some("auto"));
      var s0 := RequestStep(Db(map[], 0, []), body, now);
      && s0.reply.Ok?
      && s0.reply.value.0 == 0
      && s0.reply.value.1.fare == Some(105)
      && s0.reply.value.1.status == Requested
      && var s1 := AcceptStep(s0.db, 0, Some(7), now);
      && s1.reply.Ok? && s1.reply.value.1.driver == Some(7) && s1.reply.value.1.status == Accepted
      && AcceptStep(s1.db, 0, Some(8), now).reply == Err(AlreadyAccepted)
  {
    var body := RequestBody(Some(1), Some(Place(Some([0.0, 0.0]), Some("A"))),
                            Some(Place(Some([0.0, 1.0]), Some("B"))), 5.0, Some("auto"));
    EmptyInv();
    RequestCreates(Db(map[], 0, []), body, now);
    Fare.AutoFiveKm();
    var s0 := RequestStep(Db(map[], 0, []), body, now);
    AcceptAssignsDriver(s0.db, 0, Some(7), now);
  }
}
