/**
 * The ride routes of backend/routes/rides.js as steps on a value of the whole
 * back-end state: the ride collection, the next fresh ride id (standing in for
 * ObjectId generation) and the log of socket.io events emitted so far.
 * Each handler is one atomic step that returns the new state and the reply.
 * The class in module RideStore performs the same steps in place.
 */
module Rides {
  import opened Wrappers
  import opened RideSchema
  import Fare

  type RideId = nat

  /** What a handler answers instead of a ride. */
  datatype Error =
    | NotFound          // 404 'Ride not found'
    | AlreadyAccepted   // 400 'Ride already accepted'
    | ServerError       // 500 'Server Error': a thrown TypeError or a failed validation

  /** Who a socket event goes to: every connected client (`io.emit`) or one
      user's room (`io.to(userId).emit`). */
  datatype Audience = Everyone | Room(user: UserId)

  datatype EventName = RideRequested | RideAccepted | RideStatusUpdated

  /** One emitted event and the ride snapshot it carries. */
  datatype Event = Event(name: EventName, audience: Audience, id: RideId, ride: Ride)

  /** A pickup or dropoff object in a request body. */
  datatype Place = Place(coordinates: Option<seq<real>>, address: Option<string>)

  /** The body of POST /request. */
  datatype RequestBody = RequestBody(
    riderId: Option<UserId>,
    pickup: Option<Place>,
    dropoff: Option<Place>,
    distance: real,
    vehicleType: Option<string>)

  datatype Db = Db(rides: map<RideId, Ride>, nextId: nat, log: seq<Event>)

  /** The state after a handler and the reply it sent. */
  datatype Step = Step(db: Db, reply: Result<(RideId, Ride), Error>)

  /** The ids of the `ride_requested` broadcasts in `log`, in emission order. */
  function Broadcasts(log: seq<Event>): seq<RideId> {
    if log == [] then []
    else
      var last := log[|log| - 1];
      Broadcasts(log[..|log| - 1]) + (if last.name == RideRequested then [last.id] else [])
  }

  lemma {:induction false} BroadcastsAppend(log: seq<Event>, e: Event)
    ensures Broadcasts(log + [e]) == Broadcasts(log) + (if e.name == RideRequested then [e.id] else [])
  {
    assert (log + [e])[..|log|] == log;
  }

  /** A ride's fare is the quote for its own type and distance. */
  predicate Priced(r: Ride) {
    r.distance.Some? && r.fare == Some(Fare.Quote(r.vehicleType, r.distance.value))
  }

  /**
   * What every reachable state satisfies: the stored ids are exactly
   * 0 .. nextId-1 (rides are never deleted), every ride is priced by the fare
   * formula, and ride k was announced by the k-th `ride_requested` broadcast.
   */
  ghost predicate Inv(db: Db) {
    && (forall id: RideId :: id in db.rides <==> id < db.nextId)
    && (forall id :: id in db.rides ==> Priced(db.rides[id]))
    && |Broadcasts(db.log)| == db.nextId
    && (forall k :: 0 <= k < |Broadcasts(db.log)| ==> Broadcasts(db.log)[k] == k)
  }

  /** The document `new Ride({...})` builds from a request body (rides.js:19-27). */
  function NewRideDoc(riderId: Option<UserId>, pickup: Place, dropoff: Place,
                      distance: real, vehicleType: Option<string>, fare: int): RideDoc
  {
    RideDoc(riderId, None,
            LocationDoc(None, pickup.coordinates, pickup.address),
            LocationDoc(None, dropoff.coordinates, dropoff.address),
            vehicleType, Some(StatusName(Requested)),
            Some(fare), Some(distance), None)
  }

  /** POST /request: price, build, save, then broadcast `ride_requested`. */
  function RequestStep(db: Db, body: RequestBody, now: Time): Step {
    var fare := Fare.Estimate(body.vehicleType, body.distance);
    if body.pickup.None? || body.dropoff.None? then
      // reading `pickup.coordinates` of undefined throws before anything is saved
      Step(db, Err(ServerError))
    else
      match Validate(NewRideDoc(body.riderId, body.pickup.value, body.dropoff.value,
                                body.distance, body.vehicleType, fare), now, now)
      case None => Step(db, Err(ServerError))
      case Some(ride) =>
        var id := db.nextId;
        Step(Db(db.rides[id := ride], id + 1, db.log + [Event(RideRequested, Everyone, id, ride)]),
             Ok((id, ride)))
  }

  /** PUT /:id/accept: guarded requested -> accepted step that sets the driver,
      then notifies the rider's room with `ride_accepted`. */
  function AcceptStep(db: Db, id: RideId, driverId: Option<UserId>, now: Time): Step {
    if id !in db.rides then Step(db, Err(NotFound))
    else
      var ride := db.rides[id];
      if ride.status != Requested then Step(db, Err(AlreadyAccepted))
      else
        match Validate(ToDocument(ride).(driver := driverId, status := Some(StatusName(Accepted))),
                       ride.createdAt, now)
        case None => Step(db, Err(ServerError))
        case Some(saved) =>
          Step(Db(db.rides[id := saved], db.nextId,
                  db.log + [Event(RideAccepted, Room(saved.rider), id, saved)]),
               Ok((id, saved)))
  }

  /** PUT /:id/status: overwrite the status with whatever string was sent,
      save (the enum validator is the only check), then notify the rider's
      room with `ride_status_updated`. */
  function StatusStep(db: Db, id: RideId, status: string, now: Time): Step {
    if id !in db.rides then Step(db, Err(NotFound))
    else
      var ride := db.rides[id];
      match Validate(ToDocument(ride).(status := Some(status)), ride.createdAt, now)
      case None => Step(db, Err(ServerError))
      case Some(saved) =>
        Step(Db(db.rides[id := saved], db.nextId,
                db.log + [Event(RideStatusUpdated, Room(saved.rider), id, saved)]),
             Ok((id, saved)))
  }

  /**
   * GET /available (`Ride.find({ status: 'requested' })`) over the ids below
   * `n`: exactly the stored rides whose status is requested, each with its
   * stored record, none missing, listed by ascending id.
   */
  function AvailableBelow(rides: map<RideId, Ride>, n: nat): (r: seq<(RideId, Ride)>)
    ensures forall k :: 0 <= k < |r| ==>
              r[k].0 < n && r[k].0 in rides && rides[r[k].0] == r[k].1 && r[k].1.status == Requested
    ensures forall id :: id < n && id in rides && rides[id].status == Requested ==> (id, rides[id]) in r
    ensures forall j, k :: 0 <= j < k < |r| ==> r[j].0 < r[k].0
  {
    if n == 0 then []
    else
      var id := n - 1;
      AvailableBelow(rides, id) + (if id in rides && rides[id].status == Requested then [(id, rides[id])] else [])
  }

  /** The available list of a whole state. */
  function Available(db: Db): seq<(RideId, Ride)> {
    AvailableBelow(db.rides, db.nextId)
  }

  lemma EmptyInv()
    ensures Inv(Db(map[], 0, []))
  {
  }

  lemma {:induction false} RequestKeepsInv(db: Db, body: RequestBody, now: Time)
    requires Inv(db)
    ensures Inv(RequestStep(db, body, now).db)
  {
    var s := RequestStep(db, body, now);
    if s.reply.Ok? {
      var id := db.nextId;
      var ride := s.reply.value.1;
      BroadcastsAppend(db.log, Event(RideRequested, Everyone, id, ride));
      assert ride.vehicleType == Fare.PricingTier(body.vehicleType);
      assert Priced(ride);
    }
  }

  lemma {:induction false} AcceptKeepsInv(db: Db, id: RideId, driverId: Option<UserId>, now: Time)
    requires Inv(db)
    ensures Inv(AcceptStep(db, id, driverId, now).db)
  {
    if id in db.rides && db.rides[id].status == Requested {
      var ride := db.rides[id];
      SaveEdited(ride, driverId, Accepted, now);
      var saved := ride.(driver := driverId, status := Accepted, updatedAt := now);
      BroadcastsAppend(db.log, Event(RideAccepted, Room(saved.rider), id, saved));
    }
  }

  lemma {:induction false} StatusKeepsInv(db: Db, id: RideId, status: string, now: Time)
    requires Inv(db)
    ensures Inv(StatusStep(db, id, status, now).db)
  {
    if id in db.rides && ParseStatus(status).Some? {
      var ride := db.rides[id];
      var st := ParseStatus(status).value;
      SaveEdited(ride, ride.driver, st, now);
      assert ToDocument(ride).(driver := ride.driver) == ToDocument(ride);
      var saved := ride.(status := st, updatedAt := now);
      BroadcastsAppend(db.log, Event(RideStatusUpdated, Room(saved.rider), id, saved));
    }
  }
}
