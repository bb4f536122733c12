/**
 * The ride collection as the route handlers use it: a mutable store of ride
 * records, a fresh-id counter and the log of socket events. Each method is
 * one handler of backend/routes/rides.js, written the way the handler works
 * (fetch the record, assign its paths, save, emit), and is proved to perform
 * exactly the corresponding step of module Rides.
 */
module RideStore {
  import opened Wrappers
  import opened RideSchema
  import Fare
  import opened Rides

  class Store {
    var rides: map<RideId, Ride>
    var nextId: nat
    var log: seq<Event>

    function Snapshot(): Db
      reads this
    {
      Db(rides, nextId, log)
    }

    ghost predicate Valid()
      reads this
    {
      Inv(Snapshot())
    }

    constructor ()
      ensures Valid()
      ensures rides == map[] && nextId == 0 && log == []
    {
      rides, nextId, log := map[], 0, [];
      EmptyInv();
    }

    /** POST /request. */
    method Request(body: RequestBody, now: Time) returns (reply: Result<(RideId, Ride), Error>)
      requires Valid()
      modifies this
      ensures Valid()
      ensures Snapshot() == RequestStep(old(Snapshot()), body, now).db
      ensures reply == RequestStep(old(Snapshot()), body, now).reply
      ensures reply.Err? ==> Snapshot() == old(Snapshot())
      ensures reply.Ok? ==> reply.value.0 == old(nextId) && reply.value.0 !in old(rides)
    {
      RequestKeepsInv(Snapshot(), body, now);
      var fare := Fare.Estimate(body.vehicleType, body.distance);
      if body.pickup.None? || body.dropoff.None? {
        return Err(ServerError);
      }
      var doc := NewRideDoc(body.riderId, body.pickup.value, body.dropoff.value,
                            body.distance, body.vehicleType, fare);
      var saved := Validate(doc, now, now);
      if saved.None? {
        return Err(ServerError);
      }
      var id := nextId;
      rides := rides[id := saved.value];
      nextId := nextId + 1;
      log := log + [Event(RideRequested, Everyone, id, saved.value)];
      reply := Ok((id, saved.value));
    }

    /** GET /available. */
    method ListAvailable() returns (list: seq<(RideId, Ride)>)
      requires Valid()
      ensures forall k :: 0 <= k < |list| ==>
                list[k].0 in rides && rides[list[k].0] == list[k].1 && list[k].1.status == Requested
      ensures forall id :: id in rides && rides[id].status == Requested ==> (id, rides[id]) in list
      ensures forall j, k :: 0 <= j < k < |list| ==> list[j].0 != list[k].0
    {
      list := Available(Snapshot());
    }

    /** PUT /:id/accept. */
    method Accept(id: RideId, driverId: Option<UserId>, now: Time) returns (reply: Result<(RideId, Ride), Error>)
      requires Valid()
      modifies this
      ensures Valid()
      ensures Snapshot() == AcceptStep(old(Snapshot()), id, driverId, now).db
      ensures reply == AcceptStep(old(Snapshot()), id, driverId, now).reply
      ensures reply.Err? ==> Snapshot() == old(Snapshot())
    {
      AcceptKeepsInv(Snapshot(), id, driverId, now);
      if id !in rides {
        return Err(NotFound);
      }
      var ride := rides[id];
      if ride.status != Requested {
        return Err(AlreadyAccepted);
      }
      var doc := ToDocument(ride);
      doc := doc.(driver := driverId);
      doc := doc.(status := Some(StatusName(Accepted)));
      var saved := Validate(doc, ride.createdAt, now);
      if saved.None? {
        return Err(ServerError);
      }
      rides := rides[id := saved.value];
      log := log + [Event(RideAccepted, Room(saved.value.rider), id, saved.value)];
      reply := Ok((id, saved.value));
    }

    /** PUT /:id/status. */
    method UpdateStatus(id: RideId, status: string, now: Time) returns (reply: Result<(RideId, Ride), Error>)
      requires Valid()
      modifies this
      ensures Valid()
      ensures Snapshot() == StatusStep(old(Snapshot()), id, status, now).db
      ensures reply == StatusStep(old(Snapshot()), id, status, now).reply
      ensures reply.Err? ==> Snapshot() == old(Snapshot())
    {
      StatusKeepsInv(Snapshot(), id, status, now);
      if id !in rides {
        return Err(NotFound);
      }
      var ride := rides[id];
      var doc := ToDocument(ride);
      doc := doc.(status := Some(status));
      var saved := Validate(doc, ride.createdAt, now);
      if saved.None? {
        return Err(ServerError);
      }
      rides := rides[id := saved.value];
      log := log + [Event(RideStatusUpdated, Room(saved.value.rider), id, saved.value)];
      reply := Ok((id, saved.value));
    }
  }
}
