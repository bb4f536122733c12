# Ride back end: store, route handlers and fare, in Dafny

This project models the server side of a ride-booking app:
- the Mongoose ride schema (`backend/models/Ride.js`);
- the four ride routes of `backend/routes/rides.js`, together with the fare formula they use.

A rider requests a ride. The server prices it, stores it with status `requested` and broadcasts `ride_requested` to every connected client. Drivers list the requested rides. A driver accepts one; the server checks that it is still `requested`, sets the driver and the `accepted` status, and notifies the rider's room. Any status can then be written through the status route. The only check there is the schema's enum.

Modules:

- `Wrappers`: `Option` and `Result`.
- `RideSchema`: the record shape.
  - Status and vehicle-type enums, with their stored strings and parsers.
  - Required rider, optional driver.
  - Locations whose coordinates are required and whose address is optional.
  - A loose, unvalidated document (`RideDoc`). `Validate` is the save-time check: it applies the defaults (status `requested`, vehicle `bike`, location kind `Point`) and produces a typed `Ride`. `ToDocument` is its inverse.
- `Fare`: base fare plus a per-km rate, rounded like `Math.round` (`floor(x + 1/2)`).
  - Bike 20 + 10/km, auto 30 + 15/km, car 50 + 25/km.
  - A missing or unknown type is priced as a bike.
- `Rides`: the whole back-end state as a value, `Db`. It holds:
  - the ride map;
  - a fresh-id counter, standing in for ObjectId generation;
  - the log of emitted socket events, each with its audience: everyone, or one user's room.

  Each handler is one atomic step, `RequestStep`, `AcceptStep` or `StatusStep`, that returns the new state and the reply. `AvailableBelow` is the `find({status: 'requested'})` filter. `Inv` is the store invariant, and the three `...KeepsInv` lemmas show that every step preserves it. `Inv` says:
  - the ids are exactly `0 .. nextId-1`;
  - every ride's fare is the quote for its own type and distance;
  - ride `k` was announced by the `k`-th `ride_requested` broadcast.
- `RideStore`: class `Store`, which holds the map, counter and log as fields. Each method does what its handler does:
  - it fetches the record;
  - it assigns the record's fields in place;
  - it saves the record through `Validate`;
  - it emits the event.

  Each method is proved to perform exactly the matching step of `Rides`, and to change nothing on failure.
- `RideProperties`: the behaviour of the routes as lemmas over the steps.

Errors map to the handlers' replies:
- `NotFound` is the 404;
- `AlreadyAccepted` is the 400;
- `ServerError` is the 500 that the `catch` blocks send. It covers a thrown TypeError and a failed validation.

The clock is a parameter (`now`). It feeds Mongoose's `createdAt`/`updatedAt` timestamps.

Points where the code behaves differently from what a reader might expect:
- The status route overwrites the status without any transition check. There is no cancel operation.
- A vehicle type outside `bike`/`auto`/`car` is priced at bike rates. The schema's enum then rejects the save, so the request fails with a 500 (`UnknownTypeRejected`). Only an omitted type ends up stored as a bike.
- The code rounds `base + rate * distance` as a whole. This equals `base + round(rate * distance)` because every base fare is an integer.
- An accept with no `driverId` is modelled: it sets the status to `accepted` and unsets the driver, because `driver` is optional. This also removes any earlier driver of a ride that was reopened through the status route.

## Model

| member | source | states |
|---|---|---|
| `RideSchema.ParseStatus` | backend/models/Ride.js:17-20 | exactly the five status strings are accepted, and each one maps back to its own string |
| `RideSchema.ParseVehicle` | backend/models/Ride.js:16 | exactly `bike`, `auto` and `car` are accepted, and each one maps back to its own string |
| `RideSchema.StatusNameRoundTrip` | backend/models/Ride.js:17-20 | every status is stored as a string that passes the enum and reads back as that status |
| `RideSchema.VehicleNameRoundTrip` | backend/models/Ride.js:16 | every vehicle type is stored as a string that passes the enum and reads back as that type |
| `RideSchema.Validate` | backend/models/Ride.js:3-25 | a save succeeds iff rider and both coordinate arrays are present and the enum paths are unset or listed; the saved ride's document is the input with defaults filled in, stamped with the given timestamps |
| `RideSchema.NewRideDefaults` | backend/models/Ride.js:16-21 | a document with no status and no type is saved as `requested` and `bike` |
| `RideSchema.ToDocumentRoundTrip` | backend/models/Ride.js:3-25 | loading a stored ride and saving it unchanged gives back the same ride |
| `RideSchema.SaveEdited` | backend/routes/rides.js:58-60 | assigning driver and a status to a loaded ride and saving it always succeeds; it changes those two paths and `updatedAt`, and nothing else |
| `Fare.RoundHalfUp` | backend/routes/rides.js:16 | the result is the nearest integer, and halves round up (`Math.round`) |
| `Fare.QuoteTable` | backend/routes/rides.js:12-16 | the fare is `floor(base + rate*distance + 1/2)` with bike 20/10, auto 30/15, car 50/25 |
| `Fare.AutoFiveKm` | backend/routes/rides.js:12-16 | an auto ride of 5 km costs 105 |
| `Fare.FallbackToBike` | backend/routes/rides.js:14-15 | a missing or unknown type is priced at bike rates |
| `Fare.KnownTypePricedAsItself` | backend/routes/rides.js:14-15 | a listed type is priced at its own rates |
| `Fare.ZeroDistanceIsBase` | backend/routes/rides.js:13-16 | the fare at 0 km is the base fare |
| `Fare.RoundHalfUpMonotone` | backend/routes/rides.js:16 | rounding preserves order |
| `Fare.QuoteMonotone` | backend/routes/rides.js:14-16 | for a fixed type, the fare does not decrease as the distance grows |
| `Rides.BroadcastsAppend` | backend/routes/rides.js:31 | appending one event adds its id to the broadcast list iff it is a `ride_requested` event |
| `Rides.AvailableBelow` | backend/routes/rides.js:43 | the list holds exactly the stored rides whose status is `requested`, each with its stored record, none missing, in ascending id order |
| `Rides.RequestKeepsInv` | backend/routes/rides.js:11-31 | a request keeps the ids dense, prices the new ride by the fare formula for its stored type, and announces it as the next broadcast |
| `Rides.AcceptKeepsInv` | backend/routes/rides.js:54-63 | an accept preserves the store invariant |
| `Rides.StatusKeepsInv` | backend/routes/rides.js:75-83 | a status update preserves the store invariant |
| `RideStore.Store.constructor` | backend/models/Ride.js:27 | the collection starts empty, with no events, and satisfies the invariant |
| `RideStore.Store.Request` | backend/routes/rides.js:7-38 | performs exactly `RequestStep` in place and keeps the invariant; on success the id is fresh, and on failure nothing changes |
| `RideStore.Store.ListAvailable` | backend/routes/rides.js:41-48 | returns every stored requested ride with its record, each once, and no other ride |
| `RideStore.Store.Accept` | backend/routes/rides.js:51-69 | performs exactly `AcceptStep` in place and keeps the invariant; on failure nothing changes |
| `RideStore.Store.UpdateStatus` | backend/routes/rides.js:72-89 | performs exactly `StatusStep` in place and keeps the invariant; on failure nothing changes |
| `RideProperties.RequestFailsCleanly` | backend/routes/rides.js:19-36 | a request succeeds iff rider, both locations with coordinates, and an omitted or listed type are present; otherwise the reply is 500, nothing is stored and nothing is emitted |
| `RideProperties.RequestCreates` | backend/routes/rides.js:19-31 | a successful request adds exactly one ride under a fresh id: `requested`, no driver, the given rider, places, type (bike when omitted), distance and estimated fare, both timestamps `now`; other rides are unchanged and one `ride_requested` broadcast follows the save |
| `RideProperties.OmittedTypeIsBike` | backend/routes/rides.js:14-23 | an omitted vehicle type is both stored as bike and priced at bike rates |
| `RideProperties.UnknownTypeRejected` | backend/models/Ride.js:16 | an unlisted type is priced as a bike, but the save fails, so nothing is stored or emitted |
| `RideProperties.RequestedRideIsAvailable` | backend/routes/rides.js:26-43 | a newly requested ride is in the available list |
| `RideProperties.AcceptUnknown` | backend/routes/rides.js:54-55 | accepting an unknown id answers not-found; store and log are unchanged |
| `RideProperties.AcceptNotRequested` | backend/routes/rides.js:56 | accepting a ride in any other status, including completed or cancelled, answers "already accepted"; store and log are unchanged |
| `RideProperties.AcceptAssignsDriver` | backend/routes/rides.js:58-63 | accepting a requested ride sets driver, status `accepted` and `updatedAt`; every other field and every other ride is unchanged; one `ride_accepted` event goes to that ride's rider only |
| `RideProperties.AcceptIsFinal` | backend/routes/rides.js:43-63 | after an accept the ride is absent from the available list, and a second accept by any driver fails with no change |
| `RideProperties.StatusUnknown` | backend/routes/rides.js:75-76 | updating the status of an unknown id answers not-found; nothing changes |
| `RideProperties.StatusOutsideEnum` | backend/routes/rides.js:78-88 | a status outside the enum fails validation: 500, the ride is unchanged and no event is emitted |
| `RideProperties.StatusOverwrites` | backend/routes/rides.js:78-83 | any enum status overwrites any current status, with no transition check; only status and `updatedAt` change; one `ride_status_updated` event goes to the rider |
| `RideProperties.SkipToCompleted` | backend/routes/rides.js:78-79 | a requested ride with no driver can be marked completed directly and stays driverless |
| `RideProperties.ReopenAndReassign` | backend/routes/rides.js:51-89 | a completed ride can be moved back to requested; it is then available again, and a later accept succeeds and replaces its driver |
| `RideProperties.RequestEvolves` | backend/routes/rides.js:19-36 | a request removes no ride and changes no fixed field (rider, places, type, fare, distance, duration, `createdAt`); it only appends to the log, one event on success and none on failure |
| `RideProperties.AcceptEvolves` | backend/routes/rides.js:54-63 | the same holds for accept: fixed fields and `createdAt` are kept, and exactly one event is emitted per success |
| `RideProperties.StatusEvolves` | backend/routes/rides.js:75-83 | the same holds for a status update |
| `RideProperties.FirstAcceptWins` | backend/routes/rides.js:12-63 | an auto ride of 5 km is stored as `requested` with fare 105; the first accept gets it and the second answers "already accepted" |

## Left out

- Concurrency: each handler is one atomic step. The race between the read at `rides.js:54` and the write at `rides.js:60` is not modelled: two concurrent accepts can both succeed.
- Floating point: distance is a Dafny `real`. `Math.round` is modelled as `floor(x + 1/2)`. IEEE rounding, and the NaN a missing distance produces, are not modelled. A negative distance is never validated by the source, so it stays an unconstrained parameter.
- Vehicle-type strings that name inherited JavaScript object properties (`toString`, `__proto__`) make the rate lookup return a non-number. The model prices them as bikes. Such strings fail the enum validator anyway, so no stored ride depends on this.
- HTTP transport: routing, status codes and JSON serialisation are replaced by the `Error` datatype and the `Result` reply. Logging in the `catch` blocks is dropped.
- Mongoose `populate` joins (`rides.js:43`, `rides.js:82`) are not modelled. The event after a status update carries the saved record.
- ObjectIds are replaced by a counter. A malformed id in the path or the body (a CastError, so a 500) is not modelled: ids here are natural numbers.
- The status route with no `status` in the body is not modelled. Assigning `undefined` unsets the path in Mongoose. `RideStore.Store.UpdateStatus` always takes a string.
- `RideSchema.Validate`: a missing coordinate array is taken to fail `required`. This differs from the source. In Mongoose 5 and later, an array path defaults to `[]` and `required` accepts an empty array. So the source stores a request whose `pickup` or `dropoff` has no `coordinates`, with `[]`, where the model answers 500. The model accepts an explicit `[]`, as Mongoose 5 does. The client always sends coordinates. Mongoose's casting of array elements is not modelled.
- `RideSchema.Validate`: a save of an unmodified document refreshes `updatedAt` in the model. Mongoose may skip the write when nothing changed, for example when a status update resends the current status.
- socket.io rooms and the `join` handshake (`server.js:50-61`) are not modelled. Events are an abstract log that records each event's audience, not its delivery.
- `RideStore.Store.ListAvailable`: its contract does not state the order. `Rides.AvailableBelow` lists by ascending id, but the source's query has no sort, so the database's natural order is not promised.
- `server.js` (wiring), `backend/routes/admin.js` (two plain queries) and `backend/models/User.js` are not part of this model. No ride operation reads `User.js`: accept does not check that the driver id belongs to a driver. The frontend pages are not part of this model either; the model follows the server's behaviour. In particular, the client's copy of the fare formula lacks the bike fallback, and the driver screen offers only accepted→started and started→completed, which the server does not enforce.
- `duration` is a schema path that no route writes. It stays unset in every stored ride.
