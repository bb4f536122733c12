/**
 * The ride record of backend/models/Ride.js: a Mongoose schema with two
 * string enums (vehicle type and status) and their defaults, a required
 * rider, an optional driver, and two GeoJSON-style locations whose
 * coordinates are required and whose address is optional.
 *
 * Mongoose keeps a document as loosely typed paths and checks it only when
 * it is saved. `RideDoc` is that loose document; `Validate` is the save-time
 * validation, which applies the defaults and turns a conforming document
 * into a typed `Ride`; `ToDocument` goes back.
 */
module RideSchema {
  import opened Wrappers

  /** The ObjectId of a user document. */
  type UserId = nat

  /** A clock reading, supplied by the caller (Mongoose timestamps). */
  type Time = int

  datatype Status = Requested | Accepted | Started | Completed | Cancelled

  datatype VehicleType = Bike | Auto | Car

  /** The string the schema enum stores for each status. */
  function StatusName(s: Status): string {
    match s
    case Requested => "requested"
    case Accepted => "accepted"
    case Started => "started"
    case Completed => "completed"
    case Cancelled => "cancelled"
  }

  /** The string the schema enum stores for each vehicle type. */
  function VehicleName(v: VehicleType): string {
    match v
    case Bike => "bike"
    case Auto => "auto"
    case Car => "car"
  }

  /** The status enum check: exactly the five listed strings are accepted. */
  function ParseStatus(s: string): (r: Option<Status>)
    ensures r.Some? ==> StatusName(r.value) == s
    ensures r.None? ==> forall st :: StatusName(st) != s
  {
    if s == "requested" then Some(Requested)
    else if s == "accepted" then Some(Accepted)
    else if s == "started" then Some(Started)
    else if s == "completed" then Some(Completed)
    else if s == "cancelled" then Some(Cancelled)
    else None
  }

  /** The vehicle-type enum check: exactly "bike", "auto" and "car". */
  function ParseVehicle(s: string): (r: Option<VehicleType>)
    ensures r.Some? ==> VehicleName(r.value) == s
    ensures r.None? ==> forall v :: VehicleName(v) != s
  {
    if s == "bike" then Some(Bike)
    else if s == "auto" then Some(Auto)
    else if s == "car" then Some(Car)
    else None
  }

  lemma {:induction false} StatusNameRoundTrip(s: Status)
    ensures ParseStatus(StatusName(s)) == Some(s)
  {
    match s
    case Requested =>
    case Accepted =>
    case Started =>
    case Completed =>
    case Cancelled =>
  }

  lemma {:induction false} VehicleNameRoundTrip(v: VehicleType)
    ensures ParseVehicle(VehicleName(v)) == Some(v)
  {
    match v
    case Bike =>
    case Auto =>
    case Car =>
  }

  const DefaultKind: string := "Point"
  const DefaultVehicle: VehicleType := Bike
  const DefaultStatus: Status := Requested

  /** A validated location: `kind` is the GeoJSON type, "Point" by default. */
  datatype Location = Location(kind: string, coordinates: seq<real>, address: Option<string>)

  /** A stored, validated ride. `fare`, `distance` and `duration` are plain
      Numbers that the schema does not require. */
  datatype Ride = Ride(
    rider: UserId,
    driver: Option<UserId>,
    pickup: Location,
    dropoff: Location,
    vehicleType: VehicleType,
    status: Status,
    fare: Option<int>,
    distance: Option<real>,
    duration: Option<real>,
    createdAt: Time,
    updatedAt: Time)

  /** A location sub-document before validation. */
  datatype LocationDoc = LocationDoc(kind: Option<string>, coordinates: Option<seq<real>>, address: Option<string>)

  /** A ride document before validation: every path may be unset and the
      enum paths hold arbitrary strings. */
  datatype RideDoc = RideDoc(
    rider: Option<UserId>,
    driver: Option<UserId>,
    pickup: LocationDoc,
    dropoff: LocationDoc,
    vehicleType: Option<string>,
    status: Option<string>,
    fare: Option<int>,
    distance: Option<real>,
    duration: Option<real>)

  /** The schema's rules: rider and both coordinate arrays are required, and
      the two enum paths, when set, hold one of their listed values. */
  predicate Conforms(d: RideDoc) {
    && d.rider.Some?
    && d.pickup.coordinates.Some?
    && d.dropoff.coordinates.Some?
    && (d.vehicleType.None? || ParseVehicle(d.vehicleType.value).Some?)
    && (d.status.None? || ParseStatus(d.status.value).Some?)
  }

  function LocationDefaults(l: LocationDoc): LocationDoc {
    if l.kind.None? then l.(kind := Some(DefaultKind)) else l
  }

  /** The document with every schema default filled in. */
  function WithDefaults(d: RideDoc): RideDoc {
    d.(pickup := LocationDefaults(d.pickup),
       dropoff := LocationDefaults(d.dropoff),
       vehicleType := if d.vehicleType.None? then Some(VehicleName(DefaultVehicle)) else d.vehicleType,
       status := if d.status.None? then Some(StatusName(DefaultStatus)) else d.status)
  }

  function ToLocationDoc(l: Location): LocationDoc {
    LocationDoc(Some(l.kind), Some(l.coordinates), l.address)
  }

  /** The document a stored ride is loaded as (`Ride.findById`). */
  function ToDocument(r: Ride): RideDoc {
    RideDoc(Some(r.rider), r.driver, ToLocationDoc(r.pickup), ToLocationDoc(r.dropoff),
            Some(VehicleName(r.vehicleType)), Some(StatusName(r.status)),
            r.fare, r.distance, r.duration)
  }

  function ValidLocation(l: LocationDoc): Location
    requires l.coordinates.Some?
  {
    Location(if l.kind.Some? then l.kind.value else DefaultKind, l.coordinates.value, l.address)
  }

  /**
   * Save-time validation (`doc.save()`): fails exactly when the document
   * breaks a schema rule; otherwise yields the typed ride, whose document is
   * the input with the defaults filled in, stamped with the given times.
   */
  function Validate(d: RideDoc, createdAt: Time, updatedAt: Time): (r: Option<Ride>)
    ensures r.Some? <==> Conforms(d)
    ensures r.Some? ==> ToDocument(r.value) == WithDefaults(d)
    ensures r.Some? ==> r.value.createdAt == createdAt && r.value.updatedAt == updatedAt
  {
    if !Conforms(d) then None
    else
      Some(Ride(
        d.rider.value, d.driver,
        ValidLocation(d.pickup), ValidLocation(d.dropoff),
        if d.vehicleType.None? then DefaultVehicle else ParseVehicle(d.vehicleType.value).value,
        if d.status.None? then DefaultStatus else ParseStatus(d.status.value).value,
        d.fare, d.distance, d.duration, createdAt, updatedAt))
  }

  /** Loading a stored ride and saving it unchanged gives the same ride back. */
  lemma {:induction false} ToDocumentRoundTrip(r: Ride)
    ensures Validate(ToDocument(r), r.createdAt, r.updatedAt) == Some(r)
  {
    StatusNameRoundTrip(r.status);
    VehicleNameRoundTrip(r.vehicleType);
  }

  /**
   * Loading a stored ride, assigning its driver and status, and saving it
   * succeeds, changes those two paths and `updatedAt`, and nothing else.
   */
  lemma {:induction false} SaveEdited(r: Ride, driver: Option<UserId>, s: Status, now: Time)
    ensures Validate(ToDocument(r).(driver := driver, status := Some(StatusName(s))), r.createdAt, now)
         == Some(r.(driver := driver, status := s, updatedAt := now))
  {
    StatusNameRoundTrip(s);
    VehicleNameRoundTrip(r.vehicleType);
  }

  /** A document that leaves the enum paths unset is stored with status
      requested and vehicle type bike. */
  lemma NewRideDefaults(d: RideDoc, createdAt: Time, updatedAt: Time)
    requires Conforms(d) && d.status.None? && d.vehicleType.None?
    ensures Validate(d, createdAt, updatedAt).Some?
    ensures Validate(d, createdAt, updatedAt).value.status == Requested
    ensures Validate(d, createdAt, updatedAt).value.vehicleType == Bike
  {
  }
}
