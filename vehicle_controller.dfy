/** The vehicle handlers of server/controllers/vehicleController.js over the
    schema of server/models/Vehicle.js. A vehicle listed by an owner starts
    pending; an administrator approves or rejects it, from any status; only
    approved vehicles are visible to the public. Regular-expression searches
    are given as predicates. */
module VehicleController {
  import opened Common
  import opened Models
  import opened Store

  // -------------------------------------------------------------- public view

  /** The listing's query parameters: empty strings and `None` are the ones
      the request leaves out; `search` is the case-insensitive pattern built
      from the search text. */
  datatype VehicleQuery = VehicleQuery(
    search: Option<string -> bool>,
    vehicleType: string,
    location: string,
    category: string,
    minPrice: Option<int>,
    maxPrice: Option<int>)

  /** `getApprovedVehicles`'s filter: approved; make or model matching the
      pattern; exact type, location and category; price within the inclusive
      bounds. */
  predicate Listed(v: Vehicle, q: VehicleQuery) {
    && v.status == Approved
    && (q.search.None? || q.search.value(v.make) || q.search.value(v.model))
    && (q.vehicleType == "" || VehicleTypeName(v.vehicleType) == q.vehicleType)
    && (q.location == "" || v.location == q.location)
    && (q.category == "" || CategoryName(v.category) == q.category)
    && (q.minPrice.None? || v.pricePerDay >= q.minPrice.value)
    && (q.maxPrice.None? || v.pricePerDay <= q.maxPrice.value)
  }

  function GetApprovedVehicles(vehicles: seq<Vehicle>, q: VehicleQuery): (r: seq<VehicleId>)
    ensures forall k :: k in r <==> 0 <= k < |vehicles| && Listed(vehicles[k], q)
    ensures forall k :: k in r ==> vehicles[k].status == Approved
  {
    Select(vehicles, (v: Vehicle) => Listed(v, q))
  }

  /** With no filter the public listing is exactly the approved vehicles. */
  lemma {:induction false} UnfilteredListingIsApproved(vehicles: seq<Vehicle>)
    ensures forall k :: k in GetApprovedVehicles(vehicles, VehicleQuery(None, "", "", "", None, None)) <==>
      0 <= k < |vehicles| && vehicles[k].status == Approved
  {
    var q := VehicleQuery(None, "", "", "", None, None);
    assert forall v :: Listed(v, q) <==> v.status == Approved;
  }

  /** `getVehicleById`: `findOne({ _id, status: "approved" })`; anything not
      approved is as missing as an unknown id. */
  function GetVehicleById(vehicles: seq<Vehicle>, id: VehicleId): (r: Response<Vehicle>)
    ensures r.Ok? <==> id < |vehicles| && vehicles[id].status == Approved
    ensures r.Ok? ==> r == Ok(OK, vehicles[id])
    ensures r.Err? ==> r == Err(NOT_FOUND, "Vehicle not found")
  {
    if id < |vehicles| && vehicles[id].status == Approved then Ok(OK, vehicles[id])
    else Err(NOT_FOUND, "Vehicle not found")
  }

  // ------------------------------------------------------------------- owner

  /** The request body of `addVehicle`; a field it leaves out is `None`. It
      may also carry `ownerId` and `status`, which the handler overrides. */
  datatype VehicleBody = VehicleBody(
    make: Option<string>,
    model: Option<string>,
    year: Option<int>,
    vehicleType: Option<string>,
    category: Option<string>,
    location: Option<string>,
    pricePerDay: Option<int>,
    availability: Option<bool>,
    images: Option<seq<string>>,
    description: Option<string>,
    averageRating: Option<int>,
    totalReviews: Option<int>,
    ownerId: Option<UserId>,
    status: Option<string>)

  /** A required string field after `trim`: present and not empty. */
  function RequiredText(s: Option<string>): (r: Option<string>)
    ensures r.Some? <==> s.Some? && exists i :: 0 <= i < |s.value| && !IsJsSpace(s.value[i])
    ensures r.Some? ==> r.value == Trim(s.value) && r.value != ""
  {
    if s.Some? && Trim(s.value) != "" then Some(Trim(s.value)) else None
  }

  function Default<T>(o: Option<T>, d: T): T {
    if o.Some? then o.value else d
  }

  /** `Vehicle.create({ ...body, ownerId: caller, status: "pending" })`: the
      record Mongoose validates and stores, or `None` when validation fails
      (a required field missing or empty after `trim`, or a type or category
      outside its enum). Schema defaults fill what the body leaves out. */
  function BuildVehicle(body: VehicleBody, owner: UserId, now: int): (r: Option<Vehicle>)
    ensures r.Some? ==> r.value.ownerId == owner && r.value.status == Pending
    ensures r.Some? <==>
      && RequiredText(body.make).Some? && RequiredText(body.model).Some? && RequiredText(body.location).Some?
      && body.year.Some? && body.pricePerDay.Some?
      && body.vehicleType.Some? && ParseVehicleType(body.vehicleType.value).Some?
      && body.category.Some? && ParseCategory(body.category.value).Some?
    ensures r.Some? ==>
      && VehicleTypeName(r.value.vehicleType) == body.vehicleType.value
      && CategoryName(r.value.category) == body.category.value
      && r.value.availability == Default(body.availability, true)
      && r.value.images == Default(body.images, [])
      && r.value.averageRating == Default(body.averageRating, 0)
      && r.value.totalReviews == Default(body.totalReviews, 0)
  {
    var make := RequiredText(body.make);
    var model := RequiredText(body.model);
    var location := RequiredText(body.location);
    var vehicleType := if body.vehicleType.Some? then ParseVehicleType(body.vehicleType.value) else None;
    var category := if body.category.Some? then ParseCategory(body.category.value) else None;
    if make.None? || model.None? || location.None? || body.year.None? || body.pricePerDay.None?
      || vehicleType.None? || category.None?
    then None
    else
      Some(Vehicle(
        owner, make.value, model.value, body.year.value, vehicleType.value, category.value,
        location.value, body.pricePerDay.value, Default(body.availability, true), Default(body.images, []),
        if body.description.Some? then Some(Trim(body.description.value)) else None,
        Pending, Default(body.averageRating, 0), Default(body.totalReviews, 0), now))
  }

  /** Whatever `ownerId` and `status` the body claims, the stored vehicle is
      the caller's and pending. */
  lemma {:induction false} AddVehicleOverridesBody(body: VehicleBody, owner: UserId, claimedOwner: UserId, claimedStatus: string, now: int)
    ensures BuildVehicle(body.(ownerId := Some(claimedOwner), status := Some(claimedStatus)), owner, now) == BuildVehicle(body, owner, now)
  {
  }

  /** `addVehicle`: owners only (403); a body that fails validation answers
      500; otherwise the vehicle is appended and answered with 201. */
  method AddVehicle(db: Db, user: User, body: VehicleBody, now: int) returns (r: Response<VehicleId>)
    modifies db`vehicles
    ensures user.role != Owner ==> r == Err(FORBIDDEN, "Access denied") && db.vehicles == old(db.vehicles)
    ensures user.role == Owner && BuildVehicle(body, user.id, now).None? ==>
      r.Err? && r.status == SERVER_ERROR && db.vehicles == old(db.vehicles)
    ensures user.role == Owner && BuildVehicle(body, user.id, now).Some? ==>
      && r == Ok(CREATED, |old(db.vehicles)|)
      && db.vehicles == old(db.vehicles) + [BuildVehicle(body, user.id, now).value]
  {
    if user.role != Owner {
      return Err(FORBIDDEN, "Access denied");
    }
    var vehicle := BuildVehicle(body, user.id, now);
    if vehicle.None? {
      return Err(SERVER_ERROR, "Vehicle validation failed");
    }
    r := Ok(CREATED, |db.vehicles|);
    db.vehicles := db.vehicles + [vehicle.value];
  }

  /** `getMyVehicles`: for any caller, every vehicle they own, whatever its
      status. */
  function GetMyVehicles(vehicles: seq<Vehicle>, user: User): (r: seq<VehicleId>)
    ensures forall k :: k in r <==> 0 <= k < |vehicles| && vehicles[k].ownerId == user.id
  {
    Select(vehicles, (v: Vehicle) => v.ownerId == user.id)
  }

  // ------------------------------------------------------------------- admin

  /** `getAllVehiclesForAdmin`: administrators only; every vehicle, or those
      stored with exactly the given status string. */
  function GetAllVehiclesForAdmin(vehicles: seq<Vehicle>, user: User, status: string): (r: Response<seq<VehicleId>>)
    ensures user.role != Admin ==> r == Err(FORBIDDEN, "Access denied")
    ensures user.role == Admin ==> r.Ok? && r.status == OK
    ensures r.Ok? ==> forall k :: k in r.value <==>
      0 <= k < |vehicles| && (status == "" || VehicleStatusName(vehicles[k].status) == status)
  {
    if user.role != Admin then Err(FORBIDDEN, "Access denied")
    else Ok(OK, Select(vehicles, (v: Vehicle) => status == "" || VehicleStatusName(v.status) == status))
  }

  /** The public listing is part of the administrator's list of approved
      vehicles. */
  lemma PublicListingWithinAdminView(vehicles: seq<Vehicle>, admin: User, q: VehicleQuery)
    requires admin.role == Admin
    ensures forall k :: k in GetApprovedVehicles(vehicles, q) ==> k in GetAllVehiclesForAdmin(vehicles, admin, "approved").value
  {
  }

  /** `findByIdAndUpdate(id, { status }, { new: true })`, shared by
      `approveVehicle` and `rejectVehicle`: administrators only; a found
      vehicle takes the status, from any prior one, and is answered;
      an unknown id answers 200 with no vehicle. */
  method SetVehicleStatus(db: Db, user: User, id: VehicleId, status: VehicleStatus) returns (r: Response<Option<Vehicle>>)
    modifies db`vehicles
    ensures user.role != Admin ==> r == Err(FORBIDDEN, "Access denied") && db.vehicles == old(db.vehicles)
    ensures user.role == Admin && id >= |old(db.vehicles)| ==> r == Ok(OK, None) && db.vehicles == old(db.vehicles)
    ensures user.role == Admin && id < |old(db.vehicles)| ==>
      && db.vehicles == old(db.vehicles)[id := old(db.vehicles)[id].(status := status)]
      && r == Ok(OK, Some(db.vehicles[id]))
  {
    if user.role != Admin {
      return Err(FORBIDDEN, "Access denied");
    }
    if id >= |db.vehicles| {
      return Ok(OK, None);
    }
    db.vehicles := db.vehicles[id := db.vehicles[id].(status := status)];
    r := Ok(OK, Some(db.vehicles[id]));
  }

  /** `approveVehicle`. */
  method ApproveVehicle(db: Db, user: User, id: VehicleId) returns (r: Response<Option<Vehicle>>)
    modifies db`vehicles
    ensures user.role != Admin ==> r == Err(FORBIDDEN, "Access denied") && db.vehicles == old(db.vehicles)
    ensures user.role == Admin && id >= |old(db.vehicles)| ==> r == Ok(OK, None) && db.vehicles == old(db.vehicles)
    ensures user.role == Admin && id < |old(db.vehicles)| ==>
      && db.vehicles == old(db.vehicles)[id := old(db.vehicles)[id].(status := Approved)]
      && r == Ok(OK, Some(db.vehicles[id]))
  {
    r := SetVehicleStatus(db, user, id, Approved);
  }

  /** `rejectVehicle`. */
  method RejectVehicle(db: Db, user: User, id: VehicleId) returns (r: Response<Option<Vehicle>>)
    modifies db`vehicles
    ensures user.role != Admin ==> r == Err(FORBIDDEN, "Access denied") && db.vehicles == old(db.vehicles)
    ensures user.role == Admin && id >= |old(db.vehicles)| ==> r == Ok(OK, None) && db.vehicles == old(db.vehicles)
    ensures user.role == Admin && id < |old(db.vehicles)| ==>
      && db.vehicles == old(db.vehicles)[id := old(db.vehicles)[id].(status := Rejected)]
      && r == Ok(OK, Some(db.vehicles[id]))
  {
    r := SetVehicleStatus(db, user, id, Rejected);
  }

  /** Moderation decides visibility: an approved vehicle can be fetched and
      quoted, a rejected or pending one answers 404; a second approval or
      rejection changes nothing more. */
  lemma {:induction false} ModerationDecidesVisibility(vehicles: seq<Vehicle>, id: VehicleId, status: VehicleStatus)
    requires id < |vehicles|
    ensures var after := vehicles[id := vehicles[id].(status := status)];
      && (GetVehicleById(after, id).Ok? <==> status == Approved)
      && after[id := after[id].(status := status)] == after
  {
    var after := vehicles[id := vehicles[id].(status := status)];
    assert after[id].status == status;
  }
}
