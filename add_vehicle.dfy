/** The submission of the vehicle form, `handleConfirmSubmit` in
    client/src/hooks/useAddVehicle.js. Creating sends the whole form;
    editing sends a payload object filled field by field, which an approved
    vehicle restricts to its mileage and which resubmits a rejected vehicle
    for approval. JavaScript's `Number` conversion of a form string is a
    parameter answering a real number, `None` standing for `NaN`. */
module AddVehicle {
  import opened Common

  /** The form's fields, all strings as the inputs hold them. */
  datatype VehicleForm = VehicleForm(
    make: string, model: string, year: string, vehicleType: string, category: string,
    fuelType: string, kilometersDriven: string, location: string, pricePerDay: string,
    description: string)

  /** The payload object of an edit; `None` is a key the handler did not
      set. */
  datatype EditPayload = EditPayload(
    kilometersDriven: Option<real>, pricePerDay: Option<real>, location: Option<string>,
    description: Option<string>, fuelType: Option<string>, category: Option<string>,
    vehicleType: Option<string>, status: Option<string>)

  /** The body of a creation: the form spread out, the year, the price and
      the mileage converted with `Number` (`None` for `NaN`), and the
      images. */
  datatype CreateBody = CreateBody(
    make: string, model: string, year: Option<real>, vehicleType: string, category: string,
    fuelType: string, kilometersDriven: Option<real>, location: string, pricePerDay: Option<real>,
    description: string, images: seq<string>)

  /** The request the form sends: `PUT /vehicles/:id` with the payload when
      editing, the vehicle creation otherwise. */
  datatype SaveRequest = Update(id: string, payload: EditPayload) | Create(body: CreateBody)

  /** The empty payload object. */
  const NO_FIELDS: EditPayload := EditPayload(None, None, None, None, None, None, None, None)

  /** `input !== "" && !isNaN(input)`. */
  predicate Numeric(s: string, number: string -> Option<real>) {
    s != "" && number(s).Some?
  }

  /** `if (input !== "" && !isNaN(input)) payload.key = Number(input)`: the
      number, or the key left unset. */
  function NumberField(s: string, number: string -> Option<real>): (r: Option<real>)
    ensures r.Some? <==> Numeric(s, number)
    ensures r.Some? ==> number(s) == r
  {
    if s != "" && number(s).Some? then number(s) else None
  }

  /** `if (field) payload.key = field`: a non-empty field, or the key left
      unset. */
  function TextField(s: string): (r: Option<string>)
    ensures r.Some? <==> s != ""
    ensures r.Some? ==> r.value == s
  {
    if s != "" then Some(s) else None
  }

  /** The payload of an edit of a vehicle with status `vehicleStatus`. The
      mileage is set whenever it is numeric. Unless the vehicle is approved,
      the price (when numeric) and the location, description, fuel type,
      category and vehicle type (when non-empty) are set as well. A rejected
      vehicle also gets `status: "pending"`. */
  function BuildEditPayload(form: VehicleForm, vehicleStatus: Option<string>, number: string -> Option<real>): (p: EditPayload)
    ensures p.kilometersDriven == NumberField(form.kilometersDriven, number)
    ensures vehicleStatus != Some("approved") ==>
      && p.pricePerDay == NumberField(form.pricePerDay, number)
      && p.location == TextField(form.location) && p.description == TextField(form.description)
      && p.fuelType == TextField(form.fuelType) && p.category == TextField(form.category)
      && p.vehicleType == TextField(form.vehicleType)
    ensures vehicleStatus == Some("rejected") <==> p.status == Some("pending")
    ensures vehicleStatus != Some("rejected") ==> p.status.None?
  {
    var p := NO_FIELDS.(kilometersDriven := NumberField(form.kilometersDriven, number));
    var p := if vehicleStatus != Some("approved") then
        p.(pricePerDay := NumberField(form.pricePerDay, number),
           location := TextField(form.location), description := TextField(form.description),
           fuelType := TextField(form.fuelType), category := TextField(form.category),
           vehicleType := TextField(form.vehicleType))
      else p;
    if vehicleStatus == Some("rejected") then p.(status := Some("pending")) else p
  }

  /** The handler's construction of the edit payload: an empty object whose
      keys are assigned one condition after another. */
  method FillEditPayload(form: VehicleForm, vehicleStatus: Option<string>, number: string -> Option<real>) returns (p: EditPayload)
    ensures p == BuildEditPayload(form, vehicleStatus, number)
  {
    p := NO_FIELDS;
    if form.kilometersDriven != "" && number(form.kilometersDriven).Some? {
      p := p.(kilometersDriven := number(form.kilometersDriven));
    }
    if vehicleStatus != Some("approved") {
      if form.pricePerDay != "" && number(form.pricePerDay).Some? {
        p := p.(pricePerDay := number(form.pricePerDay));
      }
      if form.location != "" { p := p.(location := Some(form.location)); }
      if form.description != "" { p := p.(description := Some(form.description)); }
      if form.fuelType != "" { p := p.(fuelType := Some(form.fuelType)); }
      if form.category != "" { p := p.(category := Some(form.category)); }
      if form.vehicleType != "" { p := p.(vehicleType := Some(form.vehicleType)); }
    }
    if vehicleStatus == Some("rejected") {
      p := p.(status := Some("pending"));
    }
  }

  /** Editing an approved vehicle sends at most its mileage: every other key
      stays unset, whatever the form holds. */
  lemma ApprovedEditSendsOnlyMileage(form: VehicleForm, number: string -> Option<real>)
    ensures BuildEditPayload(form, Some("approved"), number)
      == NO_FIELDS.(kilometersDriven := NumberField(form.kilometersDriven, number))
  {
  }

  /** Resubmitting a rejected vehicle unchanged still asks for a new review:
      with an empty form the payload holds only `status: "pending"`. */
  lemma RejectedResubmitsWithEmptyForm(number: string -> Option<real>)
    ensures BuildEditPayload(VehicleForm("", "", "", "", "", "", "", "", "", ""), Some("rejected"), number)
      == NO_FIELDS.(status := Some("pending"))
  {
  }

  /** `handleConfirmSubmit()`. `editId` is the route's vehicle id, `None`
      when creating, and `vehicleStatus` the loaded vehicle's status. An
      edit sends the payload to the vehicle's id; a creation sends every
      form field under its own name, the year, price and mileage converted
      to numbers, with the images. */
  function ConfirmSubmit(form: VehicleForm, editId: Option<string>, vehicleStatus: Option<string>,
                         images: seq<string>, number: string -> Option<real>): (req: SaveRequest)
    ensures req.Update? <==> editId.Some?
    ensures req.Update? ==> req.id == editId.value && req.payload == BuildEditPayload(form, vehicleStatus, number)
    ensures req.Create? ==>
      && req.body.year == number(form.year) && req.body.pricePerDay == number(form.pricePerDay)
      && req.body.kilometersDriven == number(form.kilometersDriven) && req.body.images == images
      && req.body.make == form.make && req.body.model == form.model && req.body.location == form.location
      && req.body.description == form.description && req.body.fuelType == form.fuelType
      && req.body.category == form.category && req.body.vehicleType == form.vehicleType
  {
    if editId.Some? then Update(editId.value, BuildEditPayload(form, vehicleStatus, number))
    else
      Create(CreateBody(form.make, form.model, number(form.year), form.vehicleType, form.category,
                        form.fuelType, number(form.kilometersDriven), form.location,
                        number(form.pricePerDay), form.description, images))
  }

  /** The title and text of the dialog shown after a save that succeeded
      (edit or create) or failed. */
  function SaveMessage(editing: bool, vehicleStatus: Option<string>, succeeded: bool): (m: (string, string))
    ensures !succeeded ==> m == ("Action Failed", "Failed to save vehicle. Please try again.")
    ensures succeeded && editing ==>
      m.0 == "Vehicle Updated"
      && (m.1 == "Vehicle resubmitted for admin approval." <==> vehicleStatus == Some("rejected"))
    ensures succeeded && !editing ==> m == ("Vehicle Submitted", "Vehicle submitted for admin approval.")
  {
    if !succeeded then ("Action Failed", "Failed to save vehicle. Please try again.")
    else if editing then
      ("Vehicle Updated", if vehicleStatus == Some("rejected") then "Vehicle resubmitted for admin approval." else "Vehicle updated successfully.")
    else ("Vehicle Submitted", "Vehicle submitted for admin approval.")
  }
}
