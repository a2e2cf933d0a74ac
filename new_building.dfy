/** Creating a building (src/routes/admin/buildings/new/+page.server.ts): the
    form schema with its floors preprocessing, the role checks of `load` and of
    `createBuilding`, and the record that is inserted. */
module NewBuilding {

  import opened Types
  import opened Strings

  // ---------------------------------------------------------------------------
  // The schema
  // ---------------------------------------------------------------------------

  /** What `Number(text)` gives for a text that is not blank: not a number, an integral
      value, or a value that is not an integer (a fraction or an infinity). */
  datatype NumberValue = NaN | Integral(n: int) | NonInteger

  /** The submitted fields as `formData.get` returns them, with the number the floors text
      converts to when it is not blank. */
  datatype BuildingForm = BuildingForm(
    name: Option<string>,
    address: Option<string>,
    numberOfFloors: Option<string>,
    floorsNumber: NumberValue)

  datatype Field = Name | Address | NumberOfFloors

  const NAME_MAX := 255
  const ADDRESS_MAX := 500

  /** A property of the validated object that is either left undefined or holds a value. */
  datatype Prop<T> = Undefined | Defined(value: T)

  /** `parsedFloors` followed by the schema's preprocess: a missing entry, one that `trim()`
      empties (`IsBlank`, by `TrimEmptyIffBlank`), or a non-numeric one becomes undefined;
      anything else is the converted number. */
  function PreprocessFloors(form: BuildingForm): (r: Prop<NumberValue>)
    ensures r.Undefined? <==>
              form.numberOfFloors.None? || IsBlank(form.numberOfFloors.value) || form.floorsNumber.NaN?
    ensures r.Defined? ==> r.value == form.floorsNumber
  {
    if form.numberOfFloors.None? || IsBlank(form.numberOfFloors.value) then Undefined
    else if form.floorsNumber.NaN? then Undefined
    else Defined(form.floorsNumber)
  }

  /** `z.number().int().positive().optional().nullable()` on the preprocessed value. */
  predicate FloorsAccepted(p: Prop<NumberValue>)
  {
    p.Undefined? || (p.value.Integral? && p.value.n > 0)
  }

  /** The fields `buildingSchema.safeParse` rejects. */
  function SchemaErrors(form: BuildingForm): (errors: set<Field>)
    ensures Name !in errors <==> form.name.Some? && 1 <= |form.name.value| <= NAME_MAX
    ensures Address !in errors <==> form.address.None? || |form.address.value| <= ADDRESS_MAX
    ensures NumberOfFloors !in errors <==> FloorsAccepted(PreprocessFloors(form))
  {
    (if form.name.Some? && 1 <= |form.name.value| <= NAME_MAX then {} else {Name}) +
    (if form.address.None? || |form.address.value| <= ADDRESS_MAX then {} else {Address}) +
    (if FloorsAccepted(PreprocessFloors(form)) then {} else {NumberOfFloors})
  }

  /** A missing, blank or non-numeric floors entry is never a floors error. */
  lemma UnreadableFloorsAreNotAnError(form: BuildingForm)
    requires form.numberOfFloors.None? || IsBlank(form.numberOfFloors.value) || form.floorsNumber.NaN?
    ensures NumberOfFloors !in SchemaErrors(form)
  {
  }

  /** A floors number is rejected exactly when it is zero, negative or not an integer. */
  lemma FloorsRejectedIffNotPositiveInteger(form: BuildingForm)
    requires form.numberOfFloors.Some? && !IsBlank(form.numberOfFloors.value) && !form.floorsNumber.NaN?
    ensures NumberOfFloors in SchemaErrors(form) <==>
              form.floorsNumber.NonInteger? || (form.floorsNumber.Integral? && form.floorsNumber.n <= 0)
  {
  }

  // ---------------------------------------------------------------------------
  // The inserted record
  // ---------------------------------------------------------------------------

  /** The parsed data: `address` is null or a string, `number_of_floors` a positive integer. */
  datatype ValidBuilding = ValidBuilding(name: string, address: Prop<Option<string>>, floors: Prop<int>)

  /** `validationResult.data` for a form without errors. A field that `formData.get` read is
      never undefined, so the address is always defined. */
  function Validated(form: BuildingForm): (v: ValidBuilding)
    requires SchemaErrors(form) == {}
    ensures v.name == form.name.value
    ensures v.address == Defined(form.address)
    ensures v.floors.Defined? <==> PreprocessFloors(form).Defined?
    ensures v.floors.Defined? ==> v.floors.value > 0 && Defined(Integral(v.floors.value)) == PreprocessFloors(form)
  {
    var floors := match PreprocessFloors(form)
      case Undefined => Undefined
      case Defined(number) => Defined(number.n);
    ValidBuilding(form.name.value, Defined(form.address), floors)
  }

  /** A value in the JSON object sent to the database. */
  datatype Json = JString(s: string) | JNumber(n: int) | JNull

  const NAME_KEY := "name"
  const ADDRESS_KEY := "address"
  const FLOORS_KEY := "number_of_floors"

  /** `buildingDataToInsert`: `name`, then each other property only when it is defined. */
  method BuildInsert(v: ValidBuilding) returns (record: map<string, Json>)
    ensures NAME_KEY in record && record[NAME_KEY] == JString(v.name)
    ensures ADDRESS_KEY in record <==> v.address.Defined?
    ensures ADDRESS_KEY in record ==>
              record[ADDRESS_KEY] == (if v.address.value.Some? then JString(v.address.value.value) else JNull)
    ensures FLOORS_KEY in record <==> v.floors.Defined?
    ensures FLOORS_KEY in record ==> record[FLOORS_KEY] == JNumber(v.floors.value)
    ensures record.Keys <= {NAME_KEY, ADDRESS_KEY, FLOORS_KEY}
  {
    record := map[NAME_KEY := JString(v.name)];
    if v.address.Defined? {
      record := record[ADDRESS_KEY := if v.address.value.Some? then JString(v.address.value.value) else JNull];
    }
    if v.floors.Defined? {
      record := record[FLOORS_KEY := JNumber(v.floors.value)];
    }
  }

  // ---------------------------------------------------------------------------
  // load and createBuilding
  // ---------------------------------------------------------------------------

  const BUILDINGS_PATH := "/admin/buildings"
  const INSERT_ERROR_PREFIX := "Failed to create building: "

  datatype LoadOutcome = LoadRedirect(status: int, location: string) | FormPage

  /** `load`: only a user whose role is `admin`; the session itself is not checked. */
  function Load(user: Option<User>): (o: LoadOutcome)
    ensures o.FormPage? <==> IsAdmin(user)
    ensures o.LoadRedirect? ==> o == LoadRedirect(SEE_OTHER, UNAUTHORIZED_PATH)
  {
    if user.None? || user.value.role != Some(ADMIN_ROLE) then LoadRedirect(SEE_OTHER, UNAUTHORIZED_PATH)
    else FormPage
  }

  datatype CreateOutcome =
    | Forbidden                                                                     // fail(403)
    | Invalid(name: Option<string>, address: Option<string>, numberOfFloors: Option<string>,
              errors: set<Field>)                                                   // fail(400)
    | InsertFailed(submitted: ValidBuilding, message: string)                        // fail(500)
    | Redirected(status: int, location: string)                                     // redirect(303)

  /** `createBuilding`: the role check before the form is read, then the schema, then the
      insert (`insertError` is its result). `inserted` is the record handed to the database. */
  method CreateBuilding(user: Option<User>, form: BuildingForm, insertError: Option<string>)
    returns (o: CreateOutcome, inserted: Option<map<string, Json>>)
    ensures !IsAdmin(user) ==> o == Forbidden && inserted.None?
    ensures o.Invalid? <==> IsAdmin(user) && SchemaErrors(form) != {}
    ensures o.Invalid? ==>
              inserted.None? && o == Invalid(form.name, form.address, form.numberOfFloors, SchemaErrors(form))
    ensures inserted.Some? <==> IsAdmin(user) && SchemaErrors(form) == {}
    ensures inserted.Some? ==>
              var record := inserted.value;
              record.Keys <= {NAME_KEY, ADDRESS_KEY, FLOORS_KEY} &&
              NAME_KEY in record && record[NAME_KEY] == JString(form.name.value) &&
              ADDRESS_KEY in record &&
              record[ADDRESS_KEY] == (if form.address.Some? then JString(form.address.value) else JNull) &&
              (FLOORS_KEY in record <==> PreprocessFloors(form).Defined?) &&
              (FLOORS_KEY in record ==>
                 PreprocessFloors(form).value.Integral? && PreprocessFloors(form).value.n > 0 &&
                 record[FLOORS_KEY] == JNumber(PreprocessFloors(form).value.n))
    ensures inserted.Some? && insertError.Some? ==>
              o == InsertFailed(Validated(form), INSERT_ERROR_PREFIX + insertError.value)
    ensures inserted.Some? && insertError.None? ==> o == Redirected(SEE_OTHER, BUILDINGS_PATH)
  {
    if user.None? || user.value.role != Some(ADMIN_ROLE) {
      return Forbidden, None;
    }
    var errors := SchemaErrors(form);
    if errors != {} {
      return Invalid(form.name, form.address, form.numberOfFloors, errors), None;
    }
    var validated := Validated(form);
    var record := BuildInsert(validated);
    inserted := Some(record);
    if insertError.Some? {
      return InsertFailed(validated, INSERT_ERROR_PREFIX + insertError.value), inserted;
    }
    return Redirected(SEE_OTHER, BUILDINGS_PATH), inserted;
  }
}
