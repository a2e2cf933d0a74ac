/** Visitor pre-registration (src/routes/visitors/preregister/+page.server.ts):
    the form's validation rules, the page guard, and the default action that
    normalises, validates, builds the row and inserts it. */
module Preregister {

  import opened Types
  import opened Strings

  // ---------------------------------------------------------------------------
  // The schema
  // ---------------------------------------------------------------------------

  /** The submitted fields as `formData.get` returns them (None for a missing field). */
  datatype PreregForm = PreregForm(
    visitorName: Option<string>,
    expectedDate: Option<string>,
    expectedTime: Option<string>,
    vehiclePlate: Option<string>)

  datatype Field = VisitorName | ExpectedDate | ExpectedTime | VehiclePlate

  const NAME_MAX := 255
  const PLATE_MAX := 50

  /** `/^([01]\d|2[0-3]):([0-5]\d)$/`: exactly five characters, a 00-23 hour, a colon
      and a 00-59 minute. */
  predicate IsClockTime(s: string)
  {
    |s| == 5 && s[2] == ':' && IsDigit(s[1]) && IsDigit(s[4]) &&
    ((s[0] == '0' || s[0] == '1') || (s[0] == '2' && s[1] <= '3')) &&
    '0' <= s[3] <= '5'
  }

  /** `HH:MM` for an hour and a minute. */
  function ClockText(h: nat, m: nat): string
    requires h < 24 && m < 60
  {
    TwoDigits(h) + ":" + TwoDigits(m)
  }

  /** The time pattern accepts exactly the `HH:MM` texts of the times of a day. */
  lemma ClockTimeIffTimeOfDay(s: string)
    ensures IsClockTime(s) <==> exists h: nat, m: nat :: h < 24 && m < 60 && s == ClockText(h, m)
  {
    if IsClockTime(s) {
      var h: nat := DigitValue(s[0]) * 10 + DigitValue(s[1]);
      var m: nat := DigitValue(s[3]) * 10 + DigitValue(s[4]);
      assert h / 10 == DigitValue(s[0]) && h % 10 == DigitValue(s[1]);
      assert m / 10 == DigitValue(s[3]) && m % 10 == DigitValue(s[4]);
      assert s == ClockText(h, m);
    }
    if exists h: nat, m: nat :: h < 24 && m < 60 && s == ClockText(h, m) {
      var h: nat, m: nat :| h < 24 && m < 60 && s == ClockText(h, m);
      assert s[0] == DigitChar(h / 10) && s[1] == DigitChar(h % 10);
      assert s[3] == DigitChar(m / 10);
    }
  }

  /** `expected_date`: a non-empty string that parses (`parsed`, None for an invalid date)
      to today or later; dates are compared as calendar days. */
  predicate DateAccepted(text: Option<string>, parsed: Option<CalendarDate>, today: CalendarDate)
  {
    text.Some? && |text.value| >= 1 && parsed.Some? && NotBefore(parsed.value, today)
  }

  predicate NotBefore(d: CalendarDate, today: CalendarDate)
  {
    d.year > today.year ||
    (d.year == today.year && (d.month > today.month || (d.month == today.month && d.day >= today.day)))
  }

  /** The fields `preregistrationSchema.safeParse` rejects. */
  function SchemaErrors(form: PreregForm, parsedDate: Option<CalendarDate>, today: CalendarDate): (errors: set<Field>)
    ensures VisitorName !in errors <==>
              form.visitorName.Some? && 1 <= |form.visitorName.value| <= NAME_MAX
    ensures ExpectedDate !in errors <==> DateAccepted(form.expectedDate, parsedDate, today)
    ensures ExpectedTime !in errors <==>
              form.expectedTime.None? || form.expectedTime.value == "" || IsClockTime(form.expectedTime.value)
    ensures VehiclePlate !in errors <==>
              form.vehiclePlate.None? || |form.vehiclePlate.value| <= PLATE_MAX
  {
    (if form.visitorName.Some? && 1 <= |form.visitorName.value| <= NAME_MAX then {} else {VisitorName}) +
    (if DateAccepted(form.expectedDate, parsedDate, today) then {} else {ExpectedDate}) +
    (if form.expectedTime.None? || form.expectedTime.value == "" || IsClockTime(form.expectedTime.value)
     then {} else {ExpectedTime}) +
    (if form.vehiclePlate.None? || |form.vehiclePlate.value| <= PLATE_MAX then {} else {VehiclePlate})
  }

  // ---------------------------------------------------------------------------
  // load and the default action
  // ---------------------------------------------------------------------------

  const PREREGISTER_PATH := "/visitors/preregister"
  const SUCCESS_PATH := "/visitors?preregistered=true"
  const INSERT_ERROR_PREFIX := "Failed to pre-register visitor: "

  datatype LoadOutcome = LoadRedirect(status: int, location: string) | FormPage

  /** `load`: only signed-in residents see the form. */
  function Load(session: Option<Session>, user: Option<User>): (o: LoadOutcome)
    ensures o.FormPage? <==> Authenticated(session, user)
    ensures o.LoadRedirect? ==> o == LoadRedirect(SEE_OTHER, LoginRedirect(PREREGISTER_PATH))
  {
    if session.None? || user.None? then LoadRedirect(SEE_OTHER, LoginRedirect(PREREGISTER_PATH)) else FormPage
  }

  /** The row sent to `visitor_preregistrations`. */
  datatype PreregRecord = PreregRecord(
    residentUserId: string,
    visitorName: string,
    expectedDate: string,
    expectedTime: Option<string>,
    vehiclePlate: Option<string>,
    status: string)

  datatype ActionOutcome =
    | NotAuthenticated                                       // fail(401)
    | Invalid(submitted: PreregForm, errors: set<Field>)    // fail(400)
    | InsertFailed(submitted: PreregForm, message: string)   // fail(500)
    | Redirected(status: int, location: string)              // redirect(303)
  {
    function StatusCode(): int
    {
      match this
      case NotAuthenticated => 401
      case Invalid(_, _) => 400
      case InsertFailed(_, _) => 500
      case Redirected(status, _) => status
    }
  }

  /** `x || null` on an optional string: the empty string becomes null. */
  function EmptyToNull(s: Option<string>): (r: Option<string>)
    ensures r.Some? <==> s.Some? && s.value != ""
    ensures r.Some? ==> r == s
  {
    if s.Some? && s.value != "" then s else None
  }

  /** The default action. `parsedDate` is what `new Date(expected_date)` gives as a calendar
      day (None for an invalid date), `today` the current day, and `insertError` the
      result of the insert. `inserted` is the row handed to the database, if any. */
  method SubmitPreregistration(session: Option<Session>, user: Option<User>, form: PreregForm,
                               parsedDate: Option<CalendarDate>, today: CalendarDate,
                               insertError: Option<string>)
    returns (o: ActionOutcome, inserted: Option<PreregRecord>)
    ensures !Authenticated(session, user) ==> o == NotAuthenticated && inserted.None?
    ensures o.Invalid? <==>
              Authenticated(session, user) && SchemaErrors(form, parsedDate, today) != {}
    ensures o.Invalid? ==>
              inserted.None? && o.errors == SchemaErrors(form, parsedDate, today) &&
              o.submitted == form.(expectedTime := EmptyToNull(form.expectedTime))
    ensures inserted.Some? <==> Authenticated(session, user) && SchemaErrors(form, parsedDate, today) == {}
    ensures inserted.Some? ==>
              var r := inserted.value;
              r.residentUserId == user.value.id && r.status == PENDING &&
              r.visitorName == form.visitorName.value && 1 <= |r.visitorName| <= NAME_MAX &&
              r.expectedDate == form.expectedDate.value &&
              r.expectedTime == EmptyToNull(form.expectedTime) &&
              (r.expectedTime.Some? ==> IsClockTime(r.expectedTime.value)) &&
              r.vehiclePlate == EmptyToNull(form.vehiclePlate) &&
              (r.vehiclePlate.Some? ==> |r.vehiclePlate.value| <= PLATE_MAX)
    ensures inserted.Some? && insertError.Some? ==>
              o == InsertFailed(form.(expectedTime := EmptyToNull(form.expectedTime)),
                                INSERT_ERROR_PREFIX + insertError.value)
    ensures inserted.Some? && insertError.None? ==> o == Redirected(SEE_OTHER, SUCCESS_PATH)
  {
    inserted := None;
    if session.None? || user.None? {
      return NotAuthenticated, None;
    }
    var data := form;
    if data.expectedTime == Some("") {
      data := data.(expectedTime := None);
    }
    var errors := SchemaErrors(data, parsedDate, today);
    if errors != {} {
      return Invalid(data, errors), None;
    }
    var row := PreregRecord(
      user.value.id,
      data.visitorName.value,
      data.expectedDate.value,
      EmptyToNull(data.expectedTime),
      EmptyToNull(data.vehiclePlate),
      PENDING);
    inserted := Some(row);
    if insertError.Some? {
      return InsertFailed(data, INSERT_ERROR_PREFIX + insertError.value), inserted;
    }
    return Redirected(SEE_OTHER, SUCCESS_PATH), inserted;
  }
}
