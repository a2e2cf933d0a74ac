/** The administrators' daily visitor list (src/routes/admin/visitors/daily/+page.server.ts):
    its own admin check, the choice of the date, the `yyyy-MM-dd` text sent to
    the database, and the filtered, ordered answer. */
module DailyVisitors {

  import opened Types
  import opened Strings
  import Listing
  import Visitors

  datatype DateFields = DateFields(fullYear: int, monthIndex: int, date: int)

  /** The local-time fields of a valid JavaScript `Date`: `getFullYear()`, `getMonth()`
      (0-based) and `getDate()`. */
  type JsDate = d: DateFields | 0 <= d.monthIndex < 12 && 1 <= d.date <= 31
    witness DateFields(1970, 0, 1)

  /** The `date` query parameter when it is present and not empty and parses to a valid
      date (`parsed`, None for an invalid date); otherwise today. */
  function TargetDate(queryDate: Option<string>, parsed: Option<JsDate>, today: JsDate): (d: JsDate)
    ensures queryDate.None? || queryDate.value == "" || parsed.None? ==> d == today
    ensures queryDate.Some? && queryDate.value != "" && parsed.Some? ==> d == parsed.value
  {
    if queryDate.Some? && queryDate.value != "" && parsed.Some? then parsed.value else today
  }

  /** `${yyyy}-${mm}-${dd}` with month and day padded to two digits and the year as
      `String(getFullYear())`. */
  function FormatDate(d: JsDate): (s: string)
    ensures s == IntToString(d.fullYear) + "-" + TwoDigits(d.monthIndex + 1) + "-" + TwoDigits(d.date)
  {
    PadTwoDigits(d.monthIndex + 1);
    PadTwoDigits(d.date);
    IntToString(d.fullYear) + "-" + PadStart(IntToString(d.monthIndex + 1), 2, '0') + "-" +
      PadStart(IntToString(d.date), 2, '0')
  }

  /** For a four-digit year the text is the ten-character `YYYY-MM-DD` form. */
  lemma FourDigitYearGivesTenCharacters(d: JsDate)
    requires 1000 <= d.fullYear <= 9999
    ensures |FormatDate(d)| == 10
  {
    var y: nat := d.fullYear;
    assert NatToString(y) == NatToString(y / 10) + [DigitChar(y % 10)];
    assert NatToString(y / 10) == NatToString(y / 100) + [DigitChar((y / 10) % 10)];
    assert NatToString(y / 100) == NatToString(y / 1000) + [DigitChar((y / 100) % 10)];
    assert |NatToString(y / 1000)| == 1;
  }

  /** Reads the text back into the date it names: the inverse of `FormatDate` for every
      year. For a four-digit year the text is the ISO 8601 `YYYY-MM-DD` form, which the
      database reads the same way; a shorter year gives a text the database reads by its
      own field-order rules, which are not modelled. */
  function ParseDate(s: string): Option<CalendarDate>
  {
    if |s| < 7 then None
    else
      var n := |s|;
      var year := s[..n - 6];
      var month := s[n - 5..n - 3];
      var day := s[n - 2..];
      if s[n - 6] != '-' || s[n - 3] != '-' || !AllDigits(month) || !AllDigits(day) then None
      else if year[0] == '-' && AllDigits(year[1..]) then
        Some(CalendarDate(ParseInt(year), ParseNat(month), ParseNat(day)))
      else if year[0] != '-' && AllDigits(year) then
        Some(CalendarDate(ParseInt(year), ParseNat(month), ParseNat(day)))
      else None
  }

  lemma ParseTwoDigits(v: nat)
    requires v < 100
    ensures ParseNat(TwoDigits(v)) == v
  {
    var s := TwoDigits(v);
    var tens := s[..1];
    assert tens == [DigitChar(v / 10)] && tens[..0] == [];
    assert DigitValue(DigitChar(v / 10)) == v / 10;
    assert DigitValue(DigitChar(v % 10)) == v % 10;
    assert ParseNat(tens) == v / 10;
    assert ParseNat(s) == ParseNat(tens) * 10 + DigitValue(s[1]);
  }

  /** A year below 1000 is not padded: the text is shorter than the ISO form. */
  lemma {:induction false} ShortYearIsNotIsoForm(d: JsDate)
    requires 0 <= d.fullYear < 1000
    ensures |FormatDate(d)| < 10
  {
    var y: nat := d.fullYear;
    if y >= 10 {
      assert NatToString(y) == NatToString(y / 10) + [DigitChar(y % 10)];
      if y >= 100 {
        assert NatToString(y / 10) == NatToString(y / 100) + [DigitChar((y / 10) % 10)];
      }
    }
  }

  /** The text names the target date without ambiguity: reading it back gives the year,
      the 1-based month (01..12) and the day (01..31). */
  lemma FormatDateRoundTrip(d: JsDate)
    ensures ParseDate(FormatDate(d)) == Some(CalendarDate(d.fullYear, d.monthIndex + 1, d.date))
  {
    var y := IntToString(d.fullYear);
    var m := TwoDigits(d.monthIndex + 1);
    var dd := TwoDigits(d.date);
    var s := y + "-" + m + "-" + dd;
    assert FormatDate(d) == s;
    ParseIntToString(d.fullYear);
    ParseTwoDigits(d.monthIndex + 1);
    ParseTwoDigits(d.date);
    var n := |s|;
    assert n == |y| + 6;
    assert s[..n - 6] == y;
    assert s[n - 5..n - 3] == m;
    assert s[n - 2..] == dd;
    assert s[n - 6] == '-' && s[n - 3] == '-';
  }

  /** Distinct dates never share a text. */
  lemma FormatDateInjective(d1: JsDate, d2: JsDate)
    requires FormatDate(d1) == FormatDate(d2)
    ensures d1 == d2
  {
    FormatDateRoundTrip(d1);
    FormatDateRoundTrip(d2);
  }

  const DAILY_ERROR := "Failed to load daily visitor data."

  /** The query's filter for a date: `eq('expected_date', …)` and status pending or active. */
  function OnDateAndOpen(date: CalendarDate): Registration -> bool
  {
    (r: Registration) => r.expectedDate == date && (r.status == PENDING || r.status == ACTIVE)
  }

  datatype DailyOutcome =
    | DailyRedirect(status: int, location: string)
    | DailyPage(registrations: seq<Registration>, error: Option<string>, selectedDate: string)

  /** `load`: administrators only; the rows for the chosen date or, on a query error, an
      empty list and a message, with the chosen date in either case. */
  function Load(session: Option<Session>, user: Option<User>, queryDate: Option<string>,
                parsed: Option<JsDate>, today: JsDate, response: QueryResult<Registration>): (o: DailyOutcome)
    ensures o.DailyPage? <==> Authenticated(session, user) && IsAdmin(user)
    ensures o.DailyRedirect? ==> o == DailyRedirect(SEE_OTHER, UNAUTHORIZED_PATH)
    ensures o.DailyPage? ==> o.selectedDate == FormatDate(TargetDate(queryDate, parsed, today))
    ensures o.DailyPage? && response.QueryError? ==> o.registrations == [] && o.error == Some(DAILY_ERROR)
    ensures o.DailyPage? && response.Rows? ==> o.registrations == response.data && o.error.None?
  {
    if session.None? || user.None? || user.value.role != Some(ADMIN_ROLE) then
      DailyRedirect(SEE_OTHER, UNAUTHORIZED_PATH)
    else
      var selected := FormatDate(TargetDate(queryDate, parsed, today));
      match response
      case QueryError(_) => DailyPage([], Some(DAILY_ERROR), selected)
      case Rows(data) => DailyPage(data, None, selected)
  }

  /** For a four-digit target year the selected text is the ISO form of the target date, and
      when the database answers the query for that date correctly, the page shows exactly
      the table's pending and active rows expected on it, by time with unset times last. */
  lemma LoadShowsOpenRowsOfTheDay(table: seq<Registration>, session: Session, admin: User,
                                  queryDate: Option<string>, parsed: Option<JsDate>, today: JsDate,
                                  rows: seq<Registration>)
    requires admin.role == Some(ADMIN_ROLE)
    requires 1000 <= TargetDate(queryDate, parsed, today).fullYear <= 9999
    requires var d := TargetDate(queryDate, parsed, today);
      Listing.IsListing(table, OnDateAndOpen(CalendarDate(d.fullYear, d.monthIndex + 1, d.date)), Visitors.ByTime, rows)
    ensures var o := Load(Some(session), Some(admin), queryDate, parsed, today, Rows(rows));
      var d := TargetDate(queryDate, parsed, today);
      o.DailyPage? &&
      |o.selectedDate| == 10 &&
      ParseDate(o.selectedDate) == Some(CalendarDate(d.fullYear, d.monthIndex + 1, d.date)) &&
      (forall r :: r in o.registrations <==>
         r in table && r.expectedDate == CalendarDate(d.fullYear, d.monthIndex + 1, d.date) &&
         r.status in {PENDING, ACTIVE}) &&
      Listing.SortedBy(o.registrations, Visitors.ByTime)
  {
    var d := TargetDate(queryDate, parsed, today);
    var o := Load(Some(session), Some(admin), queryDate, parsed, today, Rows(rows));
    assert o.selectedDate == FormatDate(d) && o.registrations == rows;
    FourDigitYearGivesTenCharacters(d);
    FormatDateRoundTrip(d);
    Listing.ListingMembers(table, OnDateAndOpen(CalendarDate(d.fullYear, d.monthIndex + 1, d.date)), Visitors.ByTime, rows);
  }
}
