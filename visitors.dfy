/** A resident's own pre-registrations (src/routes/visitors/+page.server.ts):
    the listing `load` and the `cancelRegistration` action. */
module Visitors {

  import opened Types
  import Listing

  // ---------------------------------------------------------------------------
  // Ordering shared by the resident's and the daily listing
  // ---------------------------------------------------------------------------

  predicate DateLe(a: CalendarDate, b: CalendarDate)
  {
    a.year < b.year ||
    (a.year == b.year && (a.month < b.month || (a.month == b.month && a.day <= b.day)))
  }

  /** `order('expected_time', { ascending: true, nullsFirst: false })`: a missing time
      sorts after every time. */
  predicate TimeNullsLastLe(a: Option<TimeOfDay>, b: Option<TimeOfDay>)
  {
    b.None? ||
    (a.Some? && (a.value.hour < b.value.hour ||
                 (a.value.hour == b.value.hour && a.value.minute <= b.value.minute)))
  }

  /** Expected date ascending, then expected time ascending with nulls last. */
  predicate ByDateThenTime(a: Registration, b: Registration)
  {
    DateLe(a.expectedDate, b.expectedDate) &&
    (a.expectedDate == b.expectedDate ==> TimeNullsLastLe(a.expectedTime, b.expectedTime))
  }

  /** Expected time ascending with nulls last. */
  predicate ByTime(a: Registration, b: Registration)
  {
    TimeNullsLastLe(a.expectedTime, b.expectedTime)
  }

  lemma ByDateThenTimeIsTotalPreorder()
    ensures Listing.TotalPreorder(ByDateThenTime)
  {
  }

  lemma ByTimeIsTotalPreorder()
    ensures Listing.TotalPreorder(ByTime)
  {
  }

  // ---------------------------------------------------------------------------
  // load
  // ---------------------------------------------------------------------------

  const VISITORS_PATH := "/visitors"
  const LOAD_ERROR := "Failed to load pre-registrations."
  const CANCEL_ERROR_PREFIX := "Failed to cancel registration: "

  function OwnedBy(uid: string): Registration -> bool
  {
    (r: Registration) => r.residentUserId == uid
  }

  datatype LoadOutcome =
    | LoadRedirect(status: int, location: string)
    | Page(preregistrations: seq<Registration>, error: Option<string>)

  /** `load`: log in first; then the answer of the owner query, or an empty list and a
      message when the query fails. */
  function Load(session: Option<Session>, user: Option<User>, response: QueryResult<Registration>): (o: LoadOutcome)
    ensures !Authenticated(session, user) <==> o == LoadRedirect(SEE_OTHER, LoginRedirect(VISITORS_PATH))
    ensures Authenticated(session, user) && response.QueryError? ==> o == Page([], Some(LOAD_ERROR))
    ensures Authenticated(session, user) && response.Rows? ==> o == Page(response.data, None)
  {
    if !Authenticated(session, user) then LoadRedirect(SEE_OTHER, LoginRedirect(VISITORS_PATH))
    else match response
      case QueryError(_) => Page([], Some(LOAD_ERROR))
      case Rows(data) => Page(data, None)
  }

  /** When the database answers the owner query correctly, the page shows exactly the
      signed-in resident's rows, by date and then time with unset times last. */
  lemma LoadShowsOwnRowsInOrder(table: seq<Registration>, session: Session, user: User, rows: seq<Registration>)
    requires Listing.IsListing(table, OwnedBy(user.id), ByDateThenTime, rows)
    ensures var o := Load(Some(session), Some(user), Rows(rows));
      o.Page? && o.error.None? &&
      (forall r :: r in o.preregistrations <==> r in table && r.residentUserId == user.id) &&
      Listing.SortedBy(o.preregistrations, ByDateThenTime)
  {
    Listing.ListingMembers(table, OwnedBy(user.id), ByDateThenTime, rows);
  }

  // ---------------------------------------------------------------------------
  // cancelRegistration
  // ---------------------------------------------------------------------------

  datatype CancelOutcome =
    | NotAuthenticated                         // fail(401)
    | MissingId                                // fail(400)
    | NotFound                                 // fail(404)
    | NotPending(status: string, id: string)   // fail(400), echoing the id
    | UpdateFailed(id: string, message: string) // fail(500), echoing the id
    | Cancelled(cancelledId: string)           // { success: true, cancelledId }
  {
    function StatusCode(): int
    {
      match this
      case NotAuthenticated => 401
      case MissingId => 400
      case NotFound => 404
      case NotPending(_, _) => 400
      case UpdateFailed(_, _) => 500
      case Cancelled(_) => 200
    }
  }

  /** The position of the row with id `id` owned by `uid`, if there is one. */
  function FindOwned(rows: seq<Registration>, id: string, uid: string): (k: Option<nat>)
    ensures k.Some? ==> k.value < |rows| && rows[k.value].id == id && rows[k.value].residentUserId == uid
    ensures k.None? ==> forall i :: 0 <= i < |rows| ==> !(rows[i].id == id && rows[i].residentUserId == uid)
  {
    if rows == [] then None
    else if rows[0].id == id && rows[0].residentUserId == uid then Some(0)
    else match FindOwned(rows[1..], id, uid)
      case None => None
      case Some(k) => Some(k + 1)
  }

  /** The `update ... eq('id').eq('resident_user_id')` statement: every matching row gets
      status `cancelled` and the new `updated_at`; every other row stays as it was. */
  function CancelMatching(rows: seq<Registration>, id: string, uid: string, now: string): (r: seq<Registration>)
    ensures |r| == |rows|
    ensures forall i :: 0 <= i < |rows| && rows[i].id == id && rows[i].residentUserId == uid ==>
              r[i] == rows[i].(status := CANCELLED, updatedAt := Some(now))
    ensures forall i :: 0 <= i < |rows| && !(rows[i].id == id && rows[i].residentUserId == uid) ==>
              r[i] == rows[i]
  {
    seq(|rows|, i requires 0 <= i < |rows| =>
      if rows[i].id == id && rows[i].residentUserId == uid
      then rows[i].(status := CANCELLED, updatedAt := Some(now))
      else rows[i])
  }

  /** The `visitor_preregistrations` table. */
  class RegistrationTable {
    var rows: seq<Registration>

    /** `id` is the primary key. */
    ghost predicate Valid()
      reads this
    {
      forall i, j :: 0 <= i < j < |rows| ==> rows[i].id != rows[j].id
    }

    constructor (rows: seq<Registration>)
      requires forall i, j :: 0 <= i < j < |rows| ==> rows[i].id != rows[j].id
      ensures Valid() && this.rows == rows
    {
      this.rows := rows;
    }

    /** `cancelRegistration`: authentication, then a non-empty id, then a row with that id
        owned by the user (`fetchFailed` is a failure of that select), then status `pending`;
        only then the update (`updateError` is its failure, `now` the clock). */
    method CancelRegistration(session: Option<Session>, user: Option<User>, formId: Option<string>,
                              fetchFailed: bool, updateError: Option<string>, now: string)
      returns (o: CancelOutcome)
      requires Valid()
      modifies this
      ensures Valid()
      ensures !Authenticated(session, user) ==> o == NotAuthenticated
      ensures Authenticated(session, user) && (formId.None? || formId.value == "") ==> o == MissingId
      ensures o.NotFound? <==>
                Authenticated(session, user) && formId.Some? && formId.value != "" &&
                (fetchFailed || FindOwned(old(rows), formId.value, user.value.id).None?)
      ensures o.NotPending? <==>
                Authenticated(session, user) && formId.Some? && formId.value != "" && !fetchFailed &&
                var k := FindOwned(old(rows), formId.value, user.value.id);
                k.Some? && old(rows)[k.value].status != PENDING
      ensures o.NotPending? ==>
                var k := FindOwned(old(rows), formId.value, user.value.id);
                k.Some? && o == NotPending(old(rows)[k.value].status, formId.value)
      ensures o.UpdateFailed? <==>
                Authenticated(session, user) && formId.Some? && formId.value != "" && !fetchFailed &&
                var k := FindOwned(old(rows), formId.value, user.value.id);
                k.Some? && old(rows)[k.value].status == PENDING && updateError.Some?
      ensures o.UpdateFailed? ==> o == UpdateFailed(formId.value, CANCEL_ERROR_PREFIX + updateError.value)
      ensures o.Cancelled? <==>
                Authenticated(session, user) && formId.Some? && formId.value != "" && !fetchFailed &&
                var k := FindOwned(old(rows), formId.value, user.value.id);
                k.Some? && old(rows)[k.value].status == PENDING && updateError.None?
      ensures o.Cancelled? ==>
                o.cancelledId == formId.value &&
                rows == CancelMatching(old(rows), formId.value, user.value.id, now)
      ensures !o.Cancelled? ==> rows == old(rows)
    {
      if session.None? || user.None? {
        return NotAuthenticated;
      }
      if formId.None? || formId.value == "" {
        return MissingId;
      }
      var id := formId.value;
      var uid := user.value.id;
      var found := FindOwned(rows, id, uid);
      if fetchFailed || found.None? {
        return NotFound;
      }
      var existing := rows[found.value];
      if existing.status != PENDING {
        return NotPending(existing.status, id);
      }
      if updateError.Some? {
        return UpdateFailed(id, CANCEL_ERROR_PREFIX + updateError.value);
      }
      rows := CancelMatching(rows, id, uid, now);
      return Cancelled(id);
    }
  }

  /** A successful cancellation changes exactly one row, the one that was found, and
      changes only its status (to `cancelled`) and its `updated_at`. */
  lemma CancelChangesOneRow(rows: seq<Registration>, id: string, uid: string, now: string, k: nat)
    requires forall i, j :: 0 <= i < j < |rows| ==> rows[i].id != rows[j].id
    requires FindOwned(rows, id, uid) == Some(k)
    ensures var r := CancelMatching(rows, id, uid, now);
      r[k] == rows[k].(status := CANCELLED, updatedAt := Some(now)) &&
      forall i :: 0 <= i < |rows| && i != k ==> r[i] == rows[i]
  {
  }
}
