/** Shapes shared by the server hook, the page handlers and the client stores:
    the identity provider's Session and User, the rows of the two tables the
    handlers read, and the redirect targets of the authorization checks. */
module Types {

  datatype Option<+T> = None | Some(value: T)

  /** The provider's bearer credential; the application only ever reads the access token. */
  datatype Session = Session(accessToken: string, refreshToken: string)

  /** The verified principal: its id and the `app_metadata.role` claim, which may be missing. */
  datatype User = User(id: string, role: Option<string>)

  const ADMIN_ROLE := "admin"

  /** `user.app_metadata?.role === 'admin'` for a user that may be null. */
  predicate IsAdmin(user: Option<User>)
  {
    user.Some? && user.value.role == Some(ADMIN_ROLE)
  }

  /** `session && user`: both halves of the request's identity are present. */
  predicate Authenticated(session: Option<Session>, user: Option<User>)
  {
    session.Some? && user.Some?
  }

  const LOGIN_PATH := "/login?redirect="
  const UNAUTHORIZED_PATH := "/unauthorized"
  const SEE_OTHER := 303

  /** The login page, carrying the page to come back to (not URL-encoded, as in the source). */
  function LoginRedirect(returnTo: string): (location: string)
    ensures |location| == |LOGIN_PATH| + |returnTo| && location[..|LOGIN_PATH|] == LOGIN_PATH
    ensures location[|LOGIN_PATH|..] == returnTo
    ensures location != UNAUTHORIZED_PATH
  {
    var location := LOGIN_PATH + returnTo;
    assert location[1] == 'l' && UNAUTHORIZED_PATH[1] == 'u';
    location
  }

  /** A calendar date as the database's DATE column holds it (month 1..12). */
  datatype CalendarDate = CalendarDate(year: int, month: int, day: int)

  /** A time of day as the database's TIME column holds it. */
  datatype TimeOfDay = TimeOfDay(hour: int, minute: int)

  /** Statuses written or tested by the handlers; the column may hold others. */
  const PENDING := "pending"
  const ACTIVE := "active"
  const CANCELLED := "cancelled"

  /** A row of `visitor_preregistrations`. */
  datatype Registration = Registration(
    id: string,
    residentUserId: string,
    visitorName: string,
    expectedDate: CalendarDate,
    expectedTime: Option<TimeOfDay>,
    vehiclePlate: Option<string>,
    status: string,
    updatedAt: Option<string>)

  /** A row of `buildings`. */
  datatype Building = Building(
    id: string,
    name: string,
    address: Option<string>,
    numberOfFloors: Option<int>,
    createdAt: string)

  /** What a `select` returns: the rows, or the provider's error. */
  datatype QueryResult<T> = Rows(data: seq<T>) | QueryError(message: string)
}
