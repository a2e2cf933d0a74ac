/** The administrators' building list (src/routes/admin/buildings/+page.server.ts):
    a user-presence check, the buildings by name, and the error fallback. */
module Buildings {

  import opened Types
  import Listing

  /** Text order, character by character; a proper prefix comes first. */
  predicate TextLe(a: string, b: string)
  {
    if |a| == 0 then true
    else if |b| == 0 then false
    else if a[0] != b[0] then a[0] < b[0]
    else TextLe(a[1..], b[1..])
  }

  lemma {:induction false} TextLeTotal(a: string, b: string)
    ensures TextLe(a, b) || TextLe(b, a)
  {
    if |a| > 0 && |b| > 0 && a[0] == b[0] {
      TextLeTotal(a[1..], b[1..]);
    }
  }

  lemma {:induction false} TextLeTransitive(a: string, b: string, c: string)
    requires TextLe(a, b) && TextLe(b, c)
    ensures TextLe(a, c)
  {
    if |a| > 0 && |b| > 0 && |c| > 0 && a[0] == b[0] && b[0] == c[0] {
      TextLeTransitive(a[1..], b[1..], c[1..]);
    }
  }

  /** `order('name', { ascending: true })`. */
  predicate ByName(a: Building, b: Building)
  {
    TextLe(a.name, b.name)
  }

  lemma ByNameIsTotalPreorder()
    ensures Listing.TotalPreorder(ByName)
  {
    forall a: Building, b: Building
      ensures ByName(a, b) || ByName(b, a)
    {
      TextLeTotal(a.name, b.name);
    }
    forall a: Building, b: Building, c: Building | ByName(a, b) && ByName(b, c)
      ensures ByName(a, c)
    {
      TextLeTransitive(a.name, b.name, c.name);
    }
  }

  const LIST_PATH := "/admin/buildings"

  function Everything(b: Building): bool
  {
    true
  }

  datatype LoadOutcome =
    | LoadRedirect(status: int, location: string)
    | Page(buildings: seq<Building>, error: Option<string>)

  /** `load`: a signed-in user is all it asks for; then the buildings, or an empty list
      and the provider's message. */
  function Load(user: Option<User>, response: QueryResult<Building>): (o: LoadOutcome)
    ensures user.None? <==> o == LoadRedirect(SEE_OTHER, LoginRedirect(LIST_PATH))
    ensures user.Some? && response.QueryError? ==> o == Page([], Some(response.message))
    ensures user.Some? && response.Rows? ==> o == Page(response.data, None)
  {
    if user.None? then LoadRedirect(SEE_OTHER, LoginRedirect(LIST_PATH))
    else match response
      case QueryError(message) => Page([], Some(message))
      case Rows(data) => Page(data, None)
  }

  /** The role is not looked at: any signed-in user gets the list. */
  lemma LoadIgnoresRole(u: User, role: Option<string>, response: QueryResult<Building>)
    ensures Load(Some(u), response) == Load(Some(u.(role := role)), response)
    ensures Load(Some(u), response).Page?
  {
  }

  /** When the database answers correctly, the page shows every building once, by name. */
  lemma LoadShowsAllByName(table: seq<Building>, user: User, rows: seq<Building>)
    requires Listing.IsListing(table, Everything, ByName, rows)
    ensures var o := Load(Some(user), Rows(rows));
      o.Page? && multiset(o.buildings) == multiset(table) && Listing.SortedBy(o.buildings, ByName)
  {
  }
}
