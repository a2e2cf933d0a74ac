/** The root layout load (src/routes/+layout.ts): the cookie reader handed to
    the browser client, and the session the layout passes on to the pages. */
module Layout {

  import opened Types
  import opened Strings

  /** One cookie as the client library receives it from `getAll`. */
  datatype CookiePair = CookiePair(name: string, value: string)

  const ENTRY_SEPARATOR := "; "
  const ACCESS_TOKEN_COOKIE := "sb-access-token"

  /** `const [name, ...rest] = c.split('='); { name, value: rest.join('=') }`. */
  function ParseEntry(entry: string): CookiePair
  {
    var pieces := Split(entry, "=");
    CookiePair(pieces[0], Join(pieces[1..], "="))
  }

  /** The name is the text before the first `=`; the value is all the rest, later `=` included. */
  lemma ParseEntryCutsAtFirstEquals(entry: string)
    ensures '=' !in ParseEntry(entry).name
    ensures '=' in entry ==> ParseEntry(entry).name + "=" + ParseEntry(entry).value == entry
    ensures '=' !in entry ==> ParseEntry(entry) == CookiePair(entry, "")
  {
    var pieces := Split(entry, "=");
    SplitPiecesAvoidSep(entry, "=");
    ContainsChar(pieces[0], '=');
    JoinSplit(entry, "=");
    if |pieces| == 1 {
      assert Join(pieces, "=") == pieces[0] == entry;
      ContainsChar(entry, '=');
    } else {
      assert pieces == [pieces[0]] + pieces[1..];
      JoinCons(pieces[0], pieces[1..], "=");
    }
  }

  /** The browser branch: `document.cookie.split('; ').map(...)`. */
  function ParseCookieString(cookie: string): (pairs: seq<CookiePair>)
    ensures |pairs| == |Split(cookie, ENTRY_SEPARATOR)|
    ensures forall k :: 0 <= k < |pairs| ==> pairs[k] == ParseEntry(Split(cookie, ENTRY_SEPARATOR)[k])
  {
    var entries := Split(cookie, ENTRY_SEPARATOR);
    seq(|entries|, k requires 0 <= k < |entries| => ParseEntry(entries[k]))
  }

  /** The entries are the `; `-separated segments of the cookie string, in order and
      without loss, and each is cut at its first `=`. */
  lemma ParseCookieStringSegments(cookie: string)
    ensures var entries := Split(cookie, ENTRY_SEPARATOR);
      Join(entries, ENTRY_SEPARATOR) == cookie &&
      |ParseCookieString(cookie)| == |entries| &&
      forall k :: 0 <= k < |entries| ==> !Contains(entries[k], ENTRY_SEPARATOR)
  {
    JoinSplit(cookie, ENTRY_SEPARATOR);
    SplitPiecesAvoidSep(cookie, ENTRY_SEPARATOR);
  }

  lemma ParsedNamesAvoidEquals(cookie: string)
    ensures forall k :: 0 <= k < |ParseCookieString(cookie)| ==> '=' !in ParseCookieString(cookie)[k].name
  {
    var pairs := ParseCookieString(cookie);
    forall k | 0 <= k < |pairs|
      ensures '=' !in pairs[k].name
    {
      ParseEntryCutsAtFirstEquals(Split(cookie, ENTRY_SEPARATOR)[k]);
    }
  }

  /** An empty cookie string still gives one entry, with empty name and value. */
  lemma EmptyCookieString()
    ensures ParseCookieString("") == [CookiePair("", "")]
  {
  }

  /** `getAll`: off the browser, only the server session's access token; in the browser,
      the parsed `document.cookie`. */
  function GetAll(browser: bool, documentCookie: string, serverSession: Option<Session>): (pairs: seq<CookiePair>)
    ensures !browser && serverSession.Some? ==> pairs == [CookiePair(ACCESS_TOKEN_COOKIE, serverSession.value.accessToken)]
    ensures !browser && serverSession.None? ==> pairs == []
    ensures browser ==> pairs == ParseCookieString(documentCookie)
    ensures browser ==> |pairs| >= 1 && forall k :: 0 <= k < |pairs| ==> '=' !in pairs[k].name
  {
    if !browser then
      if serverSession.Some? then [CookiePair(ACCESS_TOKEN_COOKIE, serverSession.value.accessToken)] else []
    else
      ParsedNamesAvoidEquals(documentCookie);
      ParseCookieString(documentCookie)
  }

  /** What the layout returns to the pages. */
  datatype LayoutData = LayoutData(session: Option<Session>)

  /** `load` hands on the server's session as it came, whatever the client-side
      `getSession` reported. */
  function Load(serverSession: Option<Session>, clientSession: Option<Session>): (data: LayoutData)
    ensures data.session == serverSession
  {
    LayoutData(serverSession)
  }
}
