/** The light/dark theme (src/lib/stores/themeStore.ts): the theme store, its
    initial value, and in the browser the `theme` entry of local storage and the
    `dark` class on the document element, both kept in step with the store. */
module ThemeStore {

  import opened Types

  datatype Theme = Light | Dark

  const THEME_KEY := "theme"
  const DARK_CLASS := "dark"

  function Name(t: Theme): string
  {
    match t
    case Light => "light"
    case Dark => "dark"
  }

  /** The toggle mapping: light becomes dark and anything else becomes light. */
  function Toggled(t: Theme): (r: Theme)
    ensures r != t
  {
    if t == Light then Dark else Light
  }

  lemma ToggleTwiceRestores(t: Theme)
    ensures Toggled(Toggled(t)) == t
  {
  }

  /** `getStoredTheme`: the stored value when it is exactly "dark" or "light". */
  function StoredTheme(browser: bool, storage: map<string, string>): (r: Option<Theme>)
    ensures r.Some? <==> browser && THEME_KEY in storage && storage[THEME_KEY] in {"dark", "light"}
    ensures r.Some? ==> Name(r.value) == storage[THEME_KEY]
  {
    if !browser || THEME_KEY !in storage then None
    else if storage[THEME_KEY] == "dark" then Some(Dark)
    else if storage[THEME_KEY] == "light" then Some(Light)
    else None
  }

  /** `getSystemPreference`; `prefersDark` is the `prefers-color-scheme: dark` media query. */
  function SystemPreference(browser: bool, prefersDark: bool): (r: Theme)
    ensures r == Dark <==> browser && prefersDark
  {
    if !browser then Light else if prefersDark then Dark else Light
  }

  /** `getStoredTheme() ?? getSystemPreference()`. */
  function InitialTheme(browser: bool, storage: map<string, string>, prefersDark: bool): (r: Theme)
    ensures StoredTheme(browser, storage).Some? ==> r == StoredTheme(browser, storage).value
    ensures StoredTheme(browser, storage).None? ==> r == SystemPreference(browser, prefersDark)
    ensures !browser ==> r == Light
  {
    match StoredTheme(browser, storage)
    case Some(t) => t
    case None => SystemPreference(browser, prefersDark)
  }

  /** Storage and document as the subscription leaves them for theme `t`. */
  predicate Reflects(t: Theme, storage: map<string, string>, classes: set<string>)
  {
    THEME_KEY in storage && storage[THEME_KEY] == Name(t) && (DARK_CLASS in classes <==> t == Dark)
  }

  /** The document's classes after adding or removing `dark` for theme `t`. */
  function ClassesFor(t: Theme, classes: set<string>): (r: set<string>)
    ensures DARK_CLASS in r <==> t == Dark
    ensures r - {DARK_CLASS} == classes - {DARK_CLASS}
  {
    if t == Dark then classes + {DARK_CLASS} else classes - {DARK_CLASS}
  }

  /** The theme store together with the browser state it drives. */
  class ThemeState {
    const browser: bool
    var theme: Theme
    var storage: map<string, string>
    var classes: set<string>

    /** In the browser, storage and the document always show the current theme. */
    ghost predicate Valid()
      reads this
    {
      browser ==> Reflects(theme, storage, classes)
    }

    /** Module initialisation: the initial theme; in the browser the subscription runs
        once at once, and then the initial class is set again. */
    constructor (browser: bool, storage: map<string, string>, classes: set<string>, prefersDark: bool)
      ensures Valid()
      ensures this.browser == browser
      ensures theme == InitialTheme(browser, storage, prefersDark)
      ensures browser ==> this.storage == storage[THEME_KEY := Name(theme)] && this.classes == ClassesFor(theme, classes)
      ensures !browser ==> this.storage == storage && this.classes == classes
    {
      this.browser := browser;
      theme := InitialTheme(browser, storage, prefersDark);
      this.storage := storage;
      this.classes := classes;
      new;
      if browser {
        Subscriber();
        this.classes := ClassesFor(theme, this.classes);
      }
    }

    /** The subscription callback: class first, then the storage entry. */
    method Subscriber()
      modifies this
      ensures Reflects(theme, storage, classes)
      ensures theme == old(theme)
      ensures storage == old(storage)[THEME_KEY := Name(theme)]
      ensures classes == ClassesFor(theme, old(classes))
    {
      classes := ClassesFor(theme, classes);
      storage := storage[THEME_KEY := Name(theme)];
    }

    /** `toggleTheme`: the update callback writes storage and class itself; the changed
        value then reaches the subscription too. */
    method Toggle()
      requires Valid()
      modifies this
      ensures Valid()
      ensures theme == Toggled(old(theme))
      ensures browser ==> storage == old(storage)[THEME_KEY := Name(theme)] && classes == ClassesFor(theme, old(classes))
      ensures !browser ==> storage == old(storage) && classes == old(classes)
    {
      var newTheme := Toggled(theme);
      if browser {
        storage := storage[THEME_KEY := Name(newTheme)];
        classes := ClassesFor(newTheme, classes);
      }
      theme := newTheme;
      if browser {
        Subscriber();
      }
    }

    /** `setTheme`: `theme.set`, which notifies the subscription only on a change. */
    method SetTheme(newTheme: Theme)
      requires Valid()
      modifies this
      ensures Valid()
      ensures theme == newTheme
      ensures browser && newTheme != old(theme) ==>
                storage == old(storage)[THEME_KEY := Name(theme)] && classes == ClassesFor(theme, old(classes))
      ensures !browser || newTheme == old(theme) ==> storage == old(storage) && classes == old(classes)
    {
      if newTheme != theme {
        theme := newTheme;
        if browser {
          Subscriber();
        }
      }
    }
  }
}
