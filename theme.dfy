/** The theme provider: the current theme, whether the provider has mounted, and its two effects,
    with the browser's `localStorage` as a map and the `dark` class of the document root as a flag. */
module Theme {
  import opened Wrappers

  const Light: string := "light"
  const Dark: string := "dark"

  /** The `localStorage` key the theme is kept under. */
  const StorageKey: string := "theme"

  /** What `useTheme` throws outside a provider. */
  const OutsideProvider: string := "useTheme must be used within ThemeProvider"

  /** `toggleTheme`'s updater. The stored theme is read back unchecked, so the theme can be any
      string; everything but `"dark"` toggles to `"dark"`. */
  function Toggled(t: string): (r: string)
    ensures r == Dark <==> t != Dark
    ensures r == Light <==> t == Dark
  {
    if t == Dark then Light else Dark
  }

  /** `localStorage.getItem("theme")`. */
  function StoredTheme(storage: map<string, string>): (stored: Option<string>)
    ensures stored.Some? <==> StorageKey in storage
    ensures stored.Some? ==> stored.value == storage[StorageKey]
  {
    if StorageKey in storage then Some(storage[StorageKey]) else None
  }

  /** `stored ?? (prefersDark ? "dark" : "light")`: a stored value always wins, even an empty one. */
  function InitialTheme(stored: Option<string>, prefersDark: bool): (r: string)
    ensures stored.Some? ==> r == stored.value
    ensures stored.None? ==> (r == Dark <==> prefersDark) && (r == Light <==> !prefersDark)
  {
    match stored
    case Some(t) => t
    case None => if prefersDark then Dark else Light
  }

  /** The provider's state together with the two pieces of the browser it writes. */
  datatype ThemeState = ThemeState(theme: string, mounted: bool, storage: map<string, string>, rootDark: bool)

  /** The state of a provider before its first effect has run. */
  function Unmounted(storage: map<string, string>, rootDark: bool): (s: ThemeState)
    ensures s.theme == Light && !s.mounted
    ensures AfterSync(s) == s
  {
    ThemeState(Light, false, storage, rootDark)
  }

  /** The mount effect: `mounted` goes up and the theme becomes the initial one. */
  function AfterMount(s: ThemeState, prefersDark: bool): (t: ThemeState)
    ensures t.mounted && t.storage == s.storage && t.rootDark == s.rootDark
    ensures StorageKey in s.storage ==> t.theme == s.storage[StorageKey]
    ensures StorageKey !in s.storage ==> (t.theme == Dark <==> prefersDark) && (t.theme == Light <==> !prefersDark)
  {
    s.(mounted := true, theme := InitialTheme(StoredTheme(s.storage), prefersDark))
  }

  /** The sync effect: nothing before mount; afterwards the root's `dark` class and the stored value
      are made to follow the theme. */
  function AfterSync(s: ThemeState): (t: ThemeState)
    ensures t.theme == s.theme && t.mounted == s.mounted
    ensures !s.mounted ==> t == s
    ensures s.mounted ==> InSync(t) && t.storage - {StorageKey} == s.storage - {StorageKey}
  {
    if !s.mounted then s
    else s.(rootDark := s.theme == Dark, storage := s.storage[StorageKey := s.theme])
  }

  /** The root class and the stored value agree with the theme. */
  predicate InSync(s: ThemeState) {
    s.rootDark == (s.theme == Dark) && StoredTheme(s.storage) == Some(s.theme)
  }

  /** The value the provider hands to its consumers. */
  datatype ThemeContextValue = ThemeContextValue(theme: string)

  /** `useTheme`: the provider's value, or the error it throws when there is none. */
  function UseTheme(ctx: Option<ThemeContextValue>): (r: Result<ThemeContextValue, string>)
    ensures r.Failure? <==> ctx.None?
    ensures r.Failure? ==> r.error == OutsideProvider
    ensures r.Success? ==> r.value == ctx.value
  {
    match ctx
    case None => Failure(OutsideProvider)
    case Some(v) => Success(v)
  }

  // ---------------------------------------------------------------------------------------------
  // Properties

  /** Toggling twice is the identity on the two themes. */
  lemma ToggleTwice(t: string)
    requires t == Light || t == Dark
    ensures Toggled(Toggled(t)) == t
  {
  }

  /** A theme that is neither comes back from two toggles as `"light"`. */
  lemma ToggleTwiceOther(t: string)
    requires t != Light && t != Dark
    ensures Toggled(Toggled(t)) == Light
  {
  }

  /** Before mount the sync effect changes nothing. */
  lemma SyncBeforeMount(s: ThemeState)
    requires !s.mounted
    ensures AfterSync(s) == s
  {
  }

  /** Once mounted, a sync leaves the root class and the stored value agreeing with the theme,
      keeps the theme, and touches no other stored key. */
  lemma SyncAfterMount(s: ThemeState)
    requires s.mounted
    ensures InSync(AfterSync(s))
    ensures AfterSync(s).theme == s.theme && AfterSync(s).mounted
    ensures AfterSync(s).storage == s.storage[StorageKey := s.theme]
  {
  }

  /** A second sync has nothing left to do. */
  lemma SyncIdempotent(s: ThemeState)
    ensures AfterSync(AfterSync(s)) == AfterSync(s)
  {
    if s.mounted {
      var t := AfterSync(s);
      assert t.storage[StorageKey := t.theme] == t.storage;
    }
  }

  /** On mount the first synced theme is the stored one, or else the system preference, and the
      root carries the `dark` class exactly when that theme is `"dark"`. */
  lemma MountThenSync(storage: map<string, string>, rootDark: bool, prefersDark: bool)
    ensures var s := AfterSync(AfterMount(Unmounted(storage, rootDark), prefersDark));
      && InSync(s)
      && (StorageKey in storage ==> s.theme == storage[StorageKey])
      && (StorageKey !in storage ==> (s.rootDark <==> prefersDark))
  {
  }

  /** The stored value survives a reload: a provider that synced theme `t` leaves storage from
      which a fresh provider mounts with `t` again, whatever the system prefers. */
  lemma {:induction false} ReloadRestoresTheme(s: ThemeState, prefersDark: bool, rootDark: bool)
    requires s.mounted
    ensures AfterMount(Unmounted(AfterSync(s).storage, rootDark), prefersDark).theme == s.theme
  {
    SyncAfterMount(s);
  }

  /** With any synced theme, toggling and syncing flips the root's `dark` class. */
  lemma ToggleFlipsRoot(s: ThemeState)
    requires s.mounted && InSync(s)
    ensures AfterSync(s.(theme := Toggled(s.theme))).rootDark == !s.rootDark
  {
  }

  // ---------------------------------------------------------------------------------------------
  // The component

  class ThemeProvider {
    var theme: string
    var mounted: bool
    /** `localStorage`. */
    var storage: map<string, string>
    /** Whether `document.documentElement` has the class `dark`. */
    var rootDark: bool

    function State(): ThemeState
      reads this
    {
      ThemeState(theme, mounted, storage, rootDark)
    }

    /** The first render: `useState("light")` and `useState(false)`. */
    constructor (storage: map<string, string>, rootDark: bool)
      ensures State() == Unmounted(storage, rootDark)
    {
      theme, mounted := Light, false;
      this.storage, this.rootDark := storage, rootDark;
    }

    /** The effect that runs once on mount; `prefersDark` is the answer of
        `matchMedia("(prefers-color-scheme: dark)")`. */
    method MountEffect(prefersDark: bool)
      modifies this
      ensures State() == AfterMount(old(State()), prefersDark)
    {
      mounted := true;
      var stored := StoredTheme(storage);
      theme := InitialTheme(stored, prefersDark);
    }

    /** The effect that runs whenever `theme` or `mounted` changes. */
    method SyncEffect()
      modifies this
      ensures State() == AfterSync(old(State()))
      ensures mounted ==> InSync(State())
    {
      if !mounted {
        return;
      }
      rootDark := theme == Dark;
      storage := storage[StorageKey := theme];
    }

    /** `setTheme(next)`: the theme is `next` and nothing else changes. */
    method SetTheme(next: string)
      modifies this`theme
      ensures theme == next
    {
      theme := next;
    }

    /** `toggleTheme()`. */
    method ToggleTheme()
      modifies this`theme
      ensures theme == Toggled(old(theme))
    {
      theme := Toggled(theme);
    }

    /** The value the provider exposes to `useTheme`. */
    function Value(): (v: ThemeContextValue)
      reads this
      ensures UseTheme(Some(v)) == Success(v) && v.theme == theme
    {
      ThemeContextValue(theme)
    }
  }
}
