/**
 * The colour theme: a single value, `light` or `dark`, read once from a
 * key-value store, changed by `setTheme` and `toggleTheme`, and written back
 * to the store and to the class lists of the document root and body by an
 * effect that runs whenever it changes.
 */
module Theme {
  import opened Js

  const StorageKey: string := "portfolio-theme"
  const Light: string := "light"
  const Dark: string := "dark"

  predicate IsTheme(t: string) {
    t == Light || t == Dark
  }

  /** `localStorage.getItem(key)`: the stored string, or null when the key is absent. */
  function GetItem(store: map<string, string>, key: string): (r: Option<string>)
    ensures r.Some? <==> key in store
    ensures r.Some? ==> r.value == store[key]
  {
    if key in store then Some(store[key]) else None
  }

  /**
   * The initial theme: whatever non-empty string the store holds under the
   * theme key, else `light`. It is never empty.
   */
  function InitialTheme(store: map<string, string>): (theme: string)
    ensures theme != ""
    ensures StorageKey in store && store[StorageKey] != "" ==> theme == store[StorageKey]
    ensures StorageKey !in store || store[StorageKey] == "" ==> theme == Light
  {
    OrElse(GetItem(store, StorageKey), Light)
  }

  /** `setTheme`: anything but exactly `dark` means `light`. */
  function Normalize(value: string): (theme: string)
    ensures IsTheme(theme)
    ensures theme == Dark <==> value == Dark
  {
    if value == Dark then Dark else Light
  }

  /** Setting a theme that is already a theme keeps it, so `setTheme` is idempotent. */
  lemma NormalizeIdempotent(value: string)
    ensures Normalize(Normalize(value)) == Normalize(value)
    ensures IsTheme(value) ==> Normalize(value) == value
  {
  }

  /** `toggleTheme`: `light` from `dark`, and `dark` from anything else. */
  function Toggled(prev: string): (theme: string)
    ensures IsTheme(theme)
    ensures theme != prev
    ensures theme == Light <==> prev == Dark
  {
    if prev == Dark then Light else Dark
  }

  /** Toggling twice returns to a theme one started from. */
  lemma ToggleInvolution(theme: string)
    requires IsTheme(theme)
    ensures Toggled(Toggled(theme)) == theme
  {
  }

  /**
   * `classList.remove('light', 'dark'); classList.add(theme)`: the theme is
   * present, every other class is present exactly when it was before, and
   * neither `light` nor `dark` survives unless it is the theme, whatever the
   * theme is (a stored value need not be `light` or `dark`).
   */
  function WithThemeClass(classes: set<string>, theme: string): (r: set<string>)
    ensures theme in r
    ensures forall c :: c != Light && c != Dark && c != theme ==> (c in r <==> c in classes)
    ensures (Light in r <==> theme == Light) && (Dark in r <==> theme == Dark)
  {
    classes - {Light, Dark} + {theme}
  }

  /** The last theme applied is the only one that shows: the effect overrides earlier runs. */
  lemma WithThemeClassOverrides(classes: set<string>, first: string, second: string)
    requires IsTheme(first)
    ensures WithThemeClass(WithThemeClass(classes, first), second) == WithThemeClass(classes, second)
  {
  }

  /** Applying the same theme twice is the same as applying it once. */
  lemma WithThemeClassIdempotent(classes: set<string>, theme: string)
    requires IsTheme(theme)
    ensures WithThemeClass(WithThemeClass(classes, theme), theme) == WithThemeClass(classes, theme)
  {
    WithThemeClassOverrides(classes, theme, theme);
  }

  /** What the provider persisted is what the next visit starts with. */
  lemma PersistedThemeIsRestored(store: map<string, string>, theme: string)
    requires theme != ""
    ensures InitialTheme(store[StorageKey := theme]) == theme
  {
  }

  /** The outcome of `useTheme`: the provider's value, or the error it throws. */
  datatype Hook<C> = Provided(ctx: C) | Thrown(message: string)

  const OutsideProvider: string := "useTheme must be used within ThemeProvider"

  /** `useTheme`: fails exactly when there is no provider value above the caller. */
  function UseTheme<C>(ctx: Option<C>): (r: Hook<C>)
    ensures r.Provided? <==> ctx.Some?
    ensures r.Provided? ==> r.ctx == ctx.value
    ensures r.Thrown? ==> r.message == OutsideProvider
  {
    match ctx
    case None => Thrown(OutsideProvider)
    case Some(c) => Provided(c)
  }

  /**
   * The mounted provider together with the browser state it touches: the
   * store and the class sets of `document.documentElement` and `document.body`.
   */
  class ThemeProvider {
    var theme: string
    var store: map<string, string>
    var rootClasses: set<string>
    var bodyClasses: set<string>

    /** The effect has run for the current theme: both class sets and the store agree with it. */
    ghost predicate Synced()
      reads this
    {
      && theme != ""
      && theme in rootClasses
      && theme in bodyClasses
      && StorageKey in store && store[StorageKey] == theme
    }

    /** Mounting: the lazy initial state, then the effect's first run. */
    constructor (store0: map<string, string>, root0: set<string>, body0: set<string>)
      ensures Synced()
      ensures theme == InitialTheme(store0)
      ensures rootClasses == WithThemeClass(root0, theme)
      ensures bodyClasses == WithThemeClass(body0, theme)
      ensures store == store0[StorageKey := theme]
    {
      theme := InitialTheme(store0);
      store := store0;
      rootClasses := root0;
      bodyClasses := body0;
      new;
      ApplyTheme();
    }

    /** The effect body (16-24): reset both class lists to the theme, then persist it. */
    method ApplyTheme()
      requires theme != ""
      modifies this
      ensures Synced()
      ensures theme == old(theme)
      ensures rootClasses == WithThemeClass(old(rootClasses), theme)
      ensures bodyClasses == WithThemeClass(old(bodyClasses), theme)
      ensures store == old(store)[StorageKey := theme]
    {
      rootClasses := rootClasses - {Light, Dark};
      rootClasses := rootClasses + {theme};
      bodyClasses := bodyClasses - {Light, Dark};
      bodyClasses := bodyClasses + {theme};
      store := store[StorageKey := theme];
    }

    /** `setTheme(value)` followed by the effect. */
    method SetTheme(value: string)
      modifies this
      ensures Synced() && IsTheme(theme)
      ensures theme == Normalize(value)
      ensures rootClasses == WithThemeClass(old(rootClasses), theme)
      ensures bodyClasses == WithThemeClass(old(bodyClasses), theme)
      ensures store == old(store)[StorageKey := theme]
    {
      theme := if value == Dark then Dark else Light;
      ApplyTheme();
    }

    /** `toggleTheme()` followed by the effect. */
    method ToggleTheme()
      modifies this
      ensures Synced() && IsTheme(theme)
      ensures theme == Toggled(old(theme))
      ensures rootClasses == WithThemeClass(old(rootClasses), theme)
      ensures bodyClasses == WithThemeClass(old(bodyClasses), theme)
      ensures store == old(store)[StorageKey := theme]
    {
      theme := if theme == Dark then Light else Dark;
      ApplyTheme();
    }
  }
}
