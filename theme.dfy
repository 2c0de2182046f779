/**
 * The theme provider: which of the `light`/`dark` classes the document root carries, the stored
 * choice under `app-theme`, and the context lookup. The stored value and the system preference
 * are inputs.
 */
module ThemeSettings {
  import opened Wrappers

  datatype Theme = Light | Dark | System

  /** The theme's spelling (`"light"`, `"dark"`, `"system"`). */
  function ThemeName(t: Theme): string
  {
    match t
    case Light => "light"
    case Dark => "dark"
    case System => "system"
  }

  /** The class a theme puts on the root: `system` follows the system preference. */
  function ResolvedClass(t: Theme, systemDark: bool): (c: string)
    ensures c == "light" || c == "dark"
    ensures t == System ==> (c == "dark" <==> systemDark)
    ensures t != System ==> c == ThemeName(t)
  {
    if t == System then (if systemDark then "dark" else "light") else ThemeName(t)
  }

  /** `applyTheme`: remove `light` and `dark` from the root's classes, then add the resolved one. */
  function ApplyTheme(classes: set<string>, t: Theme, systemDark: bool): (r: set<string>)
    ensures ResolvedClass(t, systemDark) in r
    ensures ("light" in r) != ("dark" in r)
    ensures forall c :: c != "light" && c != "dark" ==> (c in r <==> c in classes)
  {
    (classes - {"light", "dark"}) + {ResolvedClass(t, systemDark)}
  }

  /** Applying the same theme twice is applying it once. */
  lemma ApplyThemeIdempotent(classes: set<string>, t: Theme, systemDark: bool)
    ensures ApplyTheme(ApplyTheme(classes, t, systemDark), t, systemDark) == ApplyTheme(classes, t, systemDark)
  {
  }

  /** Only the last application counts. */
  lemma ApplyThemeLastWins(classes: set<string>, t1: Theme, dark1: bool, t2: Theme, dark2: bool)
    ensures ApplyTheme(ApplyTheme(classes, t1, dark1), t2, dark2) == ApplyTheme(classes, t2, dark2)
  {
  }

  /** The storage key of the chosen theme. */
  const StorageKey := "app-theme"

  /** What the context hands to its consumers. */
  datatype ThemeContext = ThemeContext(theme: Theme)

  /** The provider's state, with the browser storage and the root's class list it writes. */
  class ThemeProvider {
    var theme: Theme
    var storage: map<string, Theme>
    var rootClasses: set<string>

    /** Before its effect runs, the provider's theme is `system`. */
    constructor (storage: map<string, Theme>, rootClasses: set<string>)
      ensures theme == System && this.storage == storage && this.rootClasses == rootClasses
    {
      theme := System;
      this.storage := storage;
      this.rootClasses := rootClasses;
    }

    /** The mount effect: the stored theme, or `system` when none is stored, becomes active. */
    method Mount(systemDark: bool)
      modifies this
      ensures theme == if StorageKey in old(storage) then old(storage)[StorageKey] else System
      ensures rootClasses == ApplyTheme(old(rootClasses), theme, systemDark)
      ensures storage == old(storage)
    {
      theme := if StorageKey in storage then storage[StorageKey] else System;
      rootClasses := ApplyTheme(rootClasses, theme, systemDark);
    }

    /** `setTheme`: set the state and the stored value, then apply the theme. */
    method SetTheme(t: Theme, systemDark: bool)
      modifies this
      ensures theme == t
      ensures storage == old(storage)[StorageKey := t]
      ensures rootClasses == ApplyTheme(old(rootClasses), t, systemDark)
    {
      theme := t;
      storage := storage[StorageKey := t];
      rootClasses := ApplyTheme(rootClasses, t, systemDark);
    }

    /** The value the provider puts in the context. */
    function Context(): (ctx: ThemeContext)
      reads this
      ensures ctx.theme == theme
    {
      ThemeContext(theme)
    }
  }

  /** `useTheme`: outside a provider there is no context, and the hook throws. */
  function UseTheme(ctx: Option<ThemeContext>): (r: Result<ThemeContext, string>)
    ensures ctx.Some? ==> r == Ok(ctx.value)
    ensures ctx.None? ==> r == Err("useTheme must be used inside ThemeProvider")
  {
    match ctx
    case None => Err("useTheme must be used inside ThemeProvider")
    case Some(c) => Ok(c)
  }

  /** A first visit, with nothing stored, shows `system`: dark exactly when the system prefers dark. */
  method FirstVisit(rootClasses: set<string>, systemDark: bool) returns (theme: Theme, classes: set<string>)
    ensures theme == System
    ensures ("dark" in classes) == systemDark && ("light" in classes) == !systemDark
  {
    var provider := new ThemeProvider(map[], rootClasses);
    provider.Mount(systemDark);
    theme := provider.theme;
    classes := provider.rootClasses;
  }

  /** A theme chosen with `setTheme` is the one the next mount restores from storage. */
  method ChooseThenReload(storage: map<string, Theme>, rootClasses: set<string>, t: Theme, systemDark: bool)
    returns (restored: Theme, classes: set<string>)
    ensures restored == t
    ensures classes == ApplyTheme(rootClasses, t, systemDark)
  {
    var first := new ThemeProvider(storage, rootClasses);
    first.Mount(systemDark);
    first.SetTheme(t, systemDark);
    var second := new ThemeProvider(first.storage, first.rootClasses);
    second.Mount(systemDark);
    restored := second.theme;
    classes := second.rootClasses;
    ApplyThemeLastWins(rootClasses, first.theme, systemDark, t, systemDark);
  }
}
