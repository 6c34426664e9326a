/**
 * The site's colour-theme state (client/src/components/ThemeProvider.tsx).
 *
 * The browser is abstracted as values: whether a window exists at all (it does
 * not during server rendering), the OS "prefers dark" media query as a boolean,
 * `localStorage` as a map from keys to strings, and the class list of the root
 * element as a set of class names.
 */
module ThemeProvider {
  import opened Wrappers

  datatype Theme = Dark | Light | System

  /** A theme as actually shown: never `System`. */
  type Resolved = t: Theme | t != System witness Dark

  /** The string the source uses for each theme. */
  function Label(t: Theme): string
  {
    match t
    case Dark => "dark"
    case Light => "light"
    case System => "system"
  }

  /** The storage key under which the chosen theme is persisted. */
  const ThemeKey: string := "theme"

  /** Reads a stored string back as a theme: accepted only if it is one of the three labels. */
  function ParseTheme(s: string): (r: Option<Theme>)
    ensures r.Some? <==> s in {"dark", "light", "system"}
    ensures r.Some? ==> Label(r.value) == s
  {
    if s == "dark" then Some(Dark)
    else if s == "light" then Some(Light)
    else if s == "system" then Some(System)
    else None
  }

  /** Every theme label parses back to its theme. */
  lemma ParseLabel(t: Theme)
    ensures ParseTheme(Label(t)) == Some(t)
  {
  }

  /** The OS preference: follows the dark-scheme media query, and is dark when there is no window. */
  function SystemTheme(hasWindow: bool, prefersDark: bool): (r: Resolved)
    ensures !hasWindow ==> r == Dark
    ensures hasWindow ==> (r == Dark <==> prefersDark)
  {
    if hasWindow then (if prefersDark then Dark else Light) else Dark
  }

  /**
   * The theme the provider starts with: the stored value when there is a
   * window and the stored string is a theme label, `defaultTheme` otherwise.
   */
  function InitialTheme(hasWindow: bool, storage: map<string, string>, defaultTheme: Theme): (r: Theme)
    ensures hasWindow && ThemeKey in storage && ParseTheme(storage[ThemeKey]).Some?
            ==> Label(r) == storage[ThemeKey]
    ensures !(hasWindow && ThemeKey in storage && ParseTheme(storage[ThemeKey]).Some?)
            ==> r == defaultTheme
  {
    if hasWindow && ThemeKey in storage then
      match ParseTheme(storage[ThemeKey])
      case Some(stored) => stored
      case None => defaultTheme
    else defaultTheme
  }

  /**
   * What `setTheme` leaves in storage: no change without a window; otherwise
   * the key is removed for `System` and written for the other two themes.
   * No other key is touched.
   */
  function PersistTheme(hasWindow: bool, storage: map<string, string>, t: Theme): (r: map<string, string>)
    ensures !hasWindow ==> r == storage
    ensures hasWindow && t == System ==> ThemeKey !in r
    ensures hasWindow && t != System ==> ThemeKey in r && r[ThemeKey] == Label(t)
    ensures r - {ThemeKey} == storage - {ThemeKey}
  {
    if !hasWindow then storage
    else if t == System then storage - {ThemeKey}
    else storage[ThemeKey := Label(t)]
  }

  /**
   * Persisting a theme and starting the provider again on the resulting
   * storage gives that theme back; `System` is stored as an absent key, so it
   * comes back as the default theme (which is `System` unless overridden).
   */
  lemma PersistThenReload(storage: map<string, string>, t: Theme, defaultTheme: Theme)
    ensures InitialTheme(true, PersistTheme(true, storage, t), defaultTheme)
            == if t == System then defaultTheme else t
  {
  }

  /** The shown theme: the chosen theme itself, or the OS preference when it is `System`. */
  function ResolveTheme(theme: Theme, systemTheme: Resolved): (r: Resolved)
    ensures theme != System ==> r == theme
    ensures theme == System ==> r == systemTheme
  {
    if theme == System then systemTheme else theme
  }

  const ThemeClasses: set<string> := {"light", "dark"}

  /** The root element shows theme `x`: of the two theme classes, it has exactly `x`'s. */
  predicate Shows(classes: set<string>, x: Resolved)
  {
    classes * ThemeClasses == {Label(x)}
  }

  /** `applyTheme` on the root class list: remove both theme classes, then add `x`'s. */
  function ApplyClasses(classes: set<string>, x: Resolved): (r: set<string>)
    ensures Shows(r, x)
    ensures r - ThemeClasses == classes - ThemeClasses
  {
    classes - ThemeClasses + {Label(x)}
  }

  /** Showing a theme determines it: the root class list never shows two themes at once. */
  lemma ShowsUnique(classes: set<string>, x: Resolved, y: Resolved)
    requires Shows(classes, x) && Shows(classes, y)
    ensures x == y
  {
  }

  /** What `useTheme` hands to a component. */
  datatype Context = Context(theme: Theme, resolvedTheme: Resolved)

  /** `useTheme`: the provider's context, or the error it throws outside a provider. */
  function UseTheme(context: Option<Context>): (r: Result<Context, string>)
    ensures r.Failure? <==> context.None?
    ensures r.Success? ==> r.value == context.value
    ensures r.Failure? ==> r.error == "useTheme must be used within a ThemeProvider"
  {
    match context
    case None => Failure("useTheme must be used within a ThemeProvider")
    case Some(c) => Success(c)
  }

  /**
   * A mounted ThemeProvider together with the browser state it reads and
   * writes. `listening` records whether the media-query change listener of
   * the `System` branch of the effect is registered.
   */
  class Provider {
    const hasWindow: bool
    const defaultTheme: Theme
    var prefersDark: bool
    var theme: Theme
    var resolvedTheme: Resolved
    var storage: map<string, string>
    var rootClasses: set<string>
    var listening: bool

    /** The state after the effect for the current theme has run. */
    ghost predicate Synced()
      reads this
    {
      && resolvedTheme == ResolveTheme(theme, SystemTheme(hasWindow, prefersDark))
      && Shows(rootClasses, resolvedTheme)
      && listening == (theme == System)
    }

    function ContextValue(): Context
      reads this
    {
      Context(theme, resolvedTheme)
    }

    /**
     * Mounting: the theme state is read from storage, `resolvedTheme` is
     * derived from it, and in a browser the effect then runs once.
     */
    constructor (hasWindow: bool, prefersDark: bool, storage: map<string, string>,
                 rootClasses: set<string>, defaultTheme: Theme := System)
      ensures this.hasWindow == hasWindow && this.defaultTheme == defaultTheme
      ensures this.prefersDark == prefersDark && this.storage == storage
      ensures theme == InitialTheme(hasWindow, storage, defaultTheme)
      ensures resolvedTheme == ResolveTheme(theme, SystemTheme(hasWindow, prefersDark))
      ensures hasWindow ==> Synced() && this.rootClasses == ApplyClasses(rootClasses, resolvedTheme)
      ensures !hasWindow ==> this.rootClasses == rootClasses && !listening
    {
      this.hasWindow := hasWindow;
      this.defaultTheme := defaultTheme;
      this.prefersDark := prefersDark;
      this.storage := storage;
      this.rootClasses := rootClasses;
      var initial := defaultTheme;
      if hasWindow && ThemeKey in storage {
        var stored := storage[ThemeKey];
        if stored == "dark" || stored == "light" || stored == "system" {
          initial := ParseTheme(stored).value;
        }
      }
      theme := initial;
      if initial == System {
        resolvedTheme := SystemTheme(hasWindow, prefersDark);
      } else {
        resolvedTheme := initial;
      }
      listening := false;
      new;
      if hasWindow {
        RunEffect();
      }
    }

    /** `setTheme`: update the theme state and persist it (remove the key for `System`). */
    method SetTheme(newTheme: Theme)
      modifies this
      ensures theme == newTheme
      ensures storage == PersistTheme(hasWindow, old(storage), newTheme)
      ensures resolvedTheme == old(resolvedTheme) && rootClasses == old(rootClasses)
      ensures prefersDark == old(prefersDark) && listening == old(listening)
    {
      theme := newTheme;
      if hasWindow {
        if newTheme == System {
          storage := storage - {ThemeKey};
        } else {
          storage := storage[ThemeKey := Label(newTheme)];
        }
      }
    }

    /** `applyTheme`: swap the theme class on the root element and record the shown theme. */
    method ApplyTheme(newTheme: Resolved)
      modifies this
      ensures rootClasses == ApplyClasses(old(rootClasses), newTheme)
      ensures resolvedTheme == newTheme
      ensures theme == old(theme) && storage == old(storage)
      ensures prefersDark == old(prefersDark) && listening == old(listening)
    {
      rootClasses := rootClasses - {"light", "dark"};
      rootClasses := rootClasses + {Label(newTheme)};
      resolvedTheme := newTheme;
    }

    /**
     * The effect that runs in the browser whenever `theme` changes: apply
     * the OS preference and listen for its changes in `System` mode, apply
     * the chosen theme otherwise (removing the previous listener).
     */
    method RunEffect()
      requires hasWindow
      modifies this
      ensures Synced()
      ensures rootClasses == ApplyClasses(old(rootClasses), resolvedTheme)
      ensures theme == old(theme) && storage == old(storage) && prefersDark == old(prefersDark)
    {
      if theme == System {
        var systemTheme := SystemTheme(hasWindow, prefersDark);
        ApplyTheme(systemTheme);
        listening := true;
      } else {
        ApplyTheme(theme);
        listening := false;
      }
    }

    /**
     * The OS colour-scheme preference changes to `matches`. The registered
     * listener, present only in `System` mode, applies the new preference.
     */
    method PreferenceChanged(matches: bool)
      requires hasWindow && Synced()
      modifies this
      ensures Synced() && prefersDark == matches
      ensures theme == System ==> (resolvedTheme == Dark <==> matches)
      ensures theme == System ==> rootClasses == ApplyClasses(old(rootClasses), resolvedTheme)
      ensures theme != System ==> resolvedTheme == old(resolvedTheme) && rootClasses == old(rootClasses)
      ensures theme == old(theme) && storage == old(storage)
    {
      prefersDark := matches;
      if listening {
        ApplyTheme(if matches then Dark else Light);
      }
    }

    /** A component calling `useTheme` inside this provider gets its theme and resolved theme. */
    method Consume() returns (r: Result<Context, string>)
      ensures r == Success(Context(theme, resolvedTheme))
    {
      r := UseTheme(Some(ContextValue()));
    }
  }
}
