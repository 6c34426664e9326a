/** The header's theme toggle button (client/src/components/ThemeToggle.tsx). */
module ThemeToggle {
  import opened ThemeProvider

  /** The theme a click asks for: light from dark, dark from light or system. */
  function ToggleTheme(t: Theme): (r: Theme)
    ensures r != System
    ensures r == Light <==> t == Dark
  {
    if t == Dark then Light else Dark
  }

  /** A click always changes the theme, so the provider's effect always re-runs. */
  lemma ToggleChanges(t: Theme)
    ensures ToggleTheme(t) != t
  {
  }

  /** Two clicks from an explicit theme return to it. */
  lemma ToggleTwice(t: Theme)
    requires t != System
    ensures ToggleTheme(ToggleTheme(t)) == t
  {
  }

  /** The button's tooltip. */
  function Title(t: Theme): (s: string)
    ensures s == "Switch to light" <==> t == Dark
    ensures s == "Switch to light" || s == "Switch to dark"
  {
    if t == Dark then "Switch to light" else "Switch to dark"
  }

  datatype Icon = Sun | Moon

  /** The button's icon: the sun while dark, the moon otherwise. */
  function ButtonIcon(t: Theme): (i: Icon)
    ensures i == Sun <==> t == Dark
  {
    if t == Dark then Sun else Moon
  }

  /** The tooltip names the theme that a click switches to. */
  lemma TitleNamesTarget(t: Theme)
    ensures Title(t) == "Switch to " + Label(ToggleTheme(t))
  {
  }

  /**
   * Two clicks from an explicit theme leave storage as persisting that theme
   * would: the second write overwrites the first, and no other key changes.
   */
  lemma ToggleTwicePersists(storage: map<string, string>, t: Theme)
    requires t != System
    ensures PersistTheme(true, PersistTheme(true, storage, ToggleTheme(t)), ToggleTheme(ToggleTheme(t)))
            == PersistTheme(true, storage, t)
  {
  }

  /**
   * A click on the button: `setTheme` with the toggled theme, after which the
   * provider's effect re-runs for the new theme.
   */
  method Click(p: Provider)
    requires p.hasWindow
    modifies p
    ensures p.theme == ToggleTheme(old(p.theme)) && p.theme != System
    ensures p.storage == PersistTheme(true, old(p.storage), p.theme)
    ensures p.Synced() && p.resolvedTheme == p.theme
    ensures p.rootClasses == ApplyClasses(old(p.rootClasses), p.theme)
    ensures p.prefersDark == old(p.prefersDark)
  {
    p.SetTheme(ToggleTheme(p.theme));
    p.RunEffect();
  }

  /** Two clicks from an explicit theme restore both the theme and what a reload would read. */
  method ClickTwice(p: Provider)
    requires p.hasWindow && p.theme != System
    modifies p
    ensures p.theme == old(p.theme) && p.Synced()
    ensures p.storage == PersistTheme(true, old(p.storage), p.theme)
    ensures p.rootClasses == ApplyClasses(old(p.rootClasses), p.theme)
    ensures p.prefersDark == old(p.prefersDark)
    ensures InitialTheme(p.hasWindow, p.storage, p.defaultTheme) == p.theme
  {
    Click(p);
    Click(p);
    PersistThenReload(old(p.storage)[ThemeKey := Label(ToggleTheme(old(p.theme)))], p.theme, p.defaultTheme);
  }
}
