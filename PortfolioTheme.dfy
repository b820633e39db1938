/**
 * The theme system of portfolio-script.js. Every change goes through
 * `setTheme`, which writes the `data-theme` attribute, the stored `theme`
 * key and the toggle's icon and title together; the initial theme is
 * persisted at once.
 */
module PortfolioTheme {
  import opened Wrappers
  import opened ThemeChoice

  /** The `<i>` icon class and the `title` of the toggle button. */
  datatype ToggleView = ToggleView(iconClass: string, title: string)

  /**
   * The click handler's choice: `getAttribute('data-theme') || 'dark'`, then
   * 'dark' becomes 'light' and anything else 'dark'. A missing or empty
   * attribute therefore reads as 'dark' and yields 'light'.
   */
  function Toggled(attr: Option<string>): (next: string)
    ensures next == Light <==> attr.None? || attr.value == "" || attr.value == Dark
    ensures next == Dark || next == Light
  {
    var current := if attr.Some? && attr.value != "" then attr.value else Dark;
    if current == Dark then Light else Dark
  }

  /** `updateThemeIcon`: the sun for the light theme, the moon for every other value. */
  function ViewFor(theme: string): (v: ToggleView)
    ensures v.iconClass == "fas fa-sun" <==> theme == Light
  {
    if theme == Light then ToggleView("fas fa-sun", "Switch to dark mode")
    else ToggleView("fas fa-moon", "Switch to light mode")
  }

  /** On the two real themes, toggling twice restores the original. */
  lemma ToggleTwice(t: string)
    requires t == Dark || t == Light
    ensures Toggled(Some(Toggled(Some(t)))) == t
  {
  }

  /** Off the two real themes it does not: a saved "blue" comes back as "light". */
  lemma ToggleTwiceOther()
    ensures Toggled(Some(Toggled(Some("blue")))) == Light
  {
  }

  class ThemeDom {
    var dataTheme: Option<string>
    var storage: map<string, string>
    /** The toggle button's view; `None` when the page has no `#themeToggle`. */
    var toggle: Option<ToggleView>

    /** What every `setTheme` leaves behind: attribute, storage and icon agree. */
    ghost predicate InSync()
      reads this
    {
      && dataTheme.Some?
      && StorageKey in storage && storage[StorageKey] == dataTheme.value
      && (toggle.Some? ==> toggle.value == ViewFor(dataTheme.value))
    }

    /** `initTheme`: the initial theme is chosen and immediately set (and so persisted). */
    constructor Init(storage: map<string, string>, prefersDark: bool, toggle: Option<ToggleView>)
      ensures InSync()
      ensures dataTheme == Some(InitialTheme(storage, prefersDark))
      ensures this.storage == storage[StorageKey := InitialTheme(storage, prefersDark)]
      ensures this.toggle.Some? == toggle.Some?
    {
      dataTheme := None;
      this.storage := storage;
      this.toggle := toggle;
      new;
      SetTheme(InitialTheme(storage, prefersDark));
    }

    /** `setTheme`: attribute, the stored key and the toggle view, and nothing else. */
    method SetTheme(theme: string)
      modifies this
      ensures InSync()
      ensures dataTheme == Some(theme)
      ensures storage == old(storage)[StorageKey := theme]
      ensures toggle == if old(toggle).Some? then Some(ViewFor(theme)) else None
    {
      dataTheme := Some(theme);
      storage := storage[StorageKey := theme];
      if toggle.Some? {
        toggle := Some(ViewFor(theme));
      }
    }

    /** A click on the toggle (no listener exists without one). */
    method Click()
      modifies this
      ensures old(toggle).None? ==> dataTheme == old(dataTheme) && storage == old(storage) && toggle == old(toggle)
      ensures old(toggle).Some? ==> InSync() && dataTheme == Some(Toggled(old(dataTheme)))
                                    && storage == old(storage)[StorageKey := Toggled(old(dataTheme))]
                                    && toggle == Some(ViewFor(Toggled(old(dataTheme))))
    {
      if toggle.Some? {
        SetTheme(Toggled(dataTheme));
      }
    }

    /** The `prefers-color-scheme` change listener. */
    method SystemChange(prefersDark: bool)
      modifies this
      ensures InSync()
      ensures dataTheme == Some(if prefersDark then Dark else Light)
      ensures storage == old(storage)[StorageKey := if prefersDark then Dark else Light]
      ensures toggle == if old(toggle).Some? then Some(ViewFor(if prefersDark then Dark else Light)) else None
    {
      SetTheme(if prefersDark then Dark else Light);
    }
  }

  /** Two clicks on the toggle restore a 'dark' or 'light' page, its stored key and its icon. */
  method ClickTwice(page: ThemeDom)
    requires page.toggle.Some? && page.InSync()
    requires page.dataTheme == Some(Dark) || page.dataTheme == Some(Light)
    modifies page
    ensures page.InSync()
    ensures page.dataTheme == old(page.dataTheme)
    ensures page.storage == old(page.storage)
    ensures page.toggle == old(page.toggle)
  {
    page.Click();
    page.Click();
  }
}
