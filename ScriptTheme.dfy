/**
 * The theme system of script.js. The initial theme is applied to the
 * attribute and icon but not stored; a click stores its choice. Its icon
 * mapping is the inverse of portfolio-script.js's, and a missing attribute
 * reads as 'light' rather than 'dark'.
 */
module ScriptTheme {
  import opened Wrappers
  import opened ThemeChoice

  /** `getAttribute('data-theme') || 'light'`, then 'dark' becomes 'light' and anything else 'dark'. */
  function Toggled(attr: Option<string>): (next: string)
    ensures next == Light <==> attr == Some(Dark)
    ensures next == Dark || next == Light
  {
    var current := if attr.Some? && attr.value != "" then attr.value else Light;
    if current == Dark then Light else Dark
  }

  /** `updateThemeIcon`: the sun for the dark theme, the moon for every other value. */
  function IconFor(theme: string): (icon: string)
    ensures icon == "fas fa-sun" <==> theme == Dark
  {
    if theme == Dark then "fas fa-sun" else "fas fa-moon"
  }

  lemma ToggleTwice(t: string)
    requires t == Dark || t == Light
    ensures Toggled(Some(Toggled(Some(t)))) == t
  {
  }

  class ThemeDom {
    var dataTheme: Option<string>
    var storage: map<string, string>
    /** The class of `.theme-toggle i`; `None` when there is no such element. */
    var icon: Option<string>
    /** Whether `#themeToggle` exists, and so whether a click listener was attached. */
    const hasToggle: bool

    ghost predicate IconInSync()
      reads this
    {
      dataTheme.Some? && (icon.Some? ==> icon.value == IconFor(dataTheme.value))
    }

    /** `initTheme`: attribute and icon set, storage left as it was. */
    constructor Init(storage: map<string, string>, prefersDark: bool, hasToggle: bool, icon: Option<string>)
      ensures IconInSync()
      ensures dataTheme == Some(InitialTheme(storage, prefersDark))
      ensures this.storage == storage
      ensures this.icon.Some? == icon.Some?
      ensures this.hasToggle == hasToggle
    {
      var theme := InitialTheme(storage, prefersDark);
      dataTheme := Some(theme);
      this.storage := storage;
      this.hasToggle := hasToggle;
      this.icon := if icon.Some? then Some(IconFor(theme)) else None;
    }

    /** The toggle's click listener: attribute, storage and icon follow the new theme. */
    method Click()
      modifies this
      ensures !hasToggle ==> dataTheme == old(dataTheme) && storage == old(storage) && icon == old(icon)
      ensures hasToggle ==> && IconInSync()
                            && dataTheme == Some(Toggled(old(dataTheme)))
                            && storage == old(storage)[StorageKey := Toggled(old(dataTheme))]
                            && icon.Some? == old(icon).Some?
    {
      if hasToggle {
        var next := Toggled(dataTheme);
        dataTheme := Some(next);
        storage := storage[StorageKey := next];
        if icon.Some? {
          icon := Some(IconFor(next));
        }
      }
    }
  }

  /**
   * The initial theme reaches storage only through a click: storage is as it
   * was between page load and the first click, and holds the clicked theme after.
   */
  method InitThenClick(storage: map<string, string>, prefersDark: bool, icon: Option<string>)
    returns (page: ThemeDom, ghost afterInit: map<string, string>)
    ensures afterInit == storage
    ensures page.storage == afterInit[StorageKey := Toggled(Some(InitialTheme(storage, prefersDark)))]
    ensures page.dataTheme == Some(page.storage[StorageKey])
  {
    page := new ThemeDom.Init(storage, prefersDark, true, icon);
    afterInit := page.storage;
    page.Click();
  }
}
