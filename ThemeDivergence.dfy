/** How the two theme implementations differ, stated on their own definitions. */
module ThemeDivergence {
  import opened Wrappers
  import PortfolioTheme
  import ScriptTheme

  /** On the two real themes the icon mappings are inverted. */
  lemma IconsInverted(t: string)
    requires t == "dark" || t == "light"
    ensures (PortfolioTheme.ViewFor(t).iconClass == "fas fa-sun") != (ScriptTheme.IconFor(t) == "fas fa-sun")
  {
  }

  /** With no attribute, one toggle picks 'light' and the other 'dark'. */
  lemma MissingAttributeDefaults()
    ensures PortfolioTheme.Toggled(None) == "light"
    ensures ScriptTheme.Toggled(None) == "dark"
  {
  }
}
