/**
 * Navigation in script.js: the mobile menu toggle, the menu closing on a
 * link click, and `updateActiveLink`, which highlights the link of the last
 * section whose band contains the scroll position.
 */
module ScriptNavigation {
  import opened Wrappers

  /** A `section[id]` element: its id and layout box. */
  datatype Section = Section(id: string, offsetTop: int, offsetHeight: int)

  /** `scrollY > sectionTop && scrollY <= sectionTop + sectionHeight`, with `sectionTop = offsetTop - 100`. */
  predicate InBand(s: Section, scrollY: int) {
    s.offsetTop - 100 < scrollY <= s.offsetTop - 100 + s.offsetHeight
  }

  /** The last section, in document order, whose band contains `scrollY`. */
  function LastInBand(sections: seq<Section>, scrollY: int): (r: Option<nat>)
    ensures r.Some? ==> && r.value < |sections| && InBand(sections[r.value], scrollY)
                        && forall j :: r.value < j < |sections| ==> !InBand(sections[j], scrollY)
    ensures r.None? <==> forall j :: 0 <= j < |sections| ==> !InBand(sections[j], scrollY)
  {
    if sections == [] then None
    else if InBand(sections[|sections| - 1], scrollY) then Some(|sections| - 1)
    else LastInBand(sections[..|sections| - 1], scrollY)
  }

  /** `document.querySelector(...)`: the first link, in document order, whose `href` is `target`. */
  function FirstLink(hrefs: seq<string>, target: string): (r: Option<nat>)
    ensures r.Some? ==> r.value < |hrefs| && hrefs[r.value] == target
                        && forall j :: 0 <= j < r.value ==> hrefs[j] != target
    ensures r.None? <==> target !in hrefs
  {
    if hrefs == [] then None
    else if hrefs[0] == target then Some(0)
    else match FirstLink(hrefs[1..], target)
      case None => None
      case Some(k) => Some(k + 1)
  }

  /** The active links after highlighting section `id`: its link alone, or none if it has no link. */
  function Highlight(hrefs: seq<string>, id: string): (active: set<nat>)
    ensures |active| <= 1
    ensures forall k :: k in active ==> k < |hrefs| && hrefs[k] == "#" + id
    ensures active == {} <==> "#" + id !in hrefs
  {
    match FirstLink(hrefs, "#" + id)
    case None => {}
    case Some(k) => {k}
  }

  class Navigation {
    /** The `href` of every `.nav-link`, in document order. */
    const hrefs: seq<string>
    /** Whether `#navToggle` exists, and so whether its listener was attached. */
    const hasToggle: bool
    /** Indexes into `hrefs` of the links with class `active`. */
    var active: set<nat>
    /** Whether `#navMenu` has class `active`. */
    var menuActive: bool
    /** The toggle's `aria-expanded` attribute. */
    var ariaExpanded: Option<string>

    constructor (hrefs: seq<string>, hasToggle: bool, active: set<nat>, menuActive: bool, ariaExpanded: Option<string>)
      ensures this.hrefs == hrefs && this.hasToggle == hasToggle
      ensures this.active == active && this.menuActive == menuActive && this.ariaExpanded == ariaExpanded
    {
      this.hrefs := hrefs;
      this.hasToggle := hasToggle;
      this.active := active;
      this.menuActive := menuActive;
      this.ariaExpanded := ariaExpanded;
    }

    /**
     * `updateActiveLink`: every section in band clears all links and marks its
     * own, so the last one in band wins; with none in band nothing changes.
     */
    method UpdateActiveLink(sections: seq<Section>, scrollY: int)
      modifies this`active
      ensures LastInBand(sections, scrollY).None? ==> active == old(active)
      ensures LastInBand(sections, scrollY).Some? ==>
        active == Highlight(hrefs, sections[LastInBand(sections, scrollY).value].id)
    {
      var i := 0;
      while i < |sections|
        invariant 0 <= i <= |sections|
        invariant LastInBand(sections[..i], scrollY).None? ==> active == old(active)
        invariant LastInBand(sections[..i], scrollY).Some? ==>
          active == Highlight(hrefs, sections[LastInBand(sections[..i], scrollY).value].id)
      {
        assert sections[..i + 1][..i] == sections[..i];
        if InBand(sections[i], scrollY) {
          active := {};
          var link := FirstLink(hrefs, "#" + sections[i].id);
          if link.Some? {
            active := active + {link.value};
          }
        }
        i := i + 1;
      }
      assert sections[..i] == sections;
    }

    /** The `#navToggle` click: the menu flips and `aria-expanded` reports the new state. */
    method ToggleMenu()
      modifies this`menuActive, this`ariaExpanded
      ensures !hasToggle ==> menuActive == old(menuActive) && ariaExpanded == old(ariaExpanded)
      ensures hasToggle ==> menuActive == !old(menuActive)
      ensures hasToggle ==> ariaExpanded == Some(if menuActive then "true" else "false")
    {
      if hasToggle {
        menuActive := !menuActive;
        ariaExpanded := Some(if menuActive then "true" else "false");
      }
    }

    /**
     * A `.nav-link` click: the menu closes and the active link is recomputed;
     * `aria-expanded` is not touched, so it can still read "true".
     */
    method LinkClick(sections: seq<Section>, scrollY: int)
      modifies this`menuActive, this`active
      ensures !menuActive
      ensures LastInBand(sections, scrollY).None? ==> active == old(active)
      ensures LastInBand(sections, scrollY).Some? ==>
        active == Highlight(hrefs, sections[LastInBand(sections, scrollY).value].id)
    {
      menuActive := false;
      UpdateActiveLink(sections, scrollY);
    }
  }
}
