/**
 * The project-detail modal of portfolio-script.js: opening looks the card's
 * title up in a fixed table and, when found, shows the modal and locks body
 * scrolling; closing reverses both; Escape closes only an open modal.
 */
module PortfolioModal {
  import opened Wrappers

  /** The keys of `projectsData`. */
  const ProjectTitles: set<string> := {
    "Data Collection for AI Model",
    "Machine Learning Projects",
    "Supervised Learning Implementations",
    "Data Analysis with Python"
  }

  class Modal {
    /** Whether `#projectModal` carries the class `active`. */
    var active: bool
    /** `document.body.style.overflow`. */
    var overflow: string

    constructor (active: bool, overflow: string)
      ensures this.active == active && this.overflow == overflow
    {
      this.active := active;
      this.overflow := overflow;
    }

    /** `openModal`: an unknown title changes nothing. */
    method Open(title: string)
      modifies this
      ensures title !in ProjectTitles ==> active == old(active) && overflow == old(overflow)
      ensures title in ProjectTitles ==> active && overflow == "hidden"
    {
      if title !in ProjectTitles {
        return;
      }
      active := true;
      overflow := "hidden";
    }

    /** `closeModal`, run by the backdrop and the close button. */
    method Close()
      modifies this
      ensures !active && overflow == "auto"
    {
      active := false;
      overflow := "auto";
    }

    /** A project card's click: its `h3` text, when present and non-empty, is opened; only a known title has an effect. */
    method CardClick(heading: Option<string>)
      modifies this
      ensures heading.None? || heading.value !in ProjectTitles ==> active == old(active) && overflow == old(overflow)
      ensures heading.Some? && heading.value in ProjectTitles ==> active && overflow == "hidden"
    {
      if heading.Some? && heading.value != "" {
        Open(heading.value);
      }
    }

    /** The document's keydown listener. */
    method KeyDown(key: string)
      modifies this
      ensures key == "Escape" && old(active) ==> !active && overflow == "auto"
      ensures !(key == "Escape" && old(active)) ==> active == old(active) && overflow == old(overflow)
    {
      if key == "Escape" && active {
        Close();
      }
    }
  }

  /** Open then Escape restores an inactive modal and an 'auto' overflow; Escape on a closed modal does nothing. */
  method OpenThenEscape(m: Modal, title: string)
    requires !m.active
    modifies m
    ensures !m.active
    ensures title in ProjectTitles ==> m.overflow == "auto"
    ensures title !in ProjectTitles ==> m.overflow == old(m.overflow)
  {
    m.Open(title);
    m.KeyDown("Escape");
  }
}
