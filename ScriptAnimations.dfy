/**
 * `setupAnimations` in script.js: cards are hidden and observed; the first
 * intersection of a card starts its fade-in and unobserves it, so each card
 * is animated at most once per observer; the keyframes `<style>` is added
 * only when no element with its id exists yet.
 */
module ScriptAnimations {

  const FadeInUp := "fadeInUp 0.6s ease forwards"
  const StyleId := "animationStyles"

  /** An observed card's inline style. */
  class Element {
    var opacity: string
    var transform: string
    var animation: string

    constructor (opacity: string, transform: string, animation: string)
      ensures this.opacity == opacity && this.transform == transform && this.animation == animation
    {
      this.opacity := opacity;
      this.transform := transform;
      this.animation := animation;
    }
  }

  /** The ids of the document's elements, in order; the keyframes style is appended here. */
  class Document {
    var ids: seq<string>

    constructor (ids: seq<string>)
      ensures this.ids == ids
    {
      this.ids := ids;
    }

    /** The `getElementById('animationStyles')` guard and the append it protects. */
    method InjectKeyframes()
      modifies this
      ensures ids == if StyleId in old(ids) then old(ids) else old(ids) + [StyleId]
      ensures StyleId in ids
      ensures multiset(old(ids))[StyleId] <= 1 ==> multiset(ids)[StyleId] <= 1
    {
      if StyleId !in ids {
        assert multiset(ids)[StyleId] == 0;
        ids := ids + [StyleId];
      }
    }
  }

  /** One `IntersectionObserver` made by one call of `setupAnimations`. */
  class RevealObserver {
    var observed: set<Element>
    /** Every element this observer's callback has animated, in order. */
    ghost var log: seq<Element>

    /** The at-most-once invariant: no element twice in the log, and none logged still observed. */
    ghost predicate Valid()
      reads this
    {
      && (forall i, j :: 0 <= i < j < |log| ==> log[i] != log[j])
      && (forall i :: 0 <= i < |log| ==> log[i] !in observed)
    }

    constructor ()
      ensures observed == {} && log == [] && Valid()
    {
      observed := {};
      log := [];
    }

    method Observe(e: Element)
      requires Valid() && e !in log
      modifies this
      ensures observed == old(observed) + {e} && log == old(log) && Valid()
    {
      observed := observed + {e};
    }

    /**
     * One entry delivered to the callback. The browser reports only targets
     * still observed; an intersecting one is animated and unobserved.
     */
    method Entry(target: Element, isIntersecting: bool)
      requires Valid()
      modifies this, target
      ensures Valid()
      ensures target in old(observed) && isIntersecting ==>
        && target.animation == FadeInUp && observed == old(observed) - {target}
        && log == old(log) + [target]
      ensures !(target in old(observed) && isIntersecting) ==>
        && observed == old(observed) && log == old(log)
        && target.animation == old(target.animation)
      ensures target.opacity == old(target.opacity) && target.transform == old(target.transform)
    {
      if target in observed && isIntersecting {
        target.animation := FadeInUp;
        observed := observed - {target};
        log := log + [target];
      }
    }

    /** The callback's `entries.forEach`: a batch of entries, in order. */
    method Callback(entries: seq<(Element, bool)>)
      requires Valid()
      modifies this, set i | 0 <= i < |entries| :: entries[i].0
      ensures Valid() && observed <= old(observed)
      ensures forall e :: e in log && e !in old(log) ==> e in old(observed)
    {
      for n := 0 to |entries|
        invariant Valid() && observed <= old(observed)
        invariant forall e :: e in log && e !in old(log) ==> e in old(observed)
      {
        Entry(entries[n].0, entries[n].1);
      }
    }
  }

  /**
   * `setupAnimations`: every card hidden and observed by a new observer, then
   * the keyframes added if missing.
   */
  method SetupAnimations(doc: Document, cards: seq<Element>) returns (obs: RevealObserver)
    modifies doc, set i | 0 <= i < |cards| :: cards[i]
    ensures fresh(obs) && obs.Valid() && obs.log == []
    ensures obs.observed == set i | 0 <= i < |cards| :: cards[i]
    ensures forall i :: 0 <= i < |cards| ==> cards[i].opacity == "0" && cards[i].transform == "translateY(20px)"
    ensures forall i :: 0 <= i < |cards| ==> cards[i].animation == old(cards[i].animation)
    ensures doc.ids == if StyleId in old(doc.ids) then old(doc.ids) else old(doc.ids) + [StyleId]
  {
    obs := new RevealObserver();
    for n := 0 to |cards|
      invariant fresh(obs) && obs.Valid() && obs.log == []
      invariant obs.observed == set i | 0 <= i < n :: cards[i]
      invariant forall i :: 0 <= i < n ==> cards[i].opacity == "0" && cards[i].transform == "translateY(20px)"
      invariant forall i :: 0 <= i < |cards| ==> cards[i].animation == old(cards[i].animation)
      invariant doc.ids == old(doc.ids)
    {
      cards[n].opacity := "0";
      cards[n].transform := "translateY(20px)";
      obs.Observe(cards[n]);
    }
    doc.InjectKeyframes();
  }

  /** However often `setupAnimations` runs, the keyframes style appears at most once. */
  method SetupTwice(doc: Document, cards: seq<Element>)
    requires StyleId !in doc.ids
    modifies doc, set i | 0 <= i < |cards| :: cards[i]
    ensures multiset(doc.ids)[StyleId] == 1
  {
    var first := SetupAnimations(doc, cards);
    var second := SetupAnimations(doc, cards);
    assert doc.ids == old(doc.ids) + [StyleId];
    assert multiset(old(doc.ids))[StyleId] == 0;
  }
}
