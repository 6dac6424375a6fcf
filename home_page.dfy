/**
 * The homepage scroll tracking (src/app/page.tsx and src/app/page-new.tsx): the
 * scroll position picks the section whose band of cumulative heights contains
 * it, and the window width decides the mobile flag. A section element that is
 * missing counts as height 0.
 */
module HomePage {
  import opened Wrappers
  import Store

  /** `section?.offsetHeight || 0` */
  function Height(h: Option<nat>): nat {
    h.GetOr(0)
  }

  /** `checkMobile` */
  predicate IsMobileWidth(width: int) {
    width <= 768
  }

  /** The scroll handler of src/app/page.tsx, ladder as written; the contact height is read but not used. */
  function FourSectionOf(latest: int, hero: Option<nat>, about: Option<nat>, services: Option<nat>, contact: Option<nat>): string {
    if latest < Height(hero) then "hero"
    else if latest < Height(hero) + Height(about) then "about"
    else if latest < Height(hero) + Height(about) + Height(services) then "services"
    else "contact"
  }

  /** The scroll handler of src/app/page-new.tsx, ladder as written; the contact height is read but not used. */
  function SixSectionOf(latest: int, hero: Option<nat>, about: Option<nat>, services: Option<nat>,
                        pricing: Option<nat>, counters: Option<nat>, contact: Option<nat>): string {
    var h, a, s, p, c := Height(hero), Height(about), Height(services), Height(pricing), Height(counters);
    if latest < h then "hero"
    else if latest < h + a then "about"
    else if latest < h + a + s then "services"
    else if latest < h + a + s + p then "pricing"
    else if latest < h + a + s + p + c then "counters"
    else "contact"
  }

  function Sum(hs: seq<nat>): nat {
    if hs == [] then 0 else hs[0] + Sum(hs[1..])
  }

  /**
   * The ladder in general: the index of the first band (of the given heights,
   * laid end to end from 0) whose end lies beyond the scroll position, or the
   * number of bands when the position is past them all.
   */
  function Ladder(latest: int, hs: seq<nat>): (r: nat)
    ensures r <= |hs|
    decreases |hs|
  {
    if hs == [] then 0
    else if latest < hs[0] then 0
    else 1 + Ladder(latest - hs[0], hs[1..])
  }

  /** The chosen band contains the scroll position: every earlier band ends at or before it, the chosen one ends after it. */
  lemma {:induction false} LadderPicksContainingBand(latest: int, hs: seq<nat>)
    ensures forall j :: 0 < j <= Ladder(latest, hs) ==> Sum(hs[..j]) <= latest
    ensures Ladder(latest, hs) < |hs| ==> latest < Sum(hs[..Ladder(latest, hs) + 1])
    decreases |hs|
  {
    if hs == [] {
    } else if latest < hs[0] {
      assert hs[..1] == [hs[0]];
    } else {
      LadderPicksContainingBand(latest - hs[0], hs[1..]);
      forall j | 0 < j <= |hs| ensures Sum(hs[..j]) == hs[0] + Sum(hs[1..][..j - 1]) {
        assert hs[..j][1..] == hs[1..][..j - 1];
      }
    }
  }

  /** Section names in band order, for both pages. */
  const FourSections: seq<string> := ["hero", "about", "services", "contact"]
  const SixSections: seq<string> := ["hero", "about", "services", "pricing", "counters", "contact"]

  /** The four-section ladder picks the band the general ladder picks. */
  lemma FourSectionIsLadder(latest: int, hero: Option<nat>, about: Option<nat>, services: Option<nat>, contact: Option<nat>)
    ensures FourSectionOf(latest, hero, about, services, contact)
            == FourSections[Ladder(latest, [Height(hero), Height(about), Height(services)])]
  {
    LadderOfThree(latest, Height(hero), Height(about), Height(services));
  }

  /** The ladder over three bands, written out. */
  lemma LadderOfThree(latest: int, s: nat, p: nat, c: nat)
    ensures Ladder(latest, [s, p, c])
            == if latest < s then 0 else if latest < s + p then 1 else if latest < s + p + c then 2 else 3
  {
    assert [s, p, c][1..] == [p, c];
    assert [p, c][1..] == [c];
    assert [c][1..] == [];
    if latest >= s {
      assert Ladder(latest, [s, p, c]) == 1 + Ladder(latest - s, [p, c]);
      if latest - s >= p {
        assert Ladder(latest - s, [p, c]) == 1 + Ladder(latest - s - p, [c]);
        if latest - s - p >= c {
          assert Ladder(latest - s - p, [c]) == 1 + Ladder(latest - s - p - c, []);
        }
      }
    }
  }

  /** The ladder over five bands: the first two written out, then the last three. */
  lemma LadderOfFive(latest: int, h: nat, a: nat, s: nat, p: nat, c: nat)
    ensures Ladder(latest, [h, a, s, p, c])
            == if latest < h then 0 else if latest < h + a then 1 else 2 + Ladder(latest - h - a, [s, p, c])
  {
    assert [h, a, s, p, c][1..] == [a, s, p, c];
    assert [a, s, p, c][1..] == [s, p, c];
  }

  /** The six-section ladder picks the band the general ladder picks. */
  lemma SixSectionIsLadder(latest: int, hero: Option<nat>, about: Option<nat>, services: Option<nat>,
                           pricing: Option<nat>, counters: Option<nat>, contact: Option<nat>)
    ensures SixSectionOf(latest, hero, about, services, pricing, counters, contact)
            == SixSections[Ladder(latest, [Height(hero), Height(about), Height(services), Height(pricing), Height(counters)])]
  {
    var h, a, s, p, c := Height(hero), Height(about), Height(services), Height(pricing), Height(counters);
    LadderOfFive(latest, h, a, s, p, c);
    LadderOfThree(latest - h - a, s, p, c);
  }

  /** Scrolling further down never selects an earlier section. */
  lemma {:induction false} LadderMonotone(a: int, b: int, hs: seq<nat>)
    requires a <= b
    ensures Ladder(a, hs) <= Ladder(b, hs)
    decreases |hs|
  {
    if hs != [] && a >= hs[0] {
      LadderMonotone(a - hs[0], b - hs[0], hs[1..]);
    }
  }

  /** A band of height 0 (a missing element) is never selected while the scroll position is not negative. */
  lemma {:induction false} EmptyBandNeverSelected(latest: int, hs: seq<nat>)
    requires latest >= 0
    ensures Ladder(latest, hs) < |hs| ==> hs[Ladder(latest, hs)] > 0
    decreases |hs|
  {
    if hs != [] && latest >= hs[0] {
      EmptyBandNeverSelected(latest - hs[0], hs[1..]);
    }
  }

  /** The contact section's height makes no difference to either page. */
  lemma ContactHeightUnused(latest: int, hero: Option<nat>, about: Option<nat>, services: Option<nat>,
                            pricing: Option<nat>, counters: Option<nat>, c1: Option<nat>, c2: Option<nat>)
    ensures FourSectionOf(latest, hero, about, services, c1) == FourSectionOf(latest, hero, about, services, c2)
    ensures SixSectionOf(latest, hero, about, services, pricing, counters, c1)
            == SixSectionOf(latest, hero, about, services, pricing, counters, c2)
  {
  }

  /** The resize listener `checkMobile`. */
  method CheckMobile(store: Store.AppStore, width: int)
    modifies store`isMobile
    ensures store.isMobile <==> IsMobileWidth(width)
  {
    store.SetIsMobile(width <= 768);
  }

  /** The scroll listener of src/app/page.tsx: one setter call with the section the ladder picks. */
  method OnScroll(store: Store.AppStore, latest: int, hero: Option<nat>, about: Option<nat>, services: Option<nat>, contact: Option<nat>)
    modifies store`currentSection
    ensures store.currentSection == FourSections[Ladder(latest, [Height(hero), Height(about), Height(services)])]
  {
    var h, a, s := Height(hero), Height(about), Height(services);
    if latest < h {
      store.SetCurrentSection("hero");
    } else if latest < h + a {
      store.SetCurrentSection("about");
    } else if latest < h + a + s {
      store.SetCurrentSection("services");
    } else {
      store.SetCurrentSection("contact");
    }
    FourSectionIsLadder(latest, hero, about, services, contact);
  }

  /** The scroll listener of src/app/page-new.tsx. */
  method OnScrollSix(store: Store.AppStore, latest: int, hero: Option<nat>, about: Option<nat>, services: Option<nat>,
                     pricing: Option<nat>, counters: Option<nat>, contact: Option<nat>)
    modifies store`currentSection
    ensures store.currentSection == SixSections[Ladder(latest, [Height(hero), Height(about), Height(services), Height(pricing), Height(counters)])]
  {
    var h, a, s, p, c := Height(hero), Height(about), Height(services), Height(pricing), Height(counters);
    if latest < h {
      store.SetCurrentSection("hero");
    } else if latest < h + a {
      store.SetCurrentSection("about");
    } else if latest < h + a + s {
      store.SetCurrentSection("services");
    } else if latest < h + a + s + p {
      store.SetCurrentSection("pricing");
    } else if latest < h + a + s + p + c {
      store.SetCurrentSection("counters");
    } else {
      store.SetCurrentSection("contact");
    }
    SixSectionIsLadder(latest, hero, about, services, pricing, counters, contact);
  }
}
