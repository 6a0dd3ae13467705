/** The fixed site header: the navigation links, the highlight the active-section tracker
    drives, the smooth scroll a link click starts, the mobile menu and the "scrolled" style. */
module Header {
  import opened Js
  import opened Dom
  import ScrollSpy

  /** The navigation links' targets, in display order. */
  const NavHrefs: seq<string> :=
    ["#about", "#skills", "#experience", "#projects", "#image-editor", "#education", "#contact"]

  /** The offset the header hands to the active-section tracker. */
  const SpyOffset: real := 100.0
  /** The scroll depth past which the header takes its compact, opaque style. */
  const ScrolledThreshold: real := 50.0
  /** The header height assumed while the header element is not mounted. */
  const FallbackHeaderHeight: real := 80.0

  /** `navLinks.map(link => link.href.substring(1))`. */
  function SectionIds(hrefs: seq<string>): (ids: seq<string>)
    ensures |ids| == |hrefs|
    ensures forall i :: 0 <= i < |hrefs| && |hrefs[i]| > 0 ==> [hrefs[i][0]] + ids[i] == hrefs[i]
  {
    seq(|hrefs|, i requires 0 <= i < |hrefs| => FragmentId(hrefs[i]))
  }

  /** Every href is a same-page link `#id`, and no two are the same. */
  predicate WellFormedLinks(hrefs: seq<string>)
  {
    (forall i :: 0 <= i < |hrefs| ==> |hrefs[i]| > 0 && hrefs[i][0] == '#') &&
    (forall i, j :: 0 <= i < j < |hrefs| ==> hrefs[i] != hrefs[j])
  }

  /** The link `href` is underlined and coloured when the tracker's id is its target. */
  predicate IsHighlighted(href: string, activeId: string)
  {
    activeId == FragmentId(href)
  }

  /** Distinct `#id` links lead to distinct section ids, so at most one link is highlighted. */
  lemma AtMostOneHighlighted(hrefs: seq<string>, activeId: string, i: nat, j: nat)
    requires WellFormedLinks(hrefs) && i < |hrefs| && j < |hrefs|
    requires IsHighlighted(hrefs[i], activeId) && IsHighlighted(hrefs[j], activeId)
    ensures i == j
  {
  }

  /** The site's own links are distinct `#id` links with non-empty ids. */
  lemma NavLinksWellFormed()
    ensures WellFormedLinks(NavHrefs)
    ensures forall i :: 0 <= i < |NavHrefs| ==> |NavHrefs[i]| >= 2
  {
  }

  /** With distinct `#id` links whose ids are non-empty, the tracker's result highlights
      exactly one link when it names a section and none when it is `""`. */
  lemma HighlightFollowsTracker(hrefs: seq<string>, layout: Layout, scroll: real)
    requires WellFormedLinks(hrefs)
    requires forall i :: 0 <= i < |hrefs| ==> |hrefs[i]| >= 2
    ensures var active := ScrollSpy.ActiveId(SectionIds(hrefs), layout, scroll, SpyOffset);
      (active == "" ==> forall i :: 0 <= i < |hrefs| ==> !IsHighlighted(hrefs[i], active)) &&
      (active != "" ==>
        exists i :: 0 <= i < |hrefs| && IsHighlighted(hrefs[i], active) &&
          (forall j :: 0 <= j < |hrefs| && IsHighlighted(hrefs[j], active) ==> j == i))
  {
    var ids := SectionIds(hrefs);
    var active := ScrollSpy.ActiveId(ids, layout, scroll, SpyOffset);
    if active == "" {
      forall i | 0 <= i < |hrefs| ensures !IsHighlighted(hrefs[i], active) {
        assert |FragmentId(hrefs[i])| == |hrefs[i]| - 1;
      }
    } else {
      var i :| 0 <= i < |ids| && ids[i] == active;
      assert IsHighlighted(hrefs[i], active);
      forall j | 0 <= j < |hrefs| && IsHighlighted(hrefs[j], active) ensures j == i {
        AtMostOneHighlighted(hrefs, active, i, j);
      }
    }
  }

  /** `handleNavClick`'s scroll target: below the mounted header's height, or below 80
      pixels while it is not mounted; no scroll when the section is not rendered. */
  function NavTarget(href: string, layout: Layout, pageYOffset: real, headerHeight: Option<real>): (target: Option<real>)
    ensures target.None? <==> FragmentId(href) !in layout
    ensures target.Some? && headerHeight.Some? ==>
      layout[FragmentId(href)].top + pageYOffset - target.value == headerHeight.value
    ensures target.Some? && headerHeight.None? ==>
      layout[FragmentId(href)].top + pageYOffset - target.value == FallbackHeaderHeight
  {
    var height := if headerHeight.Some? then headerHeight.value else FallbackHeaderHeight;
    ScrollTarget(GetElementById(layout, FragmentId(href)), pageYOffset, height)
  }

  /** The header's state, and the tracker it set up over its links' section ids. */
  class NavBar {
    const hrefs: seq<string>
    const spy: ScrollSpy.Tracker
    var isOpen: bool
    var isScrolled: bool

    /** Mounting: menu closed, not scrolled, and the tracker already evaluated once with
        offset 100 over the links' section ids. */
    constructor (hrefs: seq<string>, scroll: real, layout: Layout)
      ensures this.hrefs == hrefs && !isOpen && !isScrolled
      ensures spy.ids == SectionIds(hrefs) && spy.offset == SpyOffset
      ensures spy.activeId == ScrollSpy.ActiveId(SectionIds(hrefs), layout, scroll, SpyOffset)
    {
      this.hrefs := hrefs;
      spy := new ScrollSpy.Tracker(SectionIds(hrefs), SpyOffset, scroll, layout);
      isOpen, isScrolled := false, false;
    }

    /** The window scroll listener. */
    method OnScroll(scrollY: real)
      modifies this`isScrolled
      ensures isScrolled <==> scrollY > ScrolledThreshold
    {
      isScrolled := scrollY > ScrolledThreshold;
    }

    /** `toggleMenu`. */
    method ToggleMenu()
      modifies this`isOpen
      ensures isOpen == !old(isOpen)
    {
      isOpen := !isOpen;
    }

    /** `handleNavClick`: the scroll target, if the section is rendered, and the mobile menu
        closed either way. */
    method HandleNavClick(href: string, layout: Layout, pageYOffset: real, headerHeight: Option<real>)
      returns (scrollTo: Option<real>)
      modifies this`isOpen
      ensures scrollTo == NavTarget(href, layout, pageYOffset, headerHeight)
      ensures !isOpen
    {
      var targetElement := GetElementById(layout, FragmentId(href));
      scrollTo := None;
      if targetElement.Some? {
        var height := if headerHeight.Some? then headerHeight.value else FallbackHeaderHeight;
        scrollTo := Some(targetElement.value.top + pageYOffset - height);
      }
      if isOpen {
        isOpen := false;
      }
    }
  }
}
