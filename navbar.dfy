/** The navigation bar (src/app/components/Navbar.tsx): whether the page
    is scrolled, which section is active, and the mobile menu. */
module Navbar {
  import opened Wrappers

  /** An entry of `navItems`; `title` holds the item's `label` (a word
      Dafny reserves). */
  datatype NavItem = NavItem(title: string, href: string, id: string)

  /** `navItems`, in the order the bar shows them. */
  const NavItems: seq<NavItem> := [
    NavItem("Home", "/", "home"),
    NavItem("About", "/about", "about"),
    NavItem("Skills", "/skills", "skills"),
    NavItem("Projects", "/projects", "projects"),
    NavItem("Contact", "/contact", "contact")
  ]

  /** `navItems.map((item) => item.id)`. */
  function SectionIds(items: seq<NavItem>): (ids: seq<string>)
    ensures |ids| == |items|
    ensures forall k :: 0 <= k < |items| ==> ids[k] == items[k].id
  {
    seq(|items|, k requires 0 <= k < |items| => items[k].id)
  }

  /** The sections the scan visits, in order. */
  lemma NavSectionIds()
    ensures SectionIds(NavItems) == ["home", "about", "skills", "projects", "contact"]
  {
  }

  /** The ids of the items are distinct. */
  predicate IdsDistinct(ids: seq<string>) {
    forall i, j :: 0 <= i < j < |ids| ==> ids[i] != ids[j]
  }

  // ---------------------------------------------------------------------
  // The scroll handler

  /** `offsetTop` and `offsetHeight` of a section's element. */
  datatype Box = Box(top: real, height: real)

  /** The element with id `id` exists (`document.getElementById`) and the
      position lies within it, both ends included. */
  predicate Matches(elements: map<string, Box>, id: string, position: real) {
    id in elements && elements[id].top <= position <= elements[id].top + elements[id].height
  }

  /** The position of the first id in `ids` whose element contains
      `position`, if any. */
  function FirstMatch(ids: seq<string>, elements: map<string, Box>, position: real): (r: Option<nat>)
    ensures r.Some? ==> r.value < |ids| && Matches(elements, ids[r.value], position)
    ensures r.Some? ==> forall j :: 0 <= j < r.value ==> !Matches(elements, ids[j], position)
    ensures r.None? <==> forall j :: 0 <= j < |ids| ==> !Matches(elements, ids[j], position)
  {
    if ids == [] then None
    else if Matches(elements, ids[0], position) then Some(0)
    else
      match FirstMatch(ids[1..], elements, position)
      case Some(k) =>
        assert forall j :: 1 <= j <= k ==> ids[j] == ids[1..][j - 1];
        Some(k + 1)
      case None =>
        assert forall j :: 1 <= j < |ids| ==> ids[j] == ids[1..][j - 1];
        None
  }

  /** The first match is the one at `k` when the section at `k` contains
      the position and none before it does. */
  lemma FirstMatchAt(ids: seq<string>, elements: map<string, Box>, position: real, k: nat)
    requires k < |ids| && Matches(elements, ids[k], position)
    requires forall j :: 0 <= j < k ==> !Matches(elements, ids[j], position)
    ensures FirstMatch(ids, elements, position) == Some(k)
  {
  }

  /** The section the scan leaves active: the first one containing the
      position, or the one active before when none does. */
  function ActiveAfterScroll(active: string, elements: map<string, Box>, position: real): (r: string)
    ensures (exists k :: 0 <= k < |NavItems| && Matches(elements, NavItems[k].id, position)) ==>
      exists k :: 0 <= k < |NavItems| && r == NavItems[k].id && Matches(elements, r, position)
        && forall j :: 0 <= j < k ==> !Matches(elements, NavItems[j].id, position)
    ensures (forall k :: 0 <= k < |NavItems| ==> !Matches(elements, NavItems[k].id, position)) ==> r == active
  {
    var ids := SectionIds(NavItems);
    match FirstMatch(ids, elements, position)
    case Some(k) => ids[k]
    case None => active
  }

  /** Where two sections overlap at the position the earlier one wins,
      and a later section never becomes active while an earlier one
      contains the position. */
  lemma EarlierSectionWins(active: string, elements: map<string, Box>, position: real, j: nat, k: nat)
    requires j < k < |NavItems|
    requires Matches(elements, NavItems[j].id, position)
    ensures ActiveAfterScroll(active, elements, position) != NavItems[k].id
  {
    var ids := SectionIds(NavItems);
    NavSectionIds();
    var r := FirstMatch(ids, elements, position);
    assert r.Some? && r.value <= j;
  }

  // ---------------------------------------------------------------------
  // The bar's state

  /** `isOpen`, `isScrolled` and `activeSection`. */
  class NavbarState {
    var isOpen: bool
    var isScrolled: bool
    var activeSection: string

    /** The active section is always one of the items. */
    predicate Valid()
      reads this
    {
      activeSection in SectionIds(NavItems)
    }

    /** The highlighted item: `activeSection === item.id`. */
    predicate Highlighted(k: int)
      reads this
    {
      0 <= k < |NavItems| && activeSection == NavItems[k].id
    }

    /** The bar starts closed, unscrolled, on "home". */
    constructor ()
      ensures Valid() && !isOpen && !isScrolled && activeSection == "home"
    {
      isOpen, isScrolled, activeSection := false, false, "home";
      new;
      NavSectionIds();
    }

    /** `handleScroll`: the bar is scrolled past 20 pixels, and the active
        section becomes the first one whose element contains the point 100
        pixels below the top of the view. The scan stops at that first
        match; when no section contains the point the active section stays
        as it was. */
    method HandleScroll(scrollY: real, elements: map<string, Box>)
      requires Valid()
      modifies this
      ensures Valid() && isOpen == old(isOpen)
      ensures isScrolled <==> scrollY > 20.0
      ensures activeSection == ActiveAfterScroll(old(activeSection), elements, scrollY + 100.0)
    {
      isScrolled := scrollY > 20.0;
      var sections := SectionIds(NavItems);
      var currentPosition := scrollY + 100.0;
      var i := 0;
      while i < |sections|
        invariant 0 <= i <= |sections|
        invariant forall j :: 0 <= j < i ==> !Matches(elements, sections[j], currentPosition)
        invariant activeSection == old(activeSection) && isOpen == old(isOpen)
        invariant isScrolled <==> scrollY > 20.0
      {
        var section := sections[i];
        if section in elements {
          var top := elements[section].top;
          var height := elements[section].height;
          if currentPosition >= top && currentPosition <= top + height {
            activeSection := section;
            FirstMatchAt(sections, elements, currentPosition, i);
            break;
          }
        }
        i := i + 1;
      }
    }

    /** A desktop item: `setActiveSection(item.id)`. */
    method ClickItem(k: int)
      requires 0 <= k < |NavItems|
      modifies this
      ensures Valid() && Highlighted(k)
      ensures isOpen == old(isOpen) && isScrolled == old(isScrolled)
    {
      activeSection := NavItems[k].id;
    }

    /** A mobile item: `setActiveSection(item.id)` and `setIsOpen(false)`. */
    method ClickMobileItem(k: int)
      requires 0 <= k < |NavItems|
      modifies this
      ensures Valid() && Highlighted(k) && !isOpen
      ensures isScrolled == old(isScrolled)
    {
      activeSection := NavItems[k].id;
      isOpen := false;
    }

    /** The mobile "Let's Talk" link closes the menu and nothing more. */
    method ClickMobileContact()
      modifies this
      ensures !isOpen && isScrolled == old(isScrolled) && activeSection == old(activeSection)
    {
      isOpen := false;
    }

    /** The menu button: `setIsOpen(!isOpen)`. */
    method ToggleMenu()
      modifies this
      ensures isOpen == !old(isOpen)
      ensures isScrolled == old(isScrolled) && activeSection == old(activeSection)
    {
      isOpen := !isOpen;
    }
  }

  /** The item ids are distinct, so exactly one item is highlighted at a
      time. */
  lemma OneItemHighlighted(nav: NavbarState)
    requires nav.Valid()
    ensures exists k :: nav.Highlighted(k)
    ensures forall j, k :: nav.Highlighted(j) && nav.Highlighted(k) ==> j == k
  {
    NavSectionIds();
    assert IdsDistinct(SectionIds(NavItems));
    var k :| 0 <= k < |NavItems| && SectionIds(NavItems)[k] == nav.activeSection;
    assert nav.Highlighted(k);
  }
}
