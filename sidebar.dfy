/** The collapsible sidebar: three titled sections of links, any of which
    the user can collapse, and the rule that marks a link active for the
    current location. */
module Sidebar {
  import opened Common

  datatype NavItem = NavItem(labelText: string, path: string)

  datatype NavSection = NavSection(title: string, items: seq<NavItem>)

  const NavSections: seq<NavSection> := [
    NavSection("Analytics", [
      NavItem("Overview", "/"),
      NavItem("Actioned Transactions", "/actioned-transactions"),
      NavItem("Rule Performance", "/rule-performance")]),
    NavSection("Rule Management", [
      NavItem("Rule Library", "/rule-library"),
      NavItem("Rule Builder", "/rule-builder")]),
    NavSection("Investigations", [
      NavItem("Case Inbox", "/case-inbox"),
      NavItem("Entity Links", "/entity-links")])
  ]

  /** The link targets of some sections, section by section. */
  function SectionPaths(sections: seq<NavSection>): seq<string>
  {
    if sections == [] then []
    else
      var items := sections[0].items;
      seq(|items|, i requires 0 <= i < |items| => items[i].path) + SectionPaths(sections[1..])
  }

  /** Every link of every section is listed. */
  lemma {:induction false} SectionPathsCover(sections: seq<NavSection>)
    ensures forall s, it :: s in sections && it in s.items ==> it.path in SectionPaths(sections)
  {
    if sections != [] {
      var items := sections[0].items;
      var head := seq(|items|, i requires 0 <= i < |items| => items[i].path);
      assert SectionPaths(sections) == head + SectionPaths(sections[1..]);
      forall it | it in items ensures it.path in head {
        var k :| 0 <= k < |items| && items[k] == it;
        assert head[k] == it.path;
      }
      SectionPathsCover(sections[1..]);
      assert forall s :: s in sections ==> s == sections[0] || s in sections[1..];
    }
  }

  /** The link targets of the sidebar. */
  const SidebarPaths: seq<string> := [
    "/", "/actioned-transactions", "/rule-performance", "/rule-library",
    "/rule-builder", "/case-inbox", "/entity-links"
  ]

  lemma SidebarPathsListed()
    ensures SectionPaths(NavSections) == SidebarPaths
  {
  }

  // ---------------------------------------------------------------------------
  // Active link
  // ---------------------------------------------------------------------------

  /** `isActive`: the overview link only on "/" itself, any other link
      whenever the location begins with its path. */
  predicate IsActive(path: string, pathname: string)
  {
    if path == "/" then pathname == "/" else StartsWith(pathname, path)
  }

  /** A link is active on its own page and on every location that extends
      its path, whatever follows, so the match is by characters and not by
      path segments. */
  lemma ActiveOnExtensions(path: string, rest: string)
    requires path != "/"
    ensures IsActive(path, path + rest)
  {
    assert (path + rest)[..|path|] == path;
  }

  /** For instance the case-inbox link is lit on "/case-inboxes", a
      different location. */
  lemma ActiveOnSiblingLocation()
    ensures IsActive("/case-inbox", "/case-inboxes")
  {
    ActiveOnExtensions("/case-inbox", "es");
    assert "/case-inbox" + "es" == "/case-inboxes";
  }

  /** No path is listed twice, no path other than "/" is a prefix of
      another, and each of them is longer than "/". */
  predicate PrefixFree(paths: seq<string>)
  {
    && NoDuplicates(paths)
    && (forall i :: 0 <= i < |paths| && paths[i] != "/" ==> |paths[i]| >= 2)
    && (forall i, j :: 0 <= i < |paths| && 0 <= j < |paths| && i != j && paths[i] != "/" ==>
          !StartsWith(paths[j], paths[i]))
  }

  /** In a prefix-free list of paths, at most one link is active for any
      location. */
  lemma AtMostOneActive(paths: seq<string>, pathname: string, i: nat, j: nat)
    requires PrefixFree(paths)
    requires i < |paths| && j < |paths|
    requires IsActive(paths[i], pathname) && IsActive(paths[j], pathname)
    ensures i == j
  {
    if i != j {
      var p, q := paths[i], paths[j];
      if p != "/" && q != "/" {
        if |p| <= |q| {
          PrefixesComparable(pathname, p, q);
        } else {
          PrefixesComparable(pathname, q, p);
        }
      }
    }
  }

  /** The sidebar's own links form a prefix-free list: apart from "/",
      they differ in their second or their seventh character. */
  lemma SidebarPathsPrefixFree()
    ensures PrefixFree(SidebarPaths)
  {
    var ps := SidebarPaths;
    forall i, j | 0 <= i < |ps| && 0 <= j < |ps| && i != j && ps[i] != "/"
      ensures !StartsWith(ps[j], ps[i])
    {
      if |ps[i]| <= |ps[j]| {
        assert ps[i][1] != ps[j][1] || ps[i][6] != ps[j][6];
      }
    }
  }

  /** Wherever the user is, at most one sidebar link is highlighted. */
  lemma OneActiveLink(pathname: string, s1: NavSection, a: NavItem, s2: NavSection, b: NavItem)
    requires s1 in NavSections && a in s1.items && s2 in NavSections && b in s2.items
    requires IsActive(a.path, pathname) && IsActive(b.path, pathname)
    ensures a.path == b.path
  {
    SectionPathsCover(NavSections);
    SidebarPathsListed();
    SidebarPathsPrefixFree();
    var ps := SidebarPaths;
    var i :| 0 <= i < |ps| && ps[i] == a.path;
    var j :| 0 <= j < |ps| && ps[j] == b.path;
    AtMostOneActive(ps, pathname, i, j);
  }

  // ---------------------------------------------------------------------------
  // Collapsing
  // ---------------------------------------------------------------------------

  class SidebarState {
    var collapsedSections: set<string>

    /** Nothing is collapsed at first. */
    constructor ()
      ensures collapsedSections == {}
    {
      collapsedSections := {};
    }

    /** `toggleSection`: the title flips, no other does. */
    method ToggleSection(title: string)
      modifies this`collapsedSections
      ensures collapsedSections == Toggled(old(collapsedSections), title)
      ensures title in collapsedSections <==> title !in old(collapsedSections)
    {
      collapsedSections := Toggled(collapsedSections, title);
    }

    /** The links listed under a section header. */
    function ItemsShown(section: NavSection): (r: seq<NavItem>)
      reads this
      ensures section.title !in collapsedSections ==> r == section.items
      ensures section.title in collapsedSections ==> r == []
    {
      if section.title in collapsedSections then [] else section.items
    }
  }
}
