/** The navigation sidebar: three expandable sections of links, all
    expanded at first, with its own inline rule for the active link. */
module NavigationSidebar {
  import opened Common
  import opened Sidebar

  const NavigationSections: seq<NavSection> := [
    NavSection("Analytics", [
      NavItem("Overview", "/"),
      NavItem("Actioned Transactions", "/actioned-transactions"),
      NavItem("Rule Performance", "/rule-performance")]),
    NavSection("Rule Management", [
      NavItem("Rule Library", "/rule-library"),
      NavItem("Rule Builder", "/rule-builder"),
      NavItem("Visual Rule Builder", "/visual-rule-builder"),
      NavItem("Rule Simulation", "/rule-simulation"),
      NavItem("Deployment History", "/deployment-history")]),
    NavSection("Investigations", [
      NavItem("Case Inbox", "/case-inbox"),
      NavItem("Case Detail", "/case-detail"),
      NavItem("Entity Links", "/entity-links")])
  ]

  const NavigationPaths: seq<string> := [
    "/", "/actioned-transactions", "/rule-performance", "/rule-library",
    "/rule-builder", "/visual-rule-builder", "/rule-simulation", "/deployment-history",
    "/case-inbox", "/case-detail", "/entity-links"
  ]

  lemma NavigationPathsListed()
    ensures SectionPaths(NavigationSections) == NavigationPaths
  {
  }

  const SectionTitles: set<string> := {"Analytics", "Rule Management", "Investigations"}

  // ---------------------------------------------------------------------------
  // Active link
  // ---------------------------------------------------------------------------

  /** The inline `isActive` of each link. */
  predicate InlineActive(path: string, pathname: string)
  {
    || pathname == path
    || (path == "/" && pathname == "/")
    || (path != "/" && StartsWith(pathname, path))
  }

  /** The inline rule is the collapsible sidebar's rule: exact match for
      "/", a prefix match for every other path. */
  lemma InlineActiveAgrees(path: string, pathname: string)
    ensures InlineActive(path, pathname) <==> IsActive(path, pathname)
  {
    if pathname == path {
      assert pathname[..|path|] == path;
    }
  }

  /** Apart from "/", the links differ in their second or seventh character. */
  lemma NavigationPathsPrefixFree()
    ensures PrefixFree(NavigationPaths)
  {
    var ps := NavigationPaths;
    forall i, j | 0 <= i < |ps| && 0 <= j < |ps| && i != j && ps[i] != "/"
      ensures !StartsWith(ps[j], ps[i])
    {
      if |ps[i]| <= |ps[j]| {
        assert ps[i][1] != ps[j][1] || ps[i][6] != ps[j][6];
      }
    }
  }

  /** Wherever the user is, at most one link of this sidebar is highlighted. */
  lemma OneInlineActiveLink(pathname: string, s1: NavSection, a: NavItem, s2: NavSection, b: NavItem)
    requires s1 in NavigationSections && a in s1.items && s2 in NavigationSections && b in s2.items
    requires InlineActive(a.path, pathname) && InlineActive(b.path, pathname)
    ensures a.path == b.path
  {
    InlineActiveAgrees(a.path, pathname);
    InlineActiveAgrees(b.path, pathname);
    SectionPathsCover(NavigationSections);
    NavigationPathsListed();
    NavigationPathsPrefixFree();
    var ps := NavigationPaths;
    var i :| 0 <= i < |ps| && ps[i] == a.path;
    var j :| 0 <= j < |ps| && ps[j] == b.path;
    AtMostOneActive(ps, pathname, i, j);
  }

  // ---------------------------------------------------------------------------
  // Expanding
  // ---------------------------------------------------------------------------

  class NavigationState {
    var expandedSections: set<string>

    /** All three sections start expanded. */
    constructor ()
      ensures expandedSections == SectionTitles
      ensures forall s :: s in NavigationSections ==> s.title in expandedSections
    {
      expandedSections := SectionTitles;
    }

    /** `toggleSection`: the title flips, no other does. */
    method ToggleSection(title: string)
      modifies this`expandedSections
      ensures expandedSections == Toggled(old(expandedSections), title)
      ensures title in expandedSections <==> title !in old(expandedSections)
    {
      expandedSections := Toggled(expandedSections, title);
    }

    /** The links listed under a section header. */
    function ItemsShown(section: NavSection): (r: seq<NavItem>)
      reads this
      ensures section.title in expandedSections ==> r == section.items
      ensures section.title !in expandedSections ==> r == []
    {
      if section.title in expandedSections then section.items else []
    }
  }
}
