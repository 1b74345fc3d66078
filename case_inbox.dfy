/** The case inbox: the case table narrowed by status, risk level and
    assigned analyst, the analyst dropdown built from the cases, the risk
    icon and row highlight, and the empty-state message. */
module CaseInbox {
  import opened Common
  import opened CaseData

  /** The analyst dropdown's "all analysts" value. */
  const AllAnalysts := "ALL"

  /** The three dropdowns. `None` is the "ALL" entry of the status and risk
      dropdowns; the analyst dropdown holds a name or `AllAnalysts`. */
  datatype InboxFilters = InboxFilters(status: Option<CaseStatus>, risk: Option<RiskLevel>, analyst: string)

  const DefaultInboxFilters := InboxFilters(None, None, AllAnalysts)

  // ---------------------------------------------------------------------------
  // The row test
  // ---------------------------------------------------------------------------

  predicate PassesStatus(f: InboxFilters, c: Case)
  {
    f.status.None? || c.status == f.status.value
  }

  predicate PassesRisk(f: InboxFilters, c: Case)
  {
    f.risk.None? || c.riskLevel == f.risk.value
  }

  predicate PassesAnalyst(f: InboxFilters, c: Case)
  {
    f.analyst == AllAnalysts || c.assignedAnalyst == f.analyst
  }

  /** The callback of `filteredCases`, with its early returns. */
  predicate Matches(f: InboxFilters, c: Case)
  {
    if f.status.Some? && c.status != f.status.value then false
    else if f.risk.Some? && c.riskLevel != f.risk.value then false
    else if f.analyst != AllAnalysts && c.assignedAnalyst != f.analyst then false
    else true
  }

  function MatchesFilters(f: InboxFilters): Case -> bool
  {
    c => Matches(f, c)
  }

  /** `filteredCases`: the cases that pass every dropdown. */
  function FilteredCases(cs: seq<Case>, f: InboxFilters): (r: seq<Case>)
    ensures forall c :: c in r <==> c in cs && PassesStatus(f, c) && PassesRisk(f, c) && PassesAnalyst(f, c)
    ensures forall c ::
      multiset(r)[c] == if PassesStatus(f, c) && PassesRisk(f, c) && PassesAnalyst(f, c) then multiset(cs)[c] else 0
  {
    FilterMultiset(MatchesFilters(f), cs);
    Filter(MatchesFilters(f), cs)
  }

  /** The table keeps the order of the case list. */
  lemma FilteredInCaseOrder(cs: seq<Case>, f: InboxFilters)
    ensures IsSubsequence(FilteredCases(cs, f), cs)
  {
    FilterIsSubsequence(MatchesFilters(f), cs);
  }

  /** With every dropdown on "ALL" the table lists every case. */
  lemma AllFiltersShowAll(cs: seq<Case>)
    ensures FilteredCases(cs, DefaultInboxFilters) == cs
  {
    FilterKeepsAll(MatchesFilters(DefaultInboxFilters), cs);
  }

  // ---------------------------------------------------------------------------
  // One dropdown at a time
  // ---------------------------------------------------------------------------

  datatype Dropdown = StatusDropdown | RiskDropdown | AnalystDropdown

  /** The test of one dropdown on its own. */
  function Single(f: InboxFilters, d: Dropdown): Case -> bool
  {
    match d
    case StatusDropdown => c => PassesStatus(f, c)
    case RiskDropdown => c => PassesRisk(f, c)
    case AnalystDropdown => c => PassesAnalyst(f, c)
  }

  /** Three different dropdowns are all three, so their tests together are
      the combined test. */
  lemma ThreeDropdownsCombined(f: InboxFilters, d1: Dropdown, d2: Dropdown, d3: Dropdown, c: Case)
    requires d1 != d2 && d2 != d3 && d1 != d3
    ensures Both(Single(f, d1), Both(Single(f, d2), Single(f, d3)))(c) == MatchesFilters(f)(c)
  {
    assert Single(f, StatusDropdown)(c) == PassesStatus(f, c);
    assert Single(f, RiskDropdown)(c) == PassesRisk(f, c);
    assert Single(f, AnalystDropdown)(c) == PassesAnalyst(f, c);
  }

  /** Narrowing by the three dropdowns one after the other, in any order,
      gives the table that the combined test gives. */
  lemma DropdownsInAnyOrder(cs: seq<Case>, f: InboxFilters, d1: Dropdown, d2: Dropdown, d3: Dropdown)
    requires d1 != d2 && d2 != d3 && d1 != d3
    ensures Filter(Single(f, d1), Filter(Single(f, d2), Filter(Single(f, d3), cs))) == FilteredCases(cs, f)
  {
    var p1, p2, p3 := Single(f, d1), Single(f, d2), Single(f, d3);
    FilterFilter(p2, p3, cs);
    FilterFilter(p1, Both(p2, p3), cs);
    forall c ensures Both(p1, Both(p2, p3))(c) == MatchesFilters(f)(c) {
      ThreeDropdownsCombined(f, d1, d2, d3, c);
    }
    FilterExtensional(Both(p1, Both(p2, p3)), MatchesFilters(f), cs);
  }

  // ---------------------------------------------------------------------------
  // Analyst dropdown
  // ---------------------------------------------------------------------------

  function Analysts(cs: seq<Case>): (r: seq<string>)
    ensures |r| == |cs| && forall i :: 0 <= i < |cs| ==> r[i] == cs[i].assignedAnalyst
  {
    seq(|cs|, i requires 0 <= i < |cs| => cs[i].assignedAnalyst)
  }

  /** `uniqueAnalysts`: every assigned analyst once, in order of first
      appearance. */
  function UniqueAnalysts(cs: seq<Case>): (r: seq<string>)
    ensures NoDuplicates(r)
    ensures forall a :: a in r <==> a in Analysts(cs)
    ensures forall a :: a in r <==> exists i :: 0 <= i < |cs| && cs[i].assignedAnalyst == a
    ensures forall i, j :: 0 <= i < j < |r| ==> FirstIndex(Analysts(cs), r[i]) < FirstIndex(Analysts(cs), r[j])
  {
    var names := Analysts(cs);
    assert forall a :: a in names <==> exists i :: 0 <= i < |cs| && cs[i].assignedAnalyst == a by {
      forall a | a in names ensures exists i :: 0 <= i < |cs| && cs[i].assignedAnalyst == a {
        var i :| 0 <= i < |names| && names[i] == a;
      }
    }
    Distinct(names)
  }

  /** Each case's analyst is offered, and choosing that analyst (with the
      other dropdowns on "ALL") keeps the case in the table. */
  lemma AnalystDropdownReachesEveryCase(cs: seq<Case>, k: nat)
    requires k < |cs|
    ensures cs[k].assignedAnalyst in UniqueAnalysts(cs)
    ensures cs[k] in FilteredCases(cs, DefaultInboxFilters.(analyst := cs[k].assignedAnalyst))
  {
  }

  // ---------------------------------------------------------------------------
  // Row decoration and the empty state
  // ---------------------------------------------------------------------------

  /** `getRiskIcon` draws an icon. */
  predicate HasRiskIcon(r: RiskLevel)
  {
    r == Critical || r == High
  }

  /** The row gets the red background. */
  predicate RowHighlighted(r: RiskLevel)
  {
    r == Critical
  }

  /** Risk levels in increasing order. */
  function RiskRank(r: RiskLevel): nat
  {
    match r
    case Low => 0
    case Medium => 1
    case High => 2
    case Critical => 3
  }

  /** The icon marks the two highest risk levels, the highlight only the
      highest, so every highlighted row also has the icon. */
  lemma RiskDecorationByRank(r: RiskLevel)
    ensures HasRiskIcon(r) <==> RiskRank(r) >= RiskRank(High)
    ensures RowHighlighted(r) <==> forall q :: RiskRank(q) <= RiskRank(r)
    ensures RowHighlighted(r) ==> HasRiskIcon(r)
  {
    if !RowHighlighted(r) {
      assert RiskRank(Critical) > RiskRank(r);
    }
  }

  /** "No cases match the selected filters" is shown. */
  predicate ShowsEmptyState(cs: seq<Case>, f: InboxFilters)
  {
    |FilteredCases(cs, f)| == 0
  }

  /** The empty-state message appears exactly when no case passes. */
  lemma EmptyStateIff(cs: seq<Case>, f: InboxFilters)
    ensures ShowsEmptyState(cs, f) <==>
      forall c :: c in cs ==> !(PassesStatus(f, c) && PassesRisk(f, c) && PassesAnalyst(f, c))
  {
    var r := FilteredCases(cs, f);
    if |r| != 0 {
      assert r[0] in r;
    }
  }
}
