/** The rule-performance page: the rule table narrowed by action type, the
    row highlight by rule health, and the false-positive colour bands used
    in the table and on the average-false-positive KPI card. */
module RulePerformance {
  import opened Common

  datatype RuleAction = Block | Alert | Case

  datatype RuleHealth = Healthy | Noisy | Critical

  /** A rule row; rates and amounts are decimal numbers. */
  datatype Rule = Rule(
    id: string,
    name: string,
    hits: int,
    blocks: int,
    blockRate: real,
    falsePositiveRate: real,
    blockedAmount: real,
    status: RuleHealth,
    category: string,
    actionType: RuleAction)

  // ---------------------------------------------------------------------------
  // Action-type filter
  // ---------------------------------------------------------------------------

  function HasAction(a: RuleAction): Rule -> bool
  {
    (r: Rule) => r.actionType == a
  }

  /** `filteredRules`; `None` is the "All Actions" entry. */
  function FilteredRules(rules: seq<Rule>, actionType: Option<RuleAction>): (r: seq<Rule>)
    ensures actionType.None? ==> r == rules
    ensures actionType.Some? ==> forall x :: x in r <==> x in rules && x.actionType == actionType.value
  {
    if actionType.None? then rules else Filter(HasAction(actionType.value), rules)
  }

  /** The table keeps the order of the rule list. */
  lemma FilteredInRuleOrder(rules: seq<Rule>, actionType: Option<RuleAction>)
    ensures IsSubsequence(FilteredRules(rules, actionType), rules)
  {
    if actionType.None? {
      SubsequenceRefl(rules);
    } else {
      FilterIsSubsequence(HasAction(actionType.value), rules);
    }
  }

  /** The BLOCK, ALERT and CASE views split the rule list: each rule is in
      exactly one of them, as often as it is in the list. */
  lemma ActionViewsPartition(rules: seq<Rule>)
    ensures multiset(FilteredRules(rules, Some(Block))) + multiset(FilteredRules(rules, Some(Alert)))
            + multiset(FilteredRules(rules, Some(Case))) == multiset(rules)
    ensures |FilteredRules(rules, Some(Block))| + |FilteredRules(rules, Some(Alert))|
            + |FilteredRules(rules, Some(Case))| == |rules|
  {
    FilterMultiset(HasAction(Block), rules);
    FilterMultiset(HasAction(Alert), rules);
    FilterMultiset(HasAction(Case), rules);
    var b, a, c := FilteredRules(rules, Some(Block)), FilteredRules(rules, Some(Alert)), FilteredRules(rules, Some(Case));
    assert multiset(b) + multiset(a) + multiset(c) == multiset(rules) by {
      forall x ensures (multiset(b) + multiset(a) + multiset(c))[x] == multiset(rules)[x] {
        assert HasAction(Block)(x) == (x.actionType == Block);
        assert HasAction(Alert)(x) == (x.actionType == Alert);
        assert HasAction(Case)(x) == (x.actionType == Case);
      }
    }
    assert |multiset(b) + multiset(a) + multiset(c)| == |multiset(rules)|;
  }

  // ---------------------------------------------------------------------------
  // Colours
  // ---------------------------------------------------------------------------

  /** `getFPColor`. */
  function FPColor(rate: real): string
  {
    if rate < 5.0 then "text-green-600"
    else if rate <= 10.0 then "text-yellow-600"
    else "text-red-600"
  }

  /** Each colour is a rate interval: below 5, 5 to 10 inclusive, above 10. */
  lemma FPColorIntervals(rate: real)
    ensures FPColor(rate) == "text-green-600" <==> rate < 5.0
    ensures FPColor(rate) == "text-yellow-600" <==> 5.0 <= rate <= 10.0
    ensures FPColor(rate) == "text-red-600" <==> 10.0 < rate
  {
  }

  /** The icon colours of the average-false-positive KPI card, written out
      separately on the card: background and text. */
  function KpiIconColors(avgRate: real): (string, string)
  {
    (if avgRate < 5.0 then "bg-green-100" else if avgRate <= 10.0 then "bg-yellow-100" else "bg-red-100",
     if avgRate < 5.0 then "text-green-600" else if avgRate <= 10.0 then "text-yellow-600" else "text-red-600")
  }

  /** The KPI card uses the table's bands: its text colour is the table's
      colour for the same rate, and its background the matching shade. */
  lemma KpiAgreesWithTable(avgRate: real)
    ensures KpiIconColors(avgRate).1 == FPColor(avgRate)
    ensures KpiIconColors(avgRate).0 == if FPColor(avgRate) == "text-green-600" then "bg-green-100"
      else if FPColor(avgRate) == "text-yellow-600" then "bg-yellow-100" else "bg-red-100"
  {
    FPColorIntervals(avgRate);
  }

  /** `getRowColor`. */
  function RowColor(status: RuleHealth): string
  {
    match status
    case Critical => "bg-red-50 hover:bg-red-100"
    case Noisy => "bg-yellow-50 hover:bg-yellow-100"
    case Healthy => "hover:bg-gray-50"
  }

  /** Critical and noisy rows each get a background of their own; healthy
      rows only the default hover. */
  lemma RowColorsDistinct(s: RuleHealth, t: RuleHealth)
    ensures RowColor(s) == RowColor(t) ==> s == t
    ensures RowColor(s) == "hover:bg-gray-50" <==> s == Healthy
  {
  }
}
