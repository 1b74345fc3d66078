/** The form-based rule builder: the same condition list as the visual
    builder, plus the rule scope. Each of the three scope dimensions (card
    network, access channel, transaction type) is an "Apply to All" flag and
    a list of chosen values, rendered in the JSON export, the summary card
    and the human-readable sentence. */
module RuleBuilder {
  import opened Common
  import opened RuleConditions

  datatype LogicalOperator = And | Or | FollowedBy
  datatype ActionType = Block | Alert | Case

  function OperatorName(op: LogicalOperator): string
  {
    match op
    case And => "AND"
    case Or => "OR"
    case FollowedBy => "FOLLOWED_BY"
  }

  function ActionName(a: ActionType): string
  {
    match a
    case Block => "BLOCK"
    case Alert => "ALERT"
    case Case => "CASE"
  }

  // ---------------------------------------------------------------------------
  // Scope dimensions
  // ---------------------------------------------------------------------------

  datatype Dimension = Networks | AccessChannels | TransactionTypes

  /** The buttons each dimension offers. */
  function Options(d: Dimension): seq<string>
  {
    match d
    case Networks => ["VISA", "Mastercard", "AMEX"]
    case AccessChannels => ["POS", "ECOM", "ATM", "MOBILE"]
    case TransactionTypes => ["Purchase", "Withdrawal", "Refund"]
  }

  /** One dimension: the "Apply to All" checkbox and the chosen values, in
      the order they were chosen. */
  datatype Scope = Scope(applyToAll: bool, selected: seq<string>)

  const InitialScope := Scope(true, [])

  /** What the handlers keep true of a dimension: values are offered ones,
      none is chosen twice, and "Apply to All" goes with an empty choice. */
  predicate ScopeValid(s: Scope, options: seq<string>)
  {
    && NoDuplicates(s.selected)
    && (forall i :: 0 <= i < |s.selected| ==> s.selected[i] in options)
    && (s.applyToAll ==> s.selected == [])
  }

  function IsNot(v: string): string -> bool
  {
    w => w != v
  }

  /** `toggleNetwork` / `toggleAccessChannel` / `toggleTransactionType`: a
      chosen value is taken out, any other is appended and clears the flag. */
  function Toggle(s: Scope, v: string): (r: Scope)
    ensures v in r.selected <==> v !in s.selected
    ensures forall w :: w != v ==> (w in r.selected <==> w in s.selected)
    ensures v in s.selected ==> r.applyToAll == s.applyToAll && IsSubsequence(r.selected, s.selected)
    ensures v !in s.selected ==> !r.applyToAll && r.selected == s.selected + [v]
  {
    if v in s.selected then
      FilterIsSubsequence(IsNot(v), s.selected);
      Scope(s.applyToAll, Filter(IsNot(v), s.selected))
    else Scope(false, s.selected + [v])
  }

  /** `handleApplyToAll*`: ticking the box also empties the choice. */
  function ApplyToAll(s: Scope, checked: bool): (r: Scope)
    ensures r.applyToAll == checked
    ensures r.selected == if checked then [] else s.selected
  {
    Scope(checked, if checked then [] else s.selected)
  }

  lemma ToggleKeepsValid(s: Scope, options: seq<string>, v: string)
    requires ScopeValid(s, options) && v in options
    ensures ScopeValid(Toggle(s, v), options)
  {
    if v in s.selected {
      FilterKeepsNoDuplicates(IsNot(v), s.selected);
      var r := Toggle(s, v);
      forall i | 0 <= i < |r.selected| ensures r.selected[i] in options {
        assert r.selected[i] in s.selected;
      }
    } else {
      var r := s.selected + [v];
      forall i | 0 <= i < |r| ensures r[i] in options {
        if i < |s.selected| {
          assert r[i] == s.selected[i];
        }
      }
    }
  }

  lemma ApplyToAllKeepsValid(s: Scope, options: seq<string>, checked: bool)
    requires ScopeValid(s, options)
    ensures ScopeValid(ApplyToAll(s, checked), options)
  {
  }

  /** Choosing a value and then un-choosing it restores the selection. */
  lemma ToggleTwice(s: Scope, v: string)
    requires v !in s.selected
    ensures Toggle(Toggle(s, v), v).selected == s.selected
  {
    var once := s.selected + [v];
    assert Toggle(s, v).selected == once;
    assert v in once;
    FilterAppend(IsNot(v), s.selected, [v]);
    FilterKeepsAll(IsNot(v), s.selected);
    assert !IsNot(v)(v);
    assert Filter(IsNot(v), [v]) == Filter(IsNot(v), []);
  }

  /** A scope as the JSON export writes it: `"ALL"` or the list. */
  datatype ScopeValue = All | Values(values: seq<string>)

  function ScopeJson(s: Scope): (r: ScopeValue)
    ensures r == All <==> s.applyToAll
    ensures r.Values? ==> r.values == s.selected
  {
    if s.applyToAll then All else Values(s.selected)
  }

  /** How a dimension is worded, both in the summary card
      (`formatScopeDisplay`) and in the sentence: a fixed text for "all", a
      fixed text for an empty choice, otherwise the values joined. */
  function ScopeWording(s: Scope, allText: string, noneText: string, sep: string): string
  {
    if s.applyToAll then allText
    else if |s.selected| > 0 then Join(s.selected, sep)
    else noneText
  }

  const AllValuesText := "Applies to all values"
  const NoneSelectedText := "None selected"

  function FormatScopeDisplay(s: Scope): (r: string)
    ensures s.applyToAll ==> r == AllValuesText
    ensures !s.applyToAll && s.selected == [] ==> r == NoneSelectedText
    ensures !s.applyToAll && s.selected != [] ==> r == Join(s.selected, ", ")
  {
    ScopeWording(s, AllValuesText, NoneSelectedText, ", ")
  }

  /** Picking one more value in a dimension that already lists some adds it
      to the end of the card's list. */
  lemma ScopeDisplayToggleAdds(s: Scope, v: string)
    requires !s.applyToAll && s.selected != [] && v !in s.selected
    ensures FormatScopeDisplay(Toggle(s, v)) == FormatScopeDisplay(s) + ", " + v
  {
    JoinAppend(s.selected, v, ", ");
  }

  function AllText(d: Dimension): string
  {
    match d
    case Networks => "all card networks"
    case AccessChannels => "all access channels"
    case TransactionTypes => "all transaction types"
  }

  function NoneText(d: Dimension): string
  {
    match d
    case Networks => "no networks"
    case AccessChannels => "no access channels"
    case TransactionTypes => "no transaction types"
  }

  /** The wording tells the three states apart as long as no offered value
      begins one of the two fixed texts. */
  lemma ScopeWordingFaithful(s: Scope, options: seq<string>, allText: string, noneText: string, sep: string)
    requires ScopeValid(s, options) && allText != noneText
    requires forall i :: 0 <= i < |options| ==> !StartsWith(allText, options[i]) && !StartsWith(noneText, options[i])
    ensures ScopeWording(s, allText, noneText, sep) == allText <==> ScopeJson(s) == All
    ensures ScopeWording(s, allText, noneText, sep) == noneText <==> ScopeJson(s) == Values([])
  {
    if !s.applyToAll && |s.selected| > 0 {
      JoinStartsWithFirst(s.selected, sep);
      var first := s.selected[0];
      assert first in options;
      var w := ScopeWording(s, allText, noneText, sep);
      assert w[..|first|] == first;
    }
  }

  /** None of the offered values starts any of the fixed scope texts. */
  lemma OptionsDistinguishable(d: Dimension, i: nat)
    requires i < |Options(d)|
    ensures !StartsWith(AllValuesText, Options(d)[i]) && !StartsWith(NoneSelectedText, Options(d)[i])
    ensures !StartsWith(AllText(d), Options(d)[i]) && !StartsWith(NoneText(d), Options(d)[i])
  {
    var o := Options(d)[i];
    assert o[0] != 'a' && o[0] != 'n';
    if o[0] == 'A' {
      assert o == "AMEX" || o == "ATM";
      assert o[1] != AllValuesText[1];
    } else {
      assert o[0] != 'N';
    }
  }

  /** The summary card shows "Applies to all values" exactly when the export
      says `"ALL"`, and "None selected" exactly when it exports an empty list. */
  lemma SummaryCardFaithful(s: Scope, d: Dimension)
    requires ScopeValid(s, Options(d))
    ensures FormatScopeDisplay(s) == AllValuesText <==> ScopeJson(s) == All
    ensures FormatScopeDisplay(s) == NoneSelectedText <==> ScopeJson(s) == Values([])
  {
    forall i | 0 <= i < |Options(d)|
      ensures !StartsWith(AllValuesText, Options(d)[i]) && !StartsWith(NoneSelectedText, Options(d)[i])
    {
      OptionsDistinguishable(d, i);
    }
    ScopeWordingFaithful(s, Options(d), AllValuesText, NoneSelectedText, ", ");
  }

  /** The same for the "applies to …" words of the sentence. */
  lemma SentenceScopeFaithful(s: Scope, d: Dimension)
    requires ScopeValid(s, Options(d))
    ensures ScopeWording(s, AllText(d), NoneText(d), " and ") == AllText(d) <==> ScopeJson(s) == All
    ensures ScopeWording(s, AllText(d), NoneText(d), " and ") == NoneText(d) <==> ScopeJson(s) == Values([])
  {
    forall i | 0 <= i < |Options(d)|
      ensures !StartsWith(AllText(d), Options(d)[i]) && !StartsWith(NoneText(d), Options(d)[i])
    {
      OptionsDistinguishable(d, i);
    }
    ScopeWordingFaithful(s, Options(d), AllText(d), NoneText(d), " and ");
  }

  // ---------------------------------------------------------------------------
  // Human-readable sentence
  // ---------------------------------------------------------------------------

  /** A condition as the sentence shows it: the raw field name, and the
      window appended after a space when one is set. */
  function SummaryConditionText(c: Condition): string
  {
    c.field + " " + c.operator + " " + c.value
      + (if c.timeWindow.Some? && c.timeWindow.value != "" then " " + c.timeWindow.value else "")
  }

  function SummaryConditionTexts(cs: seq<Condition>): (r: seq<string>)
    ensures |r| == |cs|
    ensures forall i :: 0 <= i < |cs| ==> r[i] == SummaryConditionText(cs[i])
  {
    if cs == [] then [] else [SummaryConditionText(cs[0])] + SummaryConditionTexts(cs[1..])
  }

  /** The conditions' part of the sentence: their texts with the operator
      between neighbours. */
  function ConditionClause(cs: seq<Condition>, op: LogicalOperator): string
  {
    Join(SummaryConditionTexts(cs), " " + OperatorName(op) + " ")
  }

  /** Adding a condition adds the operator and its text at the end of the
      clause, and leaves what was there unchanged. */
  lemma ConditionClauseAppend(cs: seq<Condition>, c: Condition, op: LogicalOperator)
    requires cs != []
    ensures ConditionClause(cs + [c], op)
         == ConditionClause(cs, op) + " " + OperatorName(op) + " " + SummaryConditionText(c)
  {
    assert SummaryConditionTexts(cs + [c]) == SummaryConditionTexts(cs) + [SummaryConditionText(c)];
    JoinAppend(SummaryConditionTexts(cs), SummaryConditionText(c), " " + OperatorName(op) + " ");
  }

  /** With at most one condition the operator never shows. */
  lemma ConditionClauseOneCondition(cs: seq<Condition>, op1: LogicalOperator, op2: LogicalOperator)
    requires |cs| <= 1
    ensures ConditionClause(cs, op1) == ConditionClause(cs, op2)
    ensures |cs| == 1 ==> ConditionClause(cs, op1) == SummaryConditionText(cs[0])
  {
    JoinSeparatorIrrelevant(SummaryConditionTexts(cs), " " + OperatorName(op1) + " ", " " + OperatorName(op2) + " ");
  }

  function HumanReadableSummary(
    networks: Scope, channels: Scope, types: Scope,
    cs: seq<Condition>, op: LogicalOperator, action: ActionType): string
  {
    "This rule applies to " + ScopeWording(networks, AllText(Networks), NoneText(Networks), " and ")
    + " on " + ScopeWording(channels, AllText(AccessChannels), NoneText(AccessChannels), " and ")
    + " for " + ScopeWording(types, AllText(TransactionTypes), NoneText(TransactionTypes), " and ")
    + ". It triggers when: " + ConditionClause(cs, op)
    + ". Final Action: " + ActionName(action) + "."
  }

  /** The sentence for a rule with one condition reads the same under AND and
      under OR. */
  lemma SummaryOneConditionIgnoresOperator(
    networks: Scope, channels: Scope, types: Scope,
    cs: seq<Condition>, op1: LogicalOperator, op2: LogicalOperator, action: ActionType)
    requires |cs| <= 1
    ensures HumanReadableSummary(networks, channels, types, cs, op1, action)
         == HumanReadableSummary(networks, channels, types, cs, op2, action)
  {
    ConditionClauseOneCondition(cs, op1, op2);
  }

  const InitialCondition := Condition("1", "transaction_count", ">", "5", Some("within 1 minute"))

  /** The sentence a fresh form shows (written in the pieces it is built from). */
  lemma InitialSummary()
    ensures HumanReadableSummary(InitialScope, InitialScope, InitialScope, [InitialCondition], And, Block)
      == "This rule applies to " + "all card networks" + " on " + "all access channels" + " for "
         + "all transaction types" + ". It triggers when: " + "transaction_count > 5 within 1 minute"
         + ". Final Action: " + "BLOCK" + "."
  {
    var c := InitialCondition;
    assert SummaryConditionText(c) == "transaction_count > 5 within 1 minute";
    var texts := SummaryConditionTexts([c]);
    assert texts[0] == SummaryConditionText(c);
    assert Join(texts, " AND ") == "transaction_count > 5 within 1 minute";
  }

  // ---------------------------------------------------------------------------
  // Form state
  // ---------------------------------------------------------------------------

  class RuleBuilderForm {
    var ruleName: string
    var conditions: seq<Condition>
    var logicalOperator: LogicalOperator
    var actionType: ActionType
    var networks: Scope
    var accessChannels: Scope
    var transactionTypes: Scope

    function ScopeOf(d: Dimension): Scope
      reads this
    {
      match d
      case Networks => networks
      case AccessChannels => accessChannels
      case TransactionTypes => transactionTypes
    }

    predicate Valid()
      reads this
    {
      && UniqueIds(conditions)
      && ScopeValid(networks, Options(Networks))
      && ScopeValid(accessChannels, Options(AccessChannels))
      && ScopeValid(transactionTypes, Options(TransactionTypes))
    }

    /** A new form, or one opened on an existing rule's name. */
    constructor (existingName: Option<string>)
      ensures Valid()
      ensures ruleName == if existingName.Some? then existingName.value else ""
      ensures conditions == [InitialCondition]
      ensures logicalOperator == And && actionType == Block
      ensures networks == InitialScope && accessChannels == InitialScope && transactionTypes == InitialScope
    {
      ruleName := if existingName.Some? then existingName.value else "";
      conditions := [InitialCondition];
      logicalOperator := And;
      actionType := Block;
      networks := InitialScope;
      accessChannels := InitialScope;
      transactionTypes := InitialScope;
    }

    method AddCondition(freshId: string)
      requires Valid() && !HasId(conditions, freshId)
      modifies this`conditions
      ensures Valid()
      ensures conditions == RuleConditions.AddCondition(old(conditions), freshId)
    {
      AddKeepsUniqueIds(conditions, freshId);
      conditions := RuleConditions.AddCondition(conditions, freshId);
    }

    method RemoveCondition(id: string)
      requires Valid()
      modifies this`conditions
      ensures Valid()
      ensures conditions == RuleConditions.RemoveCondition(old(conditions), id)
    {
      RemoveKeepsUniqueIds(conditions, id);
      conditions := RuleConditions.RemoveCondition(conditions, id);
    }

    method UpdateCondition(id: string, u: ConditionUpdate)
      requires Valid()
      modifies this`conditions
      ensures Valid()
      ensures conditions == RuleConditions.UpdateCondition(old(conditions), id, u)
    {
      UpdateKeepsUniqueIds(conditions, id, u);
      conditions := RuleConditions.UpdateCondition(conditions, id, u);
    }

    /** Typing in the rule name box. */
    method SetRuleName(name: string)
      requires Valid()
      modifies this`ruleName
      ensures Valid() && ruleName == name
    {
      ruleName := name;
    }

    /** The AND / OR select between conditions. */
    method SetLogicalOperator(op: LogicalOperator)
      requires Valid()
      modifies this`logicalOperator
      ensures Valid() && logicalOperator == op
    {
      logicalOperator := op;
    }

    /** The final action select. */
    method SetActionType(a: ActionType)
      requires Valid()
      modifies this`actionType
      ensures Valid() && actionType == a
    {
      actionType := a;
    }

    /** A click on one of the dimension's value buttons or chips. */
    method ToggleValue(d: Dimension, v: string)
      requires Valid() && v in Options(d)
      modifies this`networks, this`accessChannels, this`transactionTypes
      ensures Valid()
      ensures ScopeOf(d) == Toggle(old(ScopeOf(d)), v)
      ensures forall e :: e != d ==> ScopeOf(e) == old(ScopeOf(e))
    {
      ToggleKeepsValid(ScopeOf(d), Options(d), v);
      match d
      case Networks => networks := Toggle(networks, v);
      case AccessChannels => accessChannels := Toggle(accessChannels, v);
      case TransactionTypes => transactionTypes := Toggle(transactionTypes, v);
    }

    /** The dimension's "Apply to All" checkbox. */
    method SetApplyToAll(d: Dimension, checked: bool)
      requires Valid()
      modifies this`networks, this`accessChannels, this`transactionTypes
      ensures Valid()
      ensures ScopeOf(d) == ApplyToAll(old(ScopeOf(d)), checked)
      ensures forall e :: e != d ==> ScopeOf(e) == old(ScopeOf(e))
    {
      ApplyToAllKeepsValid(ScopeOf(d), Options(d), checked);
      match d
      case Networks => networks := ApplyToAll(networks, checked);
      case AccessChannels => accessChannels := ApplyToAll(accessChannels, checked);
      case TransactionTypes => transactionTypes := ApplyToAll(transactionTypes, checked);
    }

    function Summary(): string
      reads this
    {
      HumanReadableSummary(networks, accessChannels, transactionTypes, conditions, logicalOperator, actionType)
    }
  }
}
