/** The visual rule builder page: its editor state (name, status, condition
    list, logic operator, action, severity), the handlers that replace that
    state, the natural-language preview of the rule, the rule that decides
    which conditions get a time-window row, and the mock simulation of the
    simulation modal. */
module VisualRuleBuilder {
  import opened Common
  import opened RuleConditions

  datatype LogicOperator = And | Or | FollowedBy
  datatype ActionType = Alert | Case | Block
  datatype Severity = Low | Medium | High
  datatype RuleStatus = Draft | Sandbox | Active

  function OperatorName(op: LogicOperator): string
  {
    match op
    case And => "AND"
    case Or => "OR"
    case FollowedBy => "FOLLOWED_BY"
  }

  /** `actionType.toLowerCase()`. */
  function ActionWord(a: ActionType): string
  {
    match a
    case Alert => "alert"
    case Case => "case"
    case Block => "block"
  }

  /** `severity.toLowerCase()`. */
  function SeverityWord(s: Severity): string
  {
    match s
    case Low => "low"
    case Medium => "medium"
    case High => "high"
  }

  // ---------------------------------------------------------------------------
  // Time-window row
  // ---------------------------------------------------------------------------

  /** The velocity fields: counts and sums over a time window. */
  const VelocityFields: seq<string> :=
    ["transaction_count", "declined_count", "amount_sum", "device_txn_count", "ip_txn_count"]

  /** A condition block shows the time-window presets exactly for velocity fields. */
  predicate NeedsTimeWindow(field: string)
  {
    field in VelocityFields
  }

  lemma NeedsTimeWindowFields(field: string)
    ensures NeedsTimeWindow(field) <==>
      field == "transaction_count" || field == "declined_count" || field == "amount_sum"
      || field == "device_txn_count" || field == "ip_txn_count"
  {
  }

  /** The condition the page starts with needs a window; the default new one does not. */
  lemma TimeWindowRowOfDefaults(id: string)
    ensures NeedsTimeWindow(InitialCondition.field)
    ensures !NeedsTimeWindow(DefaultCondition(id).field)
  {
    assert DefaultCondition(id).field != VelocityFields[0];
  }

  /** Whether a condition's row is shown depends on its field alone: an
      update that sets the field to `f` decides it by `f`, and any other
      update leaves it as it was. */
  lemma TimeWindowRowAfterUpdate(cs: seq<Condition>, id: string, u: ConditionUpdate, i: nat)
    requires i < |cs|
    ensures var r := UpdateCondition(cs, id, u);
      NeedsTimeWindow(r[i].field) ==
        if cs[i].id == id && u.field.Some? then NeedsTimeWindow(u.field.value)
        else NeedsTimeWindow(cs[i].field)
  {
  }

  // ---------------------------------------------------------------------------
  // Natural-language preview
  // ---------------------------------------------------------------------------

  /** `c.timeWindow ? " within " + w : ""`: an empty string is falsy too. */
  function WithinText(timeWindow: Option<string>): string
  {
    if timeWindow.Some? && timeWindow.value != "" then " within " + timeWindow.value else ""
  }

  /** One condition in the preview: the field with `_` shown as spaces. */
  function ConditionText(c: Condition): string
  {
    ReplaceAll(c.field, '_', ' ') + " " + c.operator + " " + c.value + WithinText(c.timeWindow)
  }

  function ConditionTexts(cs: seq<Condition>): (r: seq<string>)
    ensures |r| == |cs|
    ensures forall i :: 0 <= i < |cs| ==> r[i] == ConditionText(cs[i])
  {
    if cs == [] then [] else [ConditionText(cs[0])] + ConditionTexts(cs[1..])
  }

  const NoConditionsText := "No conditions defined yet."

  /** `generateNaturalLanguage`: the separator is " OP " only for two or more
      conditions, which renders the same as always using it. */
  function NaturalLanguage(cs: seq<Condition>, op: LogicOperator, action: ActionType, severity: Severity): (r: string)
    ensures cs == [] ==> r == NoConditionsText
    ensures cs != [] ==>
      r == "When " + Join(ConditionTexts(cs), " " + OperatorName(op) + " ") + ", then "
           + ActionWord(action) + " the transaction with " + SeverityWord(severity) + " severity."
  {
    if |cs| == 0 then NoConditionsText
    else
      var logic := if |cs| > 1 then " " + OperatorName(op) + " " else "";
      var clause := Join(ConditionTexts(cs), logic);
      assert clause == Join(ConditionTexts(cs), " " + OperatorName(op) + " ") by {
        if |cs| == 1 {
          JoinSeparatorIrrelevant(ConditionTexts(cs), logic, " " + OperatorName(op) + " ");
        }
      }
      "When " + clause + ", then " + ActionWord(action)
        + " the transaction with " + SeverityWord(severity) + " severity."
  }

  /** The placeholder sentence appears exactly when there are no conditions. */
  lemma NaturalLanguageEmptyIff(cs: seq<Condition>, op: LogicOperator, action: ActionType, severity: Severity)
    ensures NaturalLanguage(cs, op, action, severity) == NoConditionsText <==> cs == []
  {
    if cs != [] {
      var r := NaturalLanguage(cs, op, action, severity);
      assert r[0] == 'W';
      assert NoConditionsText[0] == 'N';
    }
  }

  /** In a condition's text, the field shows with no underscore left, and the
      " within w" suffix is there exactly when a non-empty window is set. */
  lemma ConditionTextParts(c: Condition)
    ensures var shown := ConditionText(c)[..|c.field|];
      && |shown| == |c.field|
      && (forall k :: 0 <= k < |shown| ==> shown[k] != '_')
      && (forall k :: 0 <= k < |shown| && c.field[k] != '_' ==> shown[k] == c.field[k])
    ensures c.timeWindow.Some? && c.timeWindow.value != "" ==>
      ConditionText(c)[|ConditionText(c)| - |c.timeWindow.value| - 8..] == " within " + c.timeWindow.value
    ensures !(c.timeWindow.Some? && c.timeWindow.value != "") ==>
      ConditionText(c) == ReplaceAll(c.field, '_', ' ') + " " + c.operator + " " + c.value
  {
    var shown := ReplaceAll(c.field, '_', ' ');
    assert ConditionText(c)[..|c.field|] == shown;
    if c.timeWindow.Some? && c.timeWindow.value != "" {
      var head := shown + " " + c.operator + " " + c.value;
      assert ConditionText(c) == head + (" within " + c.timeWindow.value);
    }
  }

  // ---------------------------------------------------------------------------
  // Mock simulation in the simulation modal
  // ---------------------------------------------------------------------------

  datatype TestData = TestData(
    amount: string,
    country: string,
    channel: string,
    mcc: string,
    transactionCount: string,
    declinedCount: string)

  const DefaultTestData := TestData("2500", "RU", "ECOM", "5812", "8", "3")

  datatype SimulationOutcome = SimulationOutcome(
    triggered: bool,
    matchedConditions: seq<string>,
    action: string,
    decision: string,
    explanation: string)

  /** `parseInt(transactionCount) > 5`; a `NaN` count compares false. */
  predicate Triggers(t: TestData)
  {
    var n := ParseInt(t.transactionCount);
    n.Some? && n.value > 5
  }

  function RunSimulation(t: TestData): (r: SimulationOutcome)
    ensures r.triggered <==> Triggers(t)
    ensures r.triggered ==> r.action == "BLOCK" && r.decision == "DECLINE" && |r.matchedConditions| == 2
    ensures !r.triggered ==> r.action == "ALLOW" && r.decision == "APPROVE" && r.matchedConditions == []
  {
    var triggered := Triggers(t);
    SimulationOutcome(
      triggered,
      if triggered then ["transaction_count > 5", "country_code == RU"] else [],
      if triggered then "BLOCK" else "ALLOW",
      if triggered then "DECLINE" else "APPROVE",
      if triggered then "Transaction blocked due to high velocity from high-risk country"
      else "Transaction approved - no rule violations detected")
  }

  /** Only the transaction count is read: the other test fields never matter. */
  lemma SimulationReadsOnlyCount(t1: TestData, t2: TestData)
    requires t1.transactionCount == t2.transactionCount
    ensures RunSimulation(t1) == RunSimulation(t2)
  {
  }

  /** The modal's prefilled test data (count "8") is blocked. */
  lemma DefaultTestDataTriggers()
    ensures RunSimulation(DefaultTestData).action == "BLOCK"
  {
    var s := DefaultTestData.transactionCount;
    ParseIntOfDigits(s);
    assert s[..0] == [];
  }

  /** The simulation modal's own state: the test inputs and the last result. */
  class SimulationModal {
    var testData: TestData
    var result: Option<SimulationOutcome>

    constructor ()
      ensures testData == DefaultTestData && result == None
    {
      testData := DefaultTestData;
      result := None;
    }

    /** An edit of one of the test inputs: the new record replaces the old,
        and the last result stays on screen until the next run. */
    method SetTestData(t: TestData)
      modifies this`testData
      ensures testData == t
    {
      testData := t;
    }

    method Run()
      modifies this`result
      ensures result == Some(RunSimulation(testData))
      ensures result.value.triggered <==> Triggers(testData)
    {
      result := Some(RunSimulation(testData));
    }
  }

  // ---------------------------------------------------------------------------
  // Editor state
  // ---------------------------------------------------------------------------

  const InitialCondition := Condition("1", "transaction_count", ">", "5", Some("1h"))

  class RuleEditor {
    var ruleName: string
    var status: RuleStatus
    var conditions: seq<Condition>
    var logicOperator: LogicOperator
    var actionType: ActionType
    var severity: Severity

    /** Condition ids stay distinct: new ones come from the clock. */
    predicate Valid()
      reads this
    {
      UniqueIds(conditions)
    }

    /** A new editor, or one opened on an existing rule's name. */
    constructor (existingName: Option<string>)
      ensures Valid()
      ensures ruleName == (if existingName.Some? && existingName.value != "" then existingName.value
                           else "High Velocity Transaction Check")
      ensures status == Draft && conditions == [InitialCondition]
      ensures logicOperator == And && actionType == Block && severity == High
    {
      ruleName := if existingName.Some? && existingName.value != "" then existingName.value
                  else "High Velocity Transaction Check";
      status := Draft;
      conditions := [InitialCondition];
      logicOperator := And;
      actionType := Block;
      severity := High;
    }

    method AddCondition(freshId: string)
      requires Valid() && !HasId(conditions, freshId)
      modifies this`conditions
      ensures Valid()
      ensures conditions == RuleConditions.AddCondition(old(conditions), freshId)
    {
      AddKeepsUniqueIds(conditions, freshId);
      conditions := RuleConditions.AddCondition(conditions, freshId);
    }

    method RemoveCondition(id: string)
      requires Valid()
      modifies this`conditions
      ensures Valid()
      ensures conditions == RuleConditions.RemoveCondition(old(conditions), id)
    {
      RemoveKeepsUniqueIds(conditions, id);
      conditions := RuleConditions.RemoveCondition(conditions, id);
    }

    method UpdateCondition(id: string, u: ConditionUpdate)
      requires Valid()
      modifies this`conditions
      ensures Valid()
      ensures conditions == RuleConditions.UpdateCondition(old(conditions), id, u)
    {
      UpdateKeepsUniqueIds(conditions, id, u);
      conditions := RuleConditions.UpdateCondition(conditions, id, u);
    }

    method DuplicateCondition(id: string, freshId: string)
      requires Valid() && !HasId(conditions, freshId)
      modifies this`conditions
      ensures Valid()
      ensures conditions == RuleConditions.DuplicateCondition(old(conditions), id, freshId)
    {
      DuplicateKeepsUniqueIds(conditions, id, freshId);
      conditions := RuleConditions.DuplicateCondition(conditions, id, freshId);
    }

    method SetLogicOperator(op: LogicOperator)
      modifies this`logicOperator
      ensures logicOperator == op
    {
      logicOperator := op;
    }

    method SetActionType(a: ActionType)
      modifies this`actionType
      ensures actionType == a
    {
      actionType := a;
    }

    method SetSeverity(s: Severity)
      modifies this`severity
      ensures severity == s
    {
      severity := s;
    }

    /** The only handler that touches `status`. */
    method SaveToSandbox()
      modifies this`status
      ensures status == Sandbox
    {
      status := Sandbox;
    }

    function Preview(): (r: string)
      reads this
      ensures r == NoConditionsText <==> conditions == []
    {
      NaturalLanguageEmptyIff(conditions, logicOperator, actionType, severity);
      NaturalLanguage(conditions, logicOperator, actionType, severity)
    }
  }
}
