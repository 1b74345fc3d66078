/** The rule-simulation sandbox page: a run produces the mock per-rule
    results of the sandbox environment and, without the sandbox-only rule,
    of production; each result list resolves to one final decision. */
module RuleSimulation {
  import opened Common

  datatype SimAction = Block | Alert | Case | Pass

  datatype SimulationResult = SimulationResult(
    ruleId: string,
    ruleName: string,
    triggered: bool,
    action: SimAction,
    score: int,
    reason: string)

  datatype FinalDecision = TransactionBlocked | AlertGenerated | TransactionApproved

  // ---------------------------------------------------------------------------
  // Final decision
  // ---------------------------------------------------------------------------

  predicate IsBlock(r: SimulationResult)
  {
    r.action == Block
  }

  predicate IsAlertOrCase(r: SimulationResult)
  {
    r.action == Alert || r.action == Case
  }

  /** `results.some(r => r.action === "BLOCK")`. */
  function SomeBlock(rs: seq<SimulationResult>): (b: bool)
    ensures b <==> exists i :: 0 <= i < |rs| && rs[i].action == Block
  {
    if rs == [] then false
    else
      assert forall i :: 0 < i < |rs| ==> rs[i] == rs[1..][i - 1];
      IsBlock(rs[0]) || SomeBlock(rs[1..])
  }

  /** `results.some(r => r.action === "ALERT" || r.action === "CASE")`. */
  function SomeAlertOrCase(rs: seq<SimulationResult>): (b: bool)
    ensures b <==> exists i :: 0 <= i < |rs| && (rs[i].action == Alert || rs[i].action == Case)
  {
    if rs == [] then false
    else
      assert forall i :: 0 < i < |rs| ==> rs[i] == rs[1..][i - 1];
      IsAlertOrCase(rs[0]) || SomeAlertOrCase(rs[1..])
  }

  /** A block anywhere wins; otherwise any alert or case raises an alert;
      otherwise the transaction is approved. Results marked PASS never count. */
  function Decide(rs: seq<SimulationResult>): (d: FinalDecision)
    ensures d == TransactionBlocked <==> exists r :: r in rs && r.action == Block
    ensures d == AlertGenerated <==>
      (forall r :: r in rs ==> r.action != Block) && (exists r :: r in rs && (r.action == Alert || r.action == Case))
    ensures d == TransactionApproved <==> forall r :: r in rs ==> r.action == Pass
  {
    if SomeBlock(rs) then TransactionBlocked
    else if SomeAlertOrCase(rs) then AlertGenerated
    else
      assert forall r :: r in rs ==> r.action == Pass by {
        forall r | r in rs ensures r.action == Pass {
          var i :| 0 <= i < |rs| && rs[i] == r;
        }
      }
      TransactionApproved
  }

  /** An empty result list is approved. */
  lemma DecideEmpty()
    ensures Decide([]) == TransactionApproved
  {
  }

  /** The order of the results never matters. */
  lemma DecideIgnoresOrder(a: seq<SimulationResult>, b: seq<SimulationResult>)
    requires multiset(a) == multiset(b)
    ensures Decide(a) == Decide(b)
  {
    assert forall r :: r in a <==> r in b by {
      forall r ensures r in a <==> r in b {
        assert r in a <==> r in multiset(a);
        assert r in b <==> r in multiset(b);
      }
    }
  }

  function Severity(d: FinalDecision): nat
  {
    match d
    case TransactionApproved => 0
    case AlertGenerated => 1
    case TransactionBlocked => 2
  }

  /** Dropping results can only soften the decision. */
  lemma DecideMonotone(small: seq<SimulationResult>, large: seq<SimulationResult>)
    requires forall r :: r in small ==> r in large
    ensures Severity(Decide(small)) <= Severity(Decide(large))
  {
    if Decide(small) == TransactionBlocked {
      var r :| r in small && r.action == Block;
      assert r in large;
    } else if Decide(small) == AlertGenerated {
      var r :| r in small && (r.action == Alert || r.action == Case);
      assert r in large;
    }
  }

  // ---------------------------------------------------------------------------
  // Mock results
  // ---------------------------------------------------------------------------

  const SandboxOnlyRule := "RULE-010"

  /** The four mock results of rules that also run in production. */
  const MockSharedResults: seq<SimulationResult> := [
    SimulationResult("RULE-001", "High Risk Country", true, Block, 95, "Transaction from high-risk country (NG)"),
    SimulationResult("RULE-002", "Unusual Amount", true, Alert, 78, "Amount exceeds 200% of 30-day average"),
    SimulationResult("RULE-008", "VPN Detection", true, Block, 88, "VPN detected with low IP reputation"),
    SimulationResult("RULE-003", "Velocity Check", false, Pass, 0, "Transaction velocity within normal range")
  ]

  const MockSandboxOnlyResult :=
    SimulationResult("RULE-010", "First International (Sandbox)", true, Case, 65, "First international transaction detected")

  /** The five results a run reports for the sandbox. */
  const MockSandboxResults: seq<SimulationResult> := MockSharedResults + [MockSandboxOnlyResult]

  function InProduction(r: SimulationResult): bool
  {
    r.ruleId != SandboxOnlyRule
  }

  /** Production runs every rule but the sandbox-only one, in the same order. */
  function ProductionResults(sandbox: seq<SimulationResult>): (p: seq<SimulationResult>)
    ensures forall r :: r in p <==> r in sandbox && r.ruleId != SandboxOnlyRule
  {
    Filter(InProduction, sandbox)
  }

  /** Every result production keeps appears there as often as in the sandbox
      list. */
  lemma ProductionResultsCounts(sandbox: seq<SimulationResult>)
    ensures forall r ::
      multiset(ProductionResults(sandbox))[r] == if r.ruleId != SandboxOnlyRule then multiset(sandbox)[r] else 0
  {
    FilterMultiset(InProduction, sandbox);
  }

  lemma ProductionInSandboxOrder(sandbox: seq<SimulationResult>)
    ensures IsSubsequence(ProductionResults(sandbox), sandbox)
  {
    FilterIsSubsequence(InProduction, sandbox);
  }

  /** Production's decision is never stricter than the sandbox's. */
  lemma ProductionNoStricter(sandbox: seq<SimulationResult>)
    ensures Severity(Decide(ProductionResults(sandbox))) <= Severity(Decide(sandbox))
  {
    DecideMonotone(ProductionResults(sandbox), sandbox);
  }

  /** The mock production list is the four shared results. */
  lemma MockProduction()
    ensures ProductionResults(MockSandboxResults) == MockSharedResults
  {
    var s := MockSharedResults;
    assert !InProduction(MockSandboxOnlyResult);
    FilterAppend(InProduction, s, [MockSandboxOnlyResult]);
    assert forall i :: 0 <= i < |s| ==> InProduction(s[i]);
    FilterKeepsAll(InProduction, s);
    assert Filter(InProduction, [MockSandboxOnlyResult]) == [];
  }

  /** For the mock run both environments block the transaction. */
  lemma MockDecisions()
    ensures Decide(MockSandboxResults) == TransactionBlocked
    ensures Decide(ProductionResults(MockSandboxResults)) == TransactionBlocked
  {
    MockProduction();
    var s := MockSharedResults;
    assert s[0] in s && s[0].action == Block;
    assert s[0] in MockSandboxResults;
  }

  // ---------------------------------------------------------------------------
  // Score bar
  // ---------------------------------------------------------------------------

  datatype ScoreBand = Red | Yellow | Blue | Green

  function ScoreBarBand(score: int): ScoreBand
  {
    if score >= 80 then Red else if score >= 50 then Yellow else if score > 0 then Blue else Green
  }

  /** Each band is a score interval. */
  lemma ScoreBarBandIntervals(score: int)
    ensures ScoreBarBand(score) == Red <==> 80 <= score
    ensures ScoreBarBand(score) == Yellow <==> 50 <= score < 80
    ensures ScoreBarBand(score) == Blue <==> 0 < score < 50
    ensures ScoreBarBand(score) == Green <==> score <= 0
  {
  }

  // ---------------------------------------------------------------------------
  // Page state
  // ---------------------------------------------------------------------------

  class SimulationPage {
    var isRunning: bool
    var hasRun: bool
    var compareSandboxProd: bool
    var sandboxResults: seq<SimulationResult>
    var productionResults: seq<SimulationResult>

    /** Production is always derived from the sandbox list, which is the
        mock list after a run and empty before one. */
    predicate Valid()
      reads this`hasRun, this`sandboxResults, this`productionResults
    {
      && productionResults == ProductionResults(sandboxResults)
      && (hasRun ==> sandboxResults == MockSandboxResults)
      && (!hasRun ==> sandboxResults == [])
    }

    constructor ()
      ensures Valid()
      ensures !isRunning && !hasRun && !compareSandboxProd
      ensures sandboxResults == [] && productionResults == []
    {
      isRunning := false;
      hasRun := false;
      compareSandboxProd := false;
      sandboxResults := [];
      productionResults := [];
    }

    /** The Run button is disabled while a run is in progress. */
    predicate RunDisabled()
      reads this
    {
      isRunning
    }

    /** A click on Run: the page shows the run in progress. */
    method StartRun()
      requires !RunDisabled()
      modifies this`isRunning
      ensures isRunning && RunDisabled()
    {
      isRunning := true;
    }

    /** The "Compare Sandbox vs Production" checkbox, shown once a run has
        finished; it only chooses which lists are displayed. */
    method SetCompareSandboxProd(checked: bool)
      requires Valid() && hasRun
      modifies this`compareSandboxProd
      ensures Valid() && compareSandboxProd == checked
    {
      compareSandboxProd := checked;
    }

    /** The end of a run: both lists filled, the run over and recorded. */
    method CompleteRun()
      requires Valid()
      modifies this`isRunning, this`hasRun, this`sandboxResults, this`productionResults
      ensures Valid()
      ensures !isRunning && hasRun
      ensures sandboxResults == MockSandboxResults
      ensures productionResults == ProductionResults(MockSandboxResults)
    {
      MockProduction();
      isRunning := false;
      hasRun := true;
      sandboxResults := MockSandboxResults;
      productionResults := MockSharedResults;
    }

    /** `resetSimulation`: back to the empty, not-yet-run page. */
    method Reset()
      requires Valid()
      modifies this`hasRun, this`sandboxResults, this`productionResults
      ensures Valid()
      ensures !hasRun && sandboxResults == [] && productionResults == []
    {
      hasRun := false;
      sandboxResults := [];
      productionResults := [];
    }

    /** The list whose final decision the right panel shows first. */
    function ShownResults(): (rs: seq<SimulationResult>)
      reads this
      requires Valid()
      ensures hasRun ==> rs == MockSandboxResults
      ensures !hasRun ==> rs == []
    {
      sandboxResults
    }
  }
}
