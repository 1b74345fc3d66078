/** The deployment-history page: deployment records grouped by rule into
    timelines, each record offering the pipeline action its status and
    stage allow. */
module DeploymentHistory {
  import opened Common

  /** The pipeline stages, in pipeline order. */
  datatype Stage = Sandbox | Staging | Production

  datatype DeployStatus = Pending | Approved | Deployed | RolledBack

  datatype DeploymentRecord = DeploymentRecord(
    id: string,
    ruleId: string,
    ruleName: string,
    version: string,
    stage: Stage,
    status: DeployStatus,
    approvedBy: Option<string>,
    deployedAt: Option<string>,
    notes: Option<string>)

  // ---------------------------------------------------------------------------
  // Grouping by rule
  // ---------------------------------------------------------------------------

  function RuleIds(ds: seq<DeploymentRecord>): (r: seq<string>)
    ensures |r| == |ds| && forall i :: 0 <= i < |ds| ==> r[i] == ds[i].ruleId
  {
    seq(|ds|, i requires 0 <= i < |ds| => ds[i].ruleId)
  }

  function HasRule(ruleId: string): DeploymentRecord -> bool
  {
    (d: DeploymentRecord) => d.ruleId == ruleId
  }

  /** The timeline of one rule: its records, in list order. */
  function Group(ds: seq<DeploymentRecord>, ruleId: string): seq<DeploymentRecord>
  {
    Filter(HasRule(ruleId), ds)
  }

  /** The rules in the order their timelines appear: the order in which each
      rule id is first met. */
  function RuleOrder(ds: seq<DeploymentRecord>): seq<string>
  {
    Distinct(RuleIds(ds))
  }

  /** The `reduce` over the records: a dictionary from rule id to the
      records pushed onto it, with its keys in insertion order (the order
      `Object.entries` lists them in). */
  method GroupByRule(ds: seq<DeploymentRecord>) returns (keys: seq<string>, groups: map<string, seq<DeploymentRecord>>)
    ensures keys == RuleOrder(ds)
    ensures forall k :: k in groups <==> k in keys
    ensures forall k :: k in groups ==> groups[k] == Group(ds, k)
  {
    keys := [];
    groups := map[];
    var i := 0;
    while i < |ds|
      invariant 0 <= i <= |ds|
      invariant keys == RuleOrder(ds[..i])
      invariant forall k :: k in groups <==> k in keys
      invariant forall k :: k in groups ==> groups[k] == Group(ds[..i], k)
    {
      var d := ds[i];
      assert ds[..i + 1] == ds[..i] + [d];
      assert RuleIds(ds[..i + 1])[..i] == RuleIds(ds[..i]);
      forall k ensures Group(ds[..i + 1], k) == Group(ds[..i], k) + (if d.ruleId == k then [d] else []) {
        FilterAppend(HasRule(k), ds[..i], [d]);
      }
      if d.ruleId !in groups {
        NoRecordsNoGroup(ds[..i], d.ruleId);
        keys := keys + [d.ruleId];
        groups := groups[d.ruleId := []];
      }
      groups := groups[d.ruleId := groups[d.ruleId] + [d]];
      i := i + 1;
    }
    assert ds[..i] == ds;
  }

  /** A rule id that no record carries has an empty timeline. */
  lemma NoRecordsNoGroup(ds: seq<DeploymentRecord>, ruleId: string)
    requires ruleId !in RuleIds(ds)
    ensures Group(ds, ruleId) == []
  {
    forall d | d in ds ensures d.ruleId != ruleId {
      var i :| 0 <= i < |ds| && ds[i] == d;
      assert RuleIds(ds)[i] == d.ruleId;
    }
    FilterKeepsNone(HasRule(ruleId), ds);
  }

  /** Every record sits in the timeline of its own rule and in no other. */
  lemma EachRecordInOneGroup(ds: seq<DeploymentRecord>, d: DeploymentRecord, k: string)
    requires d in ds
    ensures d.ruleId in RuleOrder(ds)
    ensures d in Group(ds, k) <==> k == d.ruleId
  {
    var i :| 0 <= i < |ds| && ds[i] == d;
    assert RuleIds(ds)[i] == d.ruleId;
  }

  /** Every listed rule has a non-empty timeline whose records carry that
      rule id, so the header's `deployments[0]` always exists. */
  lemma GroupsNonEmpty(ds: seq<DeploymentRecord>, k: string)
    requires k in RuleOrder(ds)
    ensures Group(ds, k) != []
    ensures forall d :: d in Group(ds, k) ==> d.ruleId == k
  {
    var i :| 0 <= i < |RuleIds(ds)| && RuleIds(ds)[i] == k;
    assert ds[i] in Group(ds, k);
  }

  /** A timeline lists its records in the order of the record list. */
  lemma GroupKeepsOrder(ds: seq<DeploymentRecord>, k: string)
    ensures IsSubsequence(Group(ds, k), ds)
  {
    FilterIsSubsequence(HasRule(k), ds);
  }

  /** The total size of the timelines of the rules `ks`. */
  function SizeSum(ds: seq<DeploymentRecord>, ks: seq<string>): nat
  {
    if ks == [] then 0 else SizeSum(ds, ks[..|ks| - 1]) + |Group(ds, ks[|ks| - 1])|
  }

  /** One more record adds one to the timeline sizes of a list of distinct
      rules that holds its rule, and nothing otherwise. */
  lemma {:induction false} SizeSumAppend(ds: seq<DeploymentRecord>, d: DeploymentRecord, ks: seq<string>)
    requires NoDuplicates(ks)
    ensures SizeSum(ds + [d], ks) == SizeSum(ds, ks) + (if d.ruleId in ks then 1 else 0)
  {
    if ks != [] {
      var init, last := ks[..|ks| - 1], ks[|ks| - 1];
      assert ks == init + [last];
      assert NoDuplicates(init);
      SizeSumAppend(ds, d, init);
      FilterAppend(HasRule(last), ds, [d]);
      assert d.ruleId in ks <==> d.ruleId in init || d.ruleId == last;
      assert last !in init;
    }
  }

  /** The timelines together hold exactly as many records as the list: with
      every record in exactly one timeline, none is lost or repeated. */
  lemma {:induction false} GroupSizesSum(ds: seq<DeploymentRecord>)
    ensures SizeSum(ds, RuleOrder(ds)) == |ds|
    decreases |ds|
  {
    if ds != [] {
      var p, d := ds[..|ds| - 1], ds[|ds| - 1];
      assert ds == p + [d];
      assert RuleIds(ds)[..|ds| - 1] == RuleIds(p);
      GroupSizesSum(p);
      var ks := RuleOrder(p);
      SizeSumAppend(p, d, ks);
      if d.ruleId !in ks {
        NoRecordsNoGroup(p, d.ruleId);
        FilterAppend(HasRule(d.ruleId), p, [d]);
        assert (ks + [d.ruleId])[..|ks|] == ks;
      }
    }
  }

  // ---------------------------------------------------------------------------
  // Actions
  // ---------------------------------------------------------------------------

  datatype PipelineAction = ApproveAndPromote | Reject | DeployTo(target: Stage) | Rollback

  /** "Deploy to Staging" from the sandbox, "Deploy to Production" otherwise. */
  function DeployTarget(s: Stage): Stage
  {
    if s == Sandbox then Staging else Production
  }

  function StageRank(s: Stage): nat
  {
    match s
    case Sandbox => 0
    case Staging => 1
    case Production => 2
  }

  /** The deploy button moves a record to the next stage of the pipeline,
      or keeps it at production, the last one. */
  lemma DeployTargetIsNextStage(s: Stage)
    ensures DeployTarget(s) == Staging <==> s == Sandbox
    ensures StageRank(DeployTarget(s)) == Min(StageRank(s) + 1, StageRank(Production))
  {
  }

  /** The buttons under a record, from its three independent conditions. */
  function Actions(r: DeploymentRecord): seq<PipelineAction>
  {
    (if r.status == Pending then [ApproveAndPromote, Reject] else [])
    + (if r.status == Approved then [DeployTo(DeployTarget(r.stage))] else [])
    + (if r.status == Deployed && r.stage == Production then [Rollback] else [])
  }

  /** Exactly one button group per status and stage: approve/reject for a
      pending record, one deploy button for an approved one, rollback for a
      production deployment, and nothing in every other case. */
  lemma ActionsByStatusAndStage(r: DeploymentRecord)
    ensures Actions(r) == [ApproveAndPromote, Reject] <==> r.status == Pending
    ensures Actions(r) == [DeployTo(DeployTarget(r.stage))] <==> r.status == Approved
    ensures Actions(r) == [Rollback] <==> r.status == Deployed && r.stage == Production
    ensures Actions(r) == [] <==> r.status == RolledBack || (r.status == Deployed && r.stage != Production)
  {
    match r.status
    case Pending =>
      assert Actions(r) == [ApproveAndPromote, Reject];
    case Approved =>
      assert Actions(r) == [DeployTo(DeployTarget(r.stage))];
    case Deployed =>
      if r.stage == Production {
        assert Actions(r) == [Rollback];
      } else {
        assert Actions(r) == [];
      }
    case RolledBack =>
      assert Actions(r) == [];
  }

  /** The word after a timeline's record count. */
  function CountWord(n: nat): string
  {
    if n != 1 then "deployments" else "deployment"
  }

  /** The singular is used exactly for a one-record timeline. */
  lemma CountWordSingular(n: nat)
    ensures CountWord(n) == "deployment" <==> n == 1
  {
  }
}
