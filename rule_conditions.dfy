/** The condition list that both rule builders edit: a sequence of conditions,
    each with an id, and four handlers that replace the list with a new one
    (append a default condition, drop by id, merge a partial update by id,
    insert a copy after the first condition with an id). New ids come from the
    clock in the pages; here they are parameters. */
module RuleConditions {
  import opened Common

  datatype Condition = Condition(
    id: string,
    field: string,
    operator: string,
    value: string,
    timeWindow: Option<string>)

  /** A `Partial<RuleCondition>` as the condition editors send it: each key
      that is present overrides the condition's own value. */
  datatype ConditionUpdate = ConditionUpdate(
    field: Option<string>,
    operator: Option<string>,
    value: Option<string>,
    timeWindow: Option<string>)

  const NoChange := ConditionUpdate(None, None, None, None)

  predicate HasId(cs: seq<Condition>, id: string)
  {
    exists i :: 0 <= i < |cs| && cs[i].id == id
  }

  /** The condition every "Add condition" click appends. */
  function DefaultCondition(id: string): Condition
  {
    Condition(id, "transaction_amount", ">", "1000", None)
  }

  function AddCondition(cs: seq<Condition>, freshId: string): (r: seq<Condition>)
    ensures |r| == |cs| + 1
    ensures r[..|cs|] == cs
    ensures r[|cs|].field == "transaction_amount" && r[|cs|].operator == ">"
    ensures r[|cs|].value == "1000" && r[|cs|].timeWindow == None && r[|cs|].id == freshId
  {
    cs + [DefaultCondition(freshId)]
  }

  /** The filter callback `c => c.id !== id`. */
  function IdIsNot(id: string): Condition -> bool
  {
    (c: Condition) => c.id != id
  }

  /** `conditions.filter(c => c.id !== id)`. */
  function RemoveCondition(cs: seq<Condition>, id: string): (r: seq<Condition>)
    ensures forall c :: c in r <==> c in cs && c.id != id
    ensures IsSubsequence(r, cs)
    ensures !HasId(cs, id) ==> r == cs
    ensures forall c :: multiset(r)[c] == if c.id != id then multiset(cs)[c] else 0
  {
    FilterIsSubsequence(IdIsNot(id), cs);
    FilterMultiset(IdIsNot(id), cs);
    if !HasId(cs, id) then
      AbsentIdKeepsAll(cs, id);
      Filter(IdIsNot(id), cs)
    else
      Filter(IdIsNot(id), cs)
  }

  /** `{ ...c, ...updates }`. */
  function ApplyUpdate(c: Condition, u: ConditionUpdate): (r: Condition)
    ensures r.id == c.id
    ensures r.field == (if u.field.Some? then u.field.value else c.field)
    ensures r.operator == (if u.operator.Some? then u.operator.value else c.operator)
    ensures r.value == (if u.value.Some? then u.value.value else c.value)
    ensures r.timeWindow == (if u.timeWindow.Some? then u.timeWindow else c.timeWindow)
  {
    Condition(
      c.id,
      if u.field.Some? then u.field.value else c.field,
      if u.operator.Some? then u.operator.value else c.operator,
      if u.value.Some? then u.value.value else c.value,
      if u.timeWindow.Some? then u.timeWindow else c.timeWindow)
  }

  /** `conditions.map(c => c.id === id ? { ...c, ...updates } : c)`. */
  function UpdateCondition(cs: seq<Condition>, id: string, u: ConditionUpdate): (r: seq<Condition>)
    ensures |r| == |cs|
    ensures forall i :: 0 <= i < |cs| ==> r[i] == if cs[i].id == id then ApplyUpdate(cs[i], u) else cs[i]
  {
    if cs == [] then []
    else [if cs[0].id == id then ApplyUpdate(cs[0], u) else cs[0]] + UpdateCondition(cs[1..], id, u)
  }

  /** `conditions.findIndex(c => c.id === id)`, with `None` for -1. */
  function FindIndex(cs: seq<Condition>, id: string): (r: Option<nat>)
    ensures r.None? <==> !HasId(cs, id)
    ensures r.Some? ==> r.value < |cs| && cs[r.value].id == id
    ensures r.Some? ==> forall j :: 0 <= j < r.value ==> cs[j].id != id
  {
    if cs == [] then None
    else if cs[0].id == id then Some(0)
    else
      var rest := FindIndex(cs[1..], id);
      assert HasId(cs, id) <==> HasId(cs[1..], id) by {
        if HasId(cs, id) {
          var i :| 0 <= i < |cs| && cs[i].id == id;
          assert cs[1..][i - 1].id == id;
        }
        if HasId(cs[1..], id) {
          var i :| 0 <= i < |cs[1..]| && cs[1..][i].id == id;
          assert cs[i + 1].id == id;
        }
      }
      if rest.None? then None else Some(rest.value + 1)
  }

  /** Inserts a copy of the first condition with `id`, under `freshId`,
      directly after it; no condition with `id` means no change. */
  function DuplicateCondition(cs: seq<Condition>, id: string, freshId: string): (r: seq<Condition>)
    ensures !HasId(cs, id) ==> r == cs
    ensures HasId(cs, id) ==>
      var i := FindIndex(cs, id).value;
      && |r| == |cs| + 1
      && r[..i + 1] == cs[..i + 1]
      && r[i + 1] == cs[i].(id := freshId)
      && r[i + 2..] == cs[i + 1..]
  {
    match FindIndex(cs, id)
    case None => cs
    case Some(i) =>
      var r := cs[..i + 1] + [cs[i].(id := freshId)] + cs[i + 1..];
      assert r[i + 2..] == cs[i + 1..];
      r
  }

  // ---------------------------------------------------------------------------
  // Properties relating the handlers
  // ---------------------------------------------------------------------------

  /** Removing the condition just added (under an unused id) restores the list. */
  lemma RemoveAfterAdd(cs: seq<Condition>, freshId: string)
    requires !HasId(cs, freshId)
    ensures RemoveCondition(AddCondition(cs, freshId), freshId) == cs
  {
    var p := IdIsNot(freshId);
    FilterAppend(p, cs, [DefaultCondition(freshId)]);
    AbsentIdKeepsAll(cs, freshId);
    assert Filter(p, [DefaultCondition(freshId)]) == [];
  }

  /** Without a condition carrying `id`, the callback keeps everything. */
  lemma AbsentIdKeepsAll(cs: seq<Condition>, id: string)
    requires !HasId(cs, id)
    ensures Filter(IdIsNot(id), cs) == cs
  {
    forall c | c in cs ensures IdIsNot(id)(c) {
      var i :| 0 <= i < |cs| && cs[i] == c;
    }
    FilterKeepsAll(IdIsNot(id), cs);
  }

  /** Filtering out the only condition with `freshId` from `a + [x] + b`. */
  lemma RemoveInserted(a: seq<Condition>, x: Condition, b: seq<Condition>, freshId: string)
    requires !HasId(a, freshId) && !HasId(b, freshId) && x.id == freshId
    ensures Filter(IdIsNot(freshId), a + [x] + b) == a + b
  {
    var p := IdIsNot(freshId);
    assert !p(x);
    assert Filter(p, [x]) == [];
    FilterAppend(p, a + [x], b);
    FilterAppend(p, a, [x]);
    AbsentIdKeepsAll(a, freshId);
    AbsentIdKeepsAll(b, freshId);
    assert Filter(p, a + [x]) == a;
  }

  /** A slice of a list without `id` has no condition with `id` either. */
  lemma AbsentFromSlice(cs: seq<Condition>, lo: nat, hi: nat, id: string)
    requires lo <= hi <= |cs| && !HasId(cs, id)
    ensures !HasId(cs[lo..hi], id)
  {
    forall j | 0 <= j < hi - lo ensures cs[lo..hi][j].id != id {
      assert cs[lo..hi][j] == cs[lo + j];
    }
  }

  /** Removing the copy just made (under an unused id) restores the list. */
  lemma RemoveAfterDuplicate(cs: seq<Condition>, id: string, freshId: string)
    requires !HasId(cs, freshId)
    ensures RemoveCondition(DuplicateCondition(cs, id, freshId), freshId) == cs
  {
    if HasId(cs, id) {
      var i := FindIndex(cs, id).value;
      var a, b := cs[..i + 1], cs[i + 1..];
      assert a + b == cs;
      AbsentFromSlice(cs, 0, i + 1, freshId);
      AbsentFromSlice(cs, i + 1, |cs|, freshId);
      var copy := cs[i].(id := freshId);
      assert DuplicateCondition(cs, id, freshId) == a + [copy] + b;
      RemoveInserted(a, copy, b, freshId);
    }
  }

  /** Updates never change ids, so the set of conditions an id selects stays put. */
  lemma UpdateKeepsIds(cs: seq<Condition>, id: string, u: ConditionUpdate, k: string)
    ensures HasId(UpdateCondition(cs, id, u), k) <==> HasId(cs, k)
  {
    var r := UpdateCondition(cs, id, u);
    if HasId(cs, k) {
      var i :| 0 <= i < |cs| && cs[i].id == k;
      assert r[i].id == k;
    }
    if HasId(r, k) {
      var i :| 0 <= i < |r| && r[i].id == k;
      assert cs[i].id == k;
    }
  }

  /** Applying the same update twice is the same as applying it once. */
  lemma UpdateIdempotent(cs: seq<Condition>, id: string, u: ConditionUpdate)
    ensures UpdateCondition(UpdateCondition(cs, id, u), id, u) == UpdateCondition(cs, id, u)
  {
  }

  /** An update with no keys, or one aimed at an absent id, changes nothing. */
  lemma UpdateWithoutEffect(cs: seq<Condition>, id: string, u: ConditionUpdate)
    requires u == NoChange || !HasId(cs, id)
    ensures UpdateCondition(cs, id, u) == cs
  {
    var r := UpdateCondition(cs, id, u);
    assert forall i :: 0 <= i < |cs| ==> r[i] == cs[i] by {
      forall i | 0 <= i < |cs| ensures r[i] == cs[i] {
        if cs[i].id == id {
          assert u == NoChange;
        }
      }
    }
  }

  /** The copy differs from its original in the id only. */
  lemma DuplicateCopiesContent(cs: seq<Condition>, id: string, freshId: string)
    requires HasId(cs, id)
    ensures exists i :: && 0 <= i < |cs| && cs[i].id == id
                        && DuplicateCondition(cs, id, freshId)[i + 1] == Condition(freshId, cs[i].field, cs[i].operator, cs[i].value, cs[i].timeWindow)
  {
    var i := FindIndex(cs, id).value;
    assert DuplicateCondition(cs, id, freshId)[i + 1] == Condition(freshId, cs[i].field, cs[i].operator, cs[i].value, cs[i].timeWindow);
  }

  // ---------------------------------------------------------------------------
  // Distinct ids: the invariant the builders keep when new ids are unused
  // ---------------------------------------------------------------------------

  predicate UniqueIds(cs: seq<Condition>)
  {
    forall i, j :: 0 <= i < j < |cs| ==> cs[i].id != cs[j].id
  }

  lemma AddKeepsUniqueIds(cs: seq<Condition>, freshId: string)
    requires UniqueIds(cs) && !HasId(cs, freshId)
    ensures UniqueIds(AddCondition(cs, freshId))
  {
    var r := AddCondition(cs, freshId);
    forall i, j | 0 <= i < j < |r| ensures r[i].id != r[j].id {
      if j == |cs| {
        assert r[i] == cs[i];
      } else {
        assert r[i] == cs[i] && r[j] == cs[j];
      }
    }
  }

  /** Prepending a condition whose id no later one carries keeps ids distinct. */
  lemma ConsKeepsUniqueIds(c: Condition, tail: seq<Condition>)
    requires UniqueIds(tail) && forall d :: d in tail ==> d.id != c.id
    ensures UniqueIds([c] + tail)
  {
    var r := [c] + tail;
    forall i, j | 0 <= i < j < |r| ensures r[i].id != r[j].id {
      assert r[j] == tail[j - 1];
      if i > 0 {
        assert r[i] == tail[i - 1];
      }
    }
  }

  lemma {:induction false} RemoveKeepsUniqueIds(cs: seq<Condition>, id: string)
    requires UniqueIds(cs)
    ensures UniqueIds(RemoveCondition(cs, id))
    decreases |cs|
  {
    if cs != [] {
      var rest := cs[1..];
      assert UniqueIds(rest) by {
        forall i, j | 0 <= i < j < |rest| ensures rest[i].id != rest[j].id {
          assert rest[i] == cs[i + 1] && rest[j] == cs[j + 1];
        }
      }
      assert forall d :: d in rest ==> d.id != cs[0].id by {
        forall d | d in rest ensures d.id != cs[0].id {
          var k :| 0 <= k < |rest| && rest[k] == d;
          assert cs[k + 1] == d;
        }
      }
      RemoveKeepsUniqueIds(rest, id);
      var tail := RemoveCondition(rest, id);
      if cs[0].id != id {
        ConsKeepsUniqueIds(cs[0], tail);
        assert RemoveCondition(cs, id) == [cs[0]] + tail;
      } else {
        assert RemoveCondition(cs, id) == tail;
      }
    }
  }

  lemma UpdateKeepsUniqueIds(cs: seq<Condition>, id: string, u: ConditionUpdate)
    requires UniqueIds(cs)
    ensures UniqueIds(UpdateCondition(cs, id, u))
  {
  }

  lemma DuplicateKeepsUniqueIds(cs: seq<Condition>, id: string, freshId: string)
    requires UniqueIds(cs) && !HasId(cs, freshId)
    ensures UniqueIds(DuplicateCondition(cs, id, freshId))
  {
    if HasId(cs, id) {
      var k := FindIndex(cs, id).value;
      var r := DuplicateCondition(cs, id, freshId);
      assert forall i :: 0 <= i <= k ==> r[i] == cs[i] by {
        forall i | 0 <= i <= k ensures r[i] == cs[i] {
          assert r[..k + 1][i] == cs[..k + 1][i];
        }
      }
      assert forall i :: k + 2 <= i < |r| ==> r[i] == cs[i - 1] by {
        forall i | k + 2 <= i < |r| ensures r[i] == cs[i - 1] {
          assert r[k + 2..][i - k - 2] == cs[k + 1..][i - k - 2];
        }
      }
      forall i, j | 0 <= i < j < |r| ensures r[i].id != r[j].id {
        if i == k + 1 {
          assert r[j].id == cs[j - 1].id;
        } else if j == k + 1 {
          assert r[i].id == cs[i].id;
        } else {
          var i', j' := if i <= k then i else i - 1, if j <= k then j else j - 1;
          assert r[i] == cs[i'] && r[j] == cs[j'] && i' < j';
        }
      }
    }
  }
}
