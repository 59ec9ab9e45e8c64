/**
 * The inheritance-rules store: rules that hand an owner's asset to an heir,
 * and the evaluation a verified death triggers, which moves the owner's
 * active rules to pending execution.
 */
module Inheritance {
  import opened Wrappers
  import opened Nest

  datatype RuleStatus = Active | PendingExecution | Executed | Cancelled

  function RuleStatusValue(s: RuleStatus): string {
    match s
    case Active => "active"
    case PendingExecution => "pending_execution"
    case Executed => "executed"
    case Cancelled => "cancelled"
  }

  /** A stored rule; `assetId` and `delayDays` are nullable columns. */
  datatype Rule = Rule(
    id: string,
    ownerId: string,
    heirId: string,
    assetId: Option<string>,
    condition: string,
    delayDays: Option<int>,
    status: RuleStatus)

  /** The primary key is unique. */
  predicate UniqueIds(rs: seq<Rule>) {
    forall i, j :: 0 <= i < j < |rs| ==> rs[i].id != rs[j].id
  }

  predicate IsActiveOf(r: Rule, userId: string) {
    r.ownerId == userId && r.status == Active
  }

  /** A rule after evaluation for `userId`. */
  function Evaluated(r: Rule, userId: string): (e: Rule)
    ensures IsActiveOf(r, userId) ==> e == r.(status := PendingExecution)
    ensures !IsActiveOf(r, userId) ==> e == r
  {
    if IsActiveOf(r, userId) then r.(status := PendingExecution) else r
  }

  /**
   * The table after `evaluateRules(userId)`: the user's active rules are
   * pending execution; every other rule, and every other field, is as it was.
   */
  function EvaluatedRules(rs: seq<Rule>, userId: string): (r: seq<Rule>)
    ensures |r| == |rs|
    ensures forall i :: 0 <= i < |rs| ==> r[i] == Evaluated(rs[i], userId)
  {
    seq(|rs|, i requires 0 <= i < |rs| => Evaluated(rs[i], userId))
  }

  /** The positions of the user's active rules, in table order: the rows the query finds. */
  function ActiveIndices(rs: seq<Rule>, userId: string): (r: seq<nat>)
    ensures forall k :: 0 <= k < |r| ==> r[k] < |rs| && IsActiveOf(rs[r[k]], userId)
    ensures forall i :: 0 <= i < |rs| && IsActiveOf(rs[i], userId) ==> i in r
    ensures forall k, l :: 0 <= k < l < |r| ==> r[k] < r[l]
  {
    if |rs| == 0 then []
    else
      var front := ActiveIndices(rs[..|rs| - 1], userId);
      if IsActiveOf(rs[|rs| - 1], userId) then front + [|rs| - 1] else front
  }

  /** After an evaluation the user has no active rule left. */
  lemma NoActiveAfterEvaluation(rs: seq<Rule>, userId: string)
    ensures forall i :: 0 <= i < |rs| ==> !IsActiveOf(EvaluatedRules(rs, userId)[i], userId)
  {
  }

  /** Evaluating twice is evaluating once: the second pass finds no active rule. */
  lemma EvaluateIdempotent(rs: seq<Rule>, userId: string)
    ensures EvaluatedRules(EvaluatedRules(rs, userId), userId) == EvaluatedRules(rs, userId)
    ensures ActiveIndices(EvaluatedRules(rs, userId), userId) == []
  {
    var once := EvaluatedRules(rs, userId);
    var found := ActiveIndices(once, userId);
    if |found| > 0 {
      assert IsActiveOf(once[found[0]], userId);
    }
  }

  /** Evaluations for two users touch disjoint rules, so their order does not matter. */
  lemma EvaluationsCommute(rs: seq<Rule>, u: string, v: string)
    ensures EvaluatedRules(EvaluatedRules(rs, u), v) == EvaluatedRules(EvaluatedRules(rs, v), u)
  {
  }

  /** The rules of an owner, in table order. */
  function RulesOf(rs: seq<Rule>, ownerId: string): (r: seq<Rule>)
    ensures forall x :: x in r <==> x in rs && x.ownerId == ownerId
    ensures |r| <= |rs|
  {
    if |rs| == 0 then []
    else (if rs[0].ownerId == ownerId then [rs[0]] else []) + RulesOf(rs[1..], ownerId)
  }

  /** The rule with an id, if there is one. */
  function RuleById(rs: seq<Rule>, id: string): (r: Option<Rule>)
    ensures r.None? <==> forall i :: 0 <= i < |rs| ==> rs[i].id != id
    ensures r.Some? ==> r.value in rs && r.value.id == id
  {
    if |rs| == 0 then None
    else if rs[0].id == id then Some(rs[0])
    else RuleById(rs[1..], id)
  }

  /** With unique ids, the rule found by id is the only one with that id. */
  lemma RuleByIdUnique(rs: seq<Rule>, id: string, i: nat)
    requires UniqueIds(rs) && i < |rs| && rs[i].id == id
    ensures RuleById(rs, id) == Some(rs[i])
  {
    var r := RuleById(rs, id);
    var j :| 0 <= j < |rs| && rs[j] == r.value;
    assert j == i;
  }

  function EvaluatedMessage(userId: string): string {
    "Rules evaluated for user " + userId
  }

  class InheritanceService {
    var rules: seq<Rule>

    constructor (rules: seq<Rule>)
      ensures this.rules == rules
    {
      this.rules := rules;
    }

    /**
     * `evaluateRules`: finds the user's active rules, then sets each to
     * pending execution and saves it.
     */
    method EvaluateRules(userId: string, correlationId: string) returns (ack: Ack)
      modifies this
      ensures rules == EvaluatedRules(old(rules), userId)
      ensures ack == Ack("success", EvaluatedMessage(userId))
    {
      var found := ActiveIndices(rules, userId);
      ghost var before := rules;
      for k := 0 to |found|
        invariant |rules| == |before|
        invariant forall i :: 0 <= i < |before| ==>
          rules[i] == (if i in found[..k] then before[i].(status := PendingExecution) else before[i])
      {
        assert found[..k + 1] == found[..k] + [found[k]];
        rules := rules[found[k] := rules[found[k]].(status := PendingExecution)];
      }
      assert found[..|found|] == found;
      ack := Ack("success", EvaluatedMessage(userId));
    }

    /** `createRule`: a new active rule; `newId` is the id the database generates. */
    method CreateRule(ownerId: string, heirId: string, condition: string, assetId: Option<string>,
                      delayDays: Option<int>, newId: string) returns (r: Rule)
      requires forall i :: 0 <= i < |rules| ==> rules[i].id != newId
      modifies this
      ensures r == Rule(newId, ownerId, heirId, assetId, condition, delayDays, Active)
      ensures rules == old(rules) + [r]
      ensures UniqueIds(old(rules)) ==> UniqueIds(rules)
    {
      r := Rule(newId, ownerId, heirId, assetId, condition, delayDays, Active);
      rules := rules + [r];
    }

    /** `findRulesByOwner`. */
    method FindRulesByOwner(ownerId: string) returns (r: seq<Rule>)
      ensures r == RulesOf(rules, ownerId)
    {
      r := RulesOf(rules, ownerId);
    }

    /** `getRuleById`: no rule, and no error, for an unknown id. */
    method GetRuleById(ruleId: string) returns (r: Option<Rule>)
      ensures r == RuleById(rules, ruleId)
    {
      r := RuleById(rules, ruleId);
    }
  }
}
