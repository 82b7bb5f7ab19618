/**
 * The first-match-wins rule evaluation that the rule engine performs for a
 * rule set in which every consequence sets `result` and `action` on the fact
 * and then stops the session.
 */
module RuleEngine {
  import opened Wrappers
  import opened Records

  /** A rule: a condition over the record's fields and the labels its consequence assigns. */
  datatype Rule = Rule(condition: Record -> bool, result: string, action: string)

  /** The consequence of a rule: set `result` and `action`, keep every other field. */
  function Apply(rule: Rule, f: Fact): Fact
  {
    Fact(f.record, Some(rule.result), Some(rule.action))
  }

  /** The index of the first rule, in declaration order, whose condition holds. */
  function FirstMatch(rules: seq<Rule>, rec: Record): (k: Option<nat>)
    ensures k.Some? ==> k.value < |rules| && rules[k.value].condition(rec)
    ensures k.Some? ==> forall j :: 0 <= j < k.value ==> !rules[j].condition(rec)
    ensures k.None? <==> forall j :: 0 <= j < |rules| ==> !rules[j].condition(rec)
  {
    if rules == [] then None
    else if rules[0].condition(rec) then Some(0)
    else
      match FirstMatch(rules[1..], rec)
      case None => None
      case Some(k) => Some(k + 1)
  }

  /**
   * One session of the engine over one fact: the first matching rule's
   * consequence is applied and the session stops; with no matching rule the
   * fact comes back as it went in.
   */
  function Execute(rules: seq<Rule>, f: Fact): (r: Fact)
    ensures r.record == f.record
  {
    match FirstMatch(rules, f.record)
    case None => f
    case Some(k) => Apply(rules[k], f)
  }

  /** The first rule whose condition holds is the one whose consequence is applied. */
  lemma ExecuteFirstMatch(rules: seq<Rule>, f: Fact, k: nat)
    requires k < |rules| && rules[k].condition(f.record)
    requires forall j :: 0 <= j < k ==> !rules[j].condition(f.record)
    ensures Execute(rules, f) == Apply(rules[k], f)
  {
    var m := FirstMatch(rules, f.record);
    assert m.Some? && m.value == k;
  }

  /** With no rule matching, the session leaves the fact as it was. */
  lemma ExecuteNoMatch(rules: seq<Rule>, f: Fact)
    requires forall j :: 0 <= j < |rules| ==> !rules[j].condition(f.record)
    ensures Execute(rules, f) == f
  {
  }

  /** Some rule of the set holds of the record. */
  predicate Triggers(rules: seq<Rule>, rec: Record)
  {
    exists j :: 0 <= j < |rules| && rules[j].condition(rec)
  }

  /**
   * When several rules hold, the earliest one in declaration order decides
   * the annotation: a later rule whose label no rule up to the earlier one
   * shares never shows up in the result.
   */
  lemma EarlierRuleWins(rules: seq<Rule>, f: Fact, i: nat, j: nat)
    requires i < j < |rules|
    requires rules[i].condition(f.record) && rules[j].condition(f.record)
    requires forall k :: 0 <= k <= i ==> rules[k].result != rules[j].result
    ensures Execute(rules, f).result.Some?
    ensures Execute(rules, f).result != Some(rules[j].result)
  {
    var k := FirstMatch(rules, f.record);
    assert k.Some? && k.value <= i;
  }

  /** A fact is annotated exactly when some rule triggers on its record. */
  lemma ExecuteAnnotatesIffTriggered(rules: seq<Rule>, f: Fact)
    requires f.result.None? && f.action.None?
    ensures Execute(rules, f).result.Some? <==> Triggers(rules, f.record)
    ensures Execute(rules, f).result.Some? <==> Execute(rules, f).action.Some?
  {
  }

  /**
   * Evaluation is idempotent: running the engine again on a fact it has
   * already annotated yields the same result and action.
   */
  lemma ExecuteIdempotent(rules: seq<Rule>, f: Fact)
    ensures Execute(rules, Execute(rules, f)) == Execute(rules, f)
  {
  }
}
