/**
 * The three fixed rules of the recommendation service, in declaration order,
 * and what evaluating a record against them yields.
 */
module TrafficRules {
  import opened Wrappers
  import opened Records
  import opened RuleEngine

  const CongestionResult := "High congestion detected"
  const CongestionAction := "Optimize traffic signals"
  const AccidentResult := "Severe accident reported"
  const AccidentAction := "Recommend alternative routes"
  const ConstructionResult := "Road construction detected"
  const ConstructionAction := "Suggest infrastructure improvements"

  /*
   * The conditions read fields by name. A record of another kind has no such
   * field; comparing `undefined` with `<`, `>` or `===` is false, so such a
   * record never meets the condition.
   */

  /** Rule 1: speed strictly below 20 and volume strictly above 100. */
  predicate Congested(rec: Record)
  {
    match rec
    case Traffic(speed, volume, _) => speed < 20 && volume > 100
    case _ => false
  }

  /** Rule 2: severity strictly above 2. */
  predicate SevereAccident(rec: Record)
  {
    match rec
    case Accident(severity, _) => severity > 2
    case _ => false
  }

  /** Rule 3: the road condition is exactly the string "construction". */
  predicate UnderConstruction(rec: Record)
  {
    match rec
    case Road(condition, _) => condition == "construction"
    case _ => false
  }

  /** The rule set, in declaration order. */
  const Rules: seq<Rule> := [
    Rule(Congested, CongestionResult, CongestionAction),
    Rule(SevereAccident, AccidentResult, AccidentAction),
    Rule(UnderConstruction, ConstructionResult, ConstructionAction)
  ]

  /** What the engine makes of a record of the data store. */
  function Evaluate(rec: Record): Fact
  {
    Execute(Rules, Fresh(rec))
  }

  /**
   * Reference classification by record kind: each kind is checked against the
   * one rule that reads its fields.
   */
  function Classify(rec: Record): Fact
  {
    match rec
    case Traffic(speed, volume, _) =>
      if speed < 20 && volume > 100 then Fact(rec, Some(CongestionResult), Some(CongestionAction))
      else Fresh(rec)
    case Accident(severity, _) =>
      if severity > 2 then Fact(rec, Some(AccidentResult), Some(AccidentAction))
      else Fresh(rec)
    case Road(condition, _) =>
      if condition == "construction" then Fact(rec, Some(ConstructionResult), Some(ConstructionAction))
      else Fresh(rec)
  }

  /** The ordered rule set agrees with the per-kind classification on every record. */
  lemma EvaluateIsClassify(rec: Record)
    ensures Evaluate(rec) == Classify(rec)
  {
    assert Rules[0].condition == Congested;
    assert Rules[1].condition == SevereAccident;
    assert Rules[2].condition == UnderConstruction;
    match rec
    case Traffic(_, _, _) =>
      assert !Rules[1].condition(rec) && !Rules[2].condition(rec);
    case Accident(_, _) =>
      assert !Rules[0].condition(rec) && !Rules[2].condition(rec);
    case Road(_, _) =>
      assert !Rules[0].condition(rec) && !Rules[1].condition(rec);
  }

  /** No record meets two of the three conditions: their field sets are disjoint. */
  lemma RulesDisjoint(rec: Record, i: nat, j: nat)
    requires i < j < |Rules|
    ensures !(Rules[i].condition(rec) && Rules[j].condition(rec))
  {
    assert Rules[0].condition == Congested;
    assert Rules[1].condition == SevereAccident;
    assert Rules[2].condition == UnderConstruction;
  }

  /** A record gets the congestion labels iff it is traffic with speed < 20 and volume > 100. */
  lemma CongestionIff(rec: Record)
    ensures Evaluate(rec).result == Some(CongestionResult) <==>
            rec.Traffic? && rec.speed < 20 && rec.volume > 100
    ensures Evaluate(rec).result == Some(CongestionResult) ==>
            Evaluate(rec).action == Some(CongestionAction)
  {
    EvaluateIsClassify(rec);
  }

  /** A record gets the accident labels iff it is an accident with severity > 2. */
  lemma SevereAccidentIff(rec: Record)
    ensures Evaluate(rec).result == Some(AccidentResult) <==>
            rec.Accident? && rec.severity > 2
    ensures Evaluate(rec).result == Some(AccidentResult) ==>
            Evaluate(rec).action == Some(AccidentAction)
  {
    EvaluateIsClassify(rec);
  }

  /** A record gets the construction labels iff it is a road condition equal to "construction". */
  lemma ConstructionIff(rec: Record)
    ensures Evaluate(rec).result == Some(ConstructionResult) <==>
            rec.Road? && rec.condition == "construction"
    ensures Evaluate(rec).result == Some(ConstructionResult) ==>
            Evaluate(rec).action == Some(ConstructionAction)
  {
    EvaluateIsClassify(rec);
  }

  /**
   * Evaluation keeps the record's own fields, and a record is annotated, with
   * a truthy result and an action, exactly when one of the three rules triggers.
   */
  lemma EvaluateAnnotation(rec: Record)
    ensures Evaluate(rec).record == rec
    ensures Truthy(Evaluate(rec).result) <==> Triggers(Rules, rec)
    ensures Truthy(Evaluate(rec).result) <==> Evaluate(rec).action.Some?
    ensures Triggers(Rules, rec) <==> Congested(rec) || SevereAccident(rec) || UnderConstruction(rec)
  {
    EvaluateIsClassify(rec);
    assert Rules[0].condition == Congested;
    assert Rules[1].condition == SevereAccident;
    assert Rules[2].condition == UnderConstruction;
    if Congested(rec) { assert Rules[0].condition(rec); }
    if SevereAccident(rec) { assert Rules[1].condition(rec); }
    if UnderConstruction(rec) { assert Rules[2].condition(rec); }
  }

  /** A record never picks up the labels of a rule that reads another kind's fields. */
  lemma LabelMatchesKind(rec: Record)
    ensures Evaluate(rec).result.Some? ==>
      Evaluate(rec).result == Some(match rec
                                   case Traffic(_, _, _) => CongestionResult
                                   case Accident(_, _) => AccidentResult
                                   case Road(_, _) => ConstructionResult)
  {
    EvaluateIsClassify(rec);
  }

  /** The strict comparisons: the boundary values trigger nothing. */
  lemma BoundariesDoNotTrigger(location: string, volume: int, speed: int, condition: string)
    requires condition != "construction"
    ensures Evaluate(Traffic(20, volume, location)).result.None?
    ensures Evaluate(Traffic(speed, 100, location)).result.None?
    ensures Evaluate(Accident(2, location)).result.None?
    ensures Evaluate(Road(condition, location)).result.None?
  {
    EvaluateIsClassify(Traffic(20, volume, location));
    EvaluateIsClassify(Traffic(speed, 100, location));
    EvaluateIsClassify(Accident(2, location));
    EvaluateIsClassify(Road(condition, location));
  }
}
