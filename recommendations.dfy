/**
 * The handler of `GET /recommendations/:location`: filter each collection of
 * the data store by location, run the rule engine over every selected record,
 * traffic first, then accidents, then road conditions, and collect the records
 * that received a result.
 */
module Recommendations {
  import opened Records
  import opened RuleEngine
  import opened TrafficRules
  import opened Sequences

  /** The three in-memory collections, fixed for the life of the process. */
  datatype Store = Store(traffic: seq<Record>, accidents: seq<Record>, roadConditions: seq<Record>)

  /** Every record of the store, in the order the handler processes the collections. */
  function AllRecords(store: Store): seq<Record>
  {
    store.traffic + store.accidents + store.roadConditions
  }

  /** The records whose location equals the requested one exactly, in their original order. */
  function FilterLocation(data: seq<Record>, location: string): (r: seq<Record>)
    ensures |r| <= |data|
  {
    if data == [] then []
    else (if data[0].location == location then [data[0]] else []) + FilterLocation(data[1..], location)
  }

  /**
   * What the engine callbacks push for one group: each record is evaluated
   * and kept when its `result` is truthy.
   */
  function Triggered(rules: seq<Rule>, group: seq<Record>): (r: seq<Fact>)
    ensures |r| <= |group|
  {
    if group == [] then [] else Pushed(rules, group[0]) + Triggered(rules, group[1..])
  }

  /** What the callback for one record pushes: its annotation when `result` is truthy. */
  function Pushed(rules: seq<Rule>, rec: Record): seq<Fact>
  {
    var f := Execute(rules, Fresh(rec));
    if Truthy(f.result) then [f] else []
  }

  /** The records the recommendations came from, in order. */
  function Sources(facts: seq<Fact>): seq<Record>
  {
    seq(|facts|, i requires 0 <= i < |facts| => facts[i].record)
  }

  /** The facts among `facts` whose record has the given location, in order. */
  function AtLocation(facts: seq<Fact>, location: string): seq<Fact>
  {
    if facts == [] then []
    else (if facts[0].record.location == location then [facts[0]] else []) + AtLocation(facts[1..], location)
  }

  /** Reference for `Triggered` under the three fixed rules: keep each record's per-kind classification when it has a result. */
  function ClassifyAll(group: seq<Record>): seq<Fact>
  {
    if group == [] then []
    else (if Classify(group[0]).result.Some? then [Classify(group[0])] else []) + ClassifyAll(group[1..])
  }

  /** The response body of the handler, as a function of the store and the location. */
  function Recommend(store: Store, location: string): seq<Fact>
  {
    Triggered(Rules, FilterLocation(store.traffic, location)) +
    Triggered(Rules, FilterLocation(store.accidents, location)) +
    Triggered(Rules, FilterLocation(store.roadConditions, location))
  }

  /**
   * Evaluate every record of one group in order, pushing each one whose
   * `result` got set onto the recommendations collected so far.
   */
  method AnalyzeGroup(rules: seq<Rule>, group: seq<Record>, recommendations: seq<Fact>)
    returns (out: seq<Fact>)
    ensures out == recommendations + Triggered(rules, group)
  {
    out := recommendations;
    var i := 0;
    while i < |group|
      invariant 0 <= i <= |group|
      invariant out == recommendations + Triggered(rules, group[..i])
    {
      var result := Execute(rules, Fresh(group[i]));
      if Truthy(result.result) {
        out := out + [result];
      }
      TriggeredSnoc(rules, group, i);
      i := i + 1;
    }
    assert group[..|group|] == group;
  }

  /** The handler body: filter, evaluate traffic, accidents and road conditions, collect. */
  method GetRecommendations(store: Store, location: string) returns (recommendations: seq<Fact>)
    ensures recommendations == Recommend(store, location)
    ensures forall f :: f in recommendations ==>
      f.record.location == location && Truthy(f.result) && f.action.Some?
  {
    recommendations := [];
    var relevantTraffic := FilterLocation(store.traffic, location);
    var relevantAccidents := FilterLocation(store.accidents, location);
    var relevantRoadConditions := FilterLocation(store.roadConditions, location);
    recommendations := AnalyzeGroup(Rules, relevantTraffic, recommendations);
    assert [] + Triggered(Rules, relevantTraffic) == Triggered(Rules, relevantTraffic);
    recommendations := AnalyzeGroup(Rules, relevantAccidents, recommendations);
    recommendations := AnalyzeGroup(Rules, relevantRoadConditions, recommendations);
    assert recommendations == Recommend(store, location);
    forall f | f in recommendations
      ensures f.record.location == location && Truthy(f.result) && f.action.Some?
    {
      RecommendMembership(store, location, f);
    }
  }

  /** Evaluating two groups one after the other pushes the two groups' results in sequence. */
  lemma {:induction false} TriggeredAppend(rules: seq<Rule>, a: seq<Record>, b: seq<Record>)
    ensures Triggered(rules, a + b) == Triggered(rules, a) + Triggered(rules, b)
  {
    if a == [] {
      assert a + b == b;
    } else {
      assert (a + b)[0] == a[0];
      assert (a + b)[1..] == a[1..] + b;
      assert Triggered(rules, a + b) == Pushed(rules, a[0]) + Triggered(rules, a[1..] + b);
      TriggeredAppend(rules, a[1..], b);
    }
  }

  /** Evaluating one more record of a group pushes at most that record's annotation. */
  lemma TriggeredSnoc(rules: seq<Rule>, group: seq<Record>, i: nat)
    requires i < |group|
    ensures Triggered(rules, group[..i + 1]) == Triggered(rules, group[..i]) + Pushed(rules, group[i])
  {
    assert group[..i + 1] == group[..i] + [group[i]];
    TriggeredAppend(rules, group[..i], [group[i]]);
    assert [group[i]][1..] == [];
  }

  /** For one record, the callback pushes its per-kind classification when that carries a result. */
  lemma PushedClassified(rec: Record)
    ensures Triggered(Rules, [rec]) == Pushed(Rules, rec)
    ensures Pushed(Rules, rec) == if Classify(rec).result.Some? then [Classify(rec)] else []
  {
    assert [rec][1..] == [];
    EvaluateIsClassify(rec);
  }

  /** Under the fixed rules, what the callbacks push for a group is its per-kind classification. */
  lemma {:induction false} TriggeredIsClassifyAll(group: seq<Record>)
    ensures Triggered(Rules, group) == ClassifyAll(group)
  {
    if group != [] {
      PushedClassified(group[0]);
      TriggeredIsClassifyAll(group[1..]);
    }
  }

  /**
   * Selecting by location and then evaluating gives the same facts, in the
   * same order, as evaluating the whole collection and then selecting.
   */
  lemma {:induction false} FilterThenEvaluate(rules: seq<Rule>, data: seq<Record>, location: string)
    ensures Triggered(rules, FilterLocation(data, location)) == AtLocation(Triggered(rules, data), location)
  {
    if data != [] {
      var x := data[0];
      var head := if x.location == location then [x] else [];
      assert FilterLocation(data, location) == head + FilterLocation(data[1..], location);
      TriggeredAppend(rules, head, FilterLocation(data[1..], location));
      FilterThenEvaluate(rules, data[1..], location);
      assert [x][1..] == [];
      var p := Pushed(rules, x);
      assert Triggered(rules, data) == p + Triggered(rules, data[1..]);
      AtLocationAppend(p, Triggered(rules, data[1..]), location);
      if p != [] {
        assert p[1..] == [];
      }
    }
  }

  /** Selecting from a concatenation is the concatenation of the selections. */
  lemma {:induction false} AtLocationAppend(a: seq<Fact>, b: seq<Fact>, location: string)
    ensures AtLocation(a + b, location) == AtLocation(a, location) + AtLocation(b, location)
  {
    if a == [] {
      assert a + b == b;
    } else {
      var head := if a[0].record.location == location then [a[0]] else [];
      assert (a + b)[0] == a[0];
      assert (a + b)[1..] == a[1..] + b;
      assert AtLocation(a + b, location) == head + AtLocation(a[1..] + b, location);
      AtLocationAppend(a[1..], b, location);
    }
  }

  /** Filtering a concatenation is the concatenation of the filtered parts. */
  lemma {:induction false} FilterAppend(a: seq<Record>, b: seq<Record>, location: string)
    ensures FilterLocation(a + b, location) == FilterLocation(a, location) + FilterLocation(b, location)
  {
    if a == [] {
      assert a + b == b;
    } else {
      var head := if a[0].location == location then [a[0]] else [];
      assert (a + b)[0] == a[0];
      assert (a + b)[1..] == a[1..] + b;
      assert FilterLocation(a + b, location) == head + FilterLocation(a[1..] + b, location);
      FilterAppend(a[1..], b, location);
    }
  }

  /**
   * A fact is pushed for a group exactly when it is the annotation of one of
   * the group's records and its `result` is truthy.
   */
  lemma {:induction false} TriggeredMembers(rules: seq<Rule>, group: seq<Record>, f: Fact)
    ensures f in Triggered(rules, group) <==>
      f.record in group && f == Execute(rules, Fresh(f.record)) && Truthy(f.result)
  {
    if group != [] {
      TriggeredMembers(rules, group[1..], f);
      assert group == [group[0]] + group[1..];
    }
  }

  /** A filtered group holds exactly the records of the collection at that location. */
  lemma {:induction false} FilterMembers(data: seq<Record>, location: string, x: Record)
    ensures x in FilterLocation(data, location) <==> x in data && x.location == location
  {
    if data != [] {
      FilterMembers(data[1..], location, x);
      assert data == [data[0]] + data[1..];
    }
  }

  /**
   * A fact is in the response exactly when it is the annotation of a record of
   * the store at the requested location on which one of the rules triggers.
   * The annotation keeps the record's own fields and carries a result and an action.
   */
  lemma RecommendMembership(store: Store, location: string, f: Fact)
    ensures f in Recommend(store, location) <==>
      f.record in AllRecords(store) && f.record.location == location &&
      Triggers(Rules, f.record) && f == Evaluate(f.record)
    ensures f in Recommend(store, location) ==> Truthy(f.result) && f.action.Some?
  {
    var t := FilterLocation(store.traffic, location);
    var a := FilterLocation(store.accidents, location);
    var r := FilterLocation(store.roadConditions, location);
    TriggeredMembers(Rules, t, f);
    TriggeredMembers(Rules, a, f);
    TriggeredMembers(Rules, r, f);
    FilterMembers(store.traffic, location, f.record);
    FilterMembers(store.accidents, location, f.record);
    FilterMembers(store.roadConditions, location, f.record);
    EvaluateAnnotation(f.record);
  }

  /** The response processes the collections in order, each in its original order. */
  lemma RecommendOrder(store: Store, location: string)
    ensures Recommend(store, location) == Triggered(Rules, FilterLocation(AllRecords(store), location))
    ensures IsSubsequence(Sources(Recommend(store, location)), AllRecords(store))
  {
    FilterAppend(store.traffic + store.accidents, store.roadConditions, location);
    FilterAppend(store.traffic, store.accidents, location);
    var t := FilterLocation(store.traffic, location);
    var a := FilterLocation(store.accidents, location);
    var r := FilterLocation(store.roadConditions, location);
    TriggeredAppend(Rules, t + a, r);
    TriggeredAppend(Rules, t, a);
    SelectedInOrder(AllRecords(store), location);
  }

  /** Filtering and then keeping the triggered records never reorders them. */
  lemma {:induction false} SelectedInOrder(data: seq<Record>, location: string)
    ensures IsSubsequence(Sources(Triggered(Rules, FilterLocation(data, location))), data)
  {
    if data != [] {
      var x := data[0];
      var rest := FilterLocation(data[1..], location);
      var head := if x.location == location then [x] else [];
      assert FilterLocation(data, location) == head + rest;
      TriggeredAppend(Rules, head, rest);
      SelectedInOrder(data[1..], location);
      KeepOrDrop(x, data[1..], Triggered(Rules, head), Triggered(Rules, rest));
    }
  }

  /** One step of the order argument: putting at most the head's annotation in front. */
  lemma KeepOrDrop(x: Record, rest: seq<Record>, front: seq<Fact>, tail: seq<Fact>)
    requires front == [] || (|front| == 1 && front[0].record == x)
    requires IsSubsequence(Sources(tail), rest)
    ensures IsSubsequence(Sources(front + tail), [x] + rest)
  {
    var s := Sources(front + tail);
    var data := [x] + rest;
    assert data[1..] == rest;
    if front == [] {
      assert front + tail == tail;
    } else {
      assert s[1..] == Sources(tail);
    }
  }

  /**
   * The response is the per-kind classification of the records at the
   * location, so its length is the number of those records that trigger.
   */
  lemma RecommendIsClassifyAll(store: Store, location: string)
    ensures Recommend(store, location) == ClassifyAll(FilterLocation(AllRecords(store), location))
  {
    RecommendOrder(store, location);
    TriggeredIsClassifyAll(FilterLocation(AllRecords(store), location));
  }

  /** The response is never longer than the number of records selected by location. */
  lemma RecommendBound(store: Store, location: string)
    ensures |Recommend(store, location)| <= |FilterLocation(AllRecords(store), location)|
    ensures |Recommend(store, location)| <= |AllRecords(store)|
  {
    RecommendOrder(store, location);
  }

  /** A location that no record of the store carries yields an empty response. */
  lemma UnknownLocation(store: Store, location: string)
    requires forall x :: x in AllRecords(store) ==> x.location != location
    ensures Recommend(store, location) == []
  {
    RecommendOrder(store, location);
    var selected := FilterLocation(AllRecords(store), location);
    if selected != [] {
      FilterMembers(AllRecords(store), location, selected[0]);
    }
  }
}
