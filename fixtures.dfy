/**
 * The simulated data the service starts with, and the recommendations it
 * answers for each location of that data.
 */
module Fixtures {
  import opened Wrappers
  import opened Records
  import opened TrafficRules
  import opened Recommendations

  const MainSt := "Main St"
  const SecondAve := "2nd Ave"
  const ThirdBlvd := "3rd Blvd"
  const FourthSt := "4th St"
  const FifthAve := "5th Ave"
  const SixthRd := "6th Rd"

  const TrafficData: seq<Record> := [
    Traffic(15, 120, MainSt),
    Traffic(35, 80, SecondAve),
    Traffic(10, 150, ThirdBlvd),
    Traffic(25, 90, FourthSt),
    Traffic(20, 110, FifthAve),
    Traffic(30, 70, SixthRd)
  ]

  const AccidentData: seq<Record> := [
    Accident(3, MainSt),
    Accident(1, SecondAve),
    Accident(4, FourthSt),
    Accident(2, FifthAve),
    Accident(3, SixthRd)
  ]

  const RoadConditionData: seq<Record> := [
    Road("construction", MainSt),
    Road("clear", SecondAve),
    Road("construction", FifthAve),
    Road("clear", SixthRd)
  ]

  const SampleStore := Store(TrafficData, AccidentData, RoadConditionData)

  /** The annotated sample records of each collection on which a rule triggers, in order. */
  const CongestedTraffic: seq<Fact> := [
    Fact(Traffic(15, 120, MainSt), Some(CongestionResult), Some(CongestionAction)),
    Fact(Traffic(10, 150, ThirdBlvd), Some(CongestionResult), Some(CongestionAction))
  ]

  const SevereAccidents: seq<Fact> := [
    Fact(Accident(3, MainSt), Some(AccidentResult), Some(AccidentAction)),
    Fact(Accident(4, FourthSt), Some(AccidentResult), Some(AccidentAction)),
    Fact(Accident(3, SixthRd), Some(AccidentResult), Some(AccidentAction))
  ]

  const Constructions: seq<Fact> := [
    Fact(Road("construction", MainSt), Some(ConstructionResult), Some(ConstructionAction)),
    Fact(Road("construction", FifthAve), Some(ConstructionResult), Some(ConstructionAction))
  ]

  /** Only the two slow, dense traffic records trigger: speed 20 on "5th Ave" does not. */
  lemma TrafficTriggers()
    ensures Triggered(Rules, TrafficData) == CongestedTraffic
  {
    TriggeredIsClassifyAll(TrafficData);
    var d := TrafficData;
    assert ClassifyAll(d[6..]) == [];
    assert ClassifyAll(d[5..]) == [];
    assert ClassifyAll(d[4..]) == [];
    assert ClassifyAll(d[3..]) == [];
    assert ClassifyAll(d[2..]) == [CongestedTraffic[1]];
    assert ClassifyAll(d[1..]) == [CongestedTraffic[1]];
  }

  /** Only the accidents of severity above 2 trigger: severity 2 on "5th Ave" does not. */
  lemma AccidentTriggers()
    ensures Triggered(Rules, AccidentData) == SevereAccidents
  {
    TriggeredIsClassifyAll(AccidentData);
    var d := AccidentData;
    assert ClassifyAll(d[5..]) == [];
    assert ClassifyAll(d[4..]) == [SevereAccidents[2]];
    assert ClassifyAll(d[3..]) == [SevereAccidents[2]];
    assert ClassifyAll(d[2..]) == SevereAccidents[1..];
    assert ClassifyAll(d[1..]) == SevereAccidents[1..];
  }

  /** Only the two roads under construction trigger; "clear" does not. */
  lemma RoadConditionTriggers()
    ensures Triggered(Rules, RoadConditionData) == Constructions
  {
    TriggeredIsClassifyAll(RoadConditionData);
    var d := RoadConditionData;
    assert ClassifyAll(d[4..]) == [];
    assert ClassifyAll(d[3..]) == [];
    assert ClassifyAll(d[2..]) == [Constructions[1]];
    assert ClassifyAll(d[1..]) == [Constructions[1]];
  }

  /** For any location, the sample answer is the triggered sample records at that location, by collection. */
  lemma SampleRecommendations(location: string)
    ensures Recommend(SampleStore, location) ==
      AtLocation(CongestedTraffic, location) +
      AtLocation(SevereAccidents, location) +
      AtLocation(Constructions, location)
  {
    FilterThenEvaluate(Rules, TrafficData, location);
    FilterThenEvaluate(Rules, AccidentData, location);
    FilterThenEvaluate(Rules, RoadConditionData, location);
    TrafficTriggers();
    AccidentTriggers();
    RoadConditionTriggers();
  }

  /**
   * The sample answer for any location, spelled out record by record: each
   * triggered sample record is kept exactly when its location is the requested one.
   */
  lemma SampleAnswer(location: string)
    ensures Recommend(SampleStore, location) ==
      (if MainSt == location then [CongestedTraffic[0]] else []) +
      (if ThirdBlvd == location then [CongestedTraffic[1]] else []) +
      (if MainSt == location then [SevereAccidents[0]] else []) +
      (if FourthSt == location then [SevereAccidents[1]] else []) +
      (if SixthRd == location then [SevereAccidents[2]] else []) +
      (if MainSt == location then [Constructions[0]] else []) +
      (if FifthAve == location then [Constructions[1]] else [])
  {
    SampleRecommendations(location);
    assert AtLocation(CongestedTraffic[2..], location) == [];
    assert AtLocation(SevereAccidents[3..], location) == [];
    assert AtLocation(Constructions[2..], location) == [];
    assert AtLocation(CongestedTraffic[1..], location) == AtLocation([CongestedTraffic[1]], location);
    assert AtLocation(SevereAccidents[2..], location) == AtLocation([SevereAccidents[2]], location);
    assert AtLocation(SevereAccidents[1..], location) ==
      AtLocation([SevereAccidents[1]], location) + AtLocation([SevereAccidents[2]], location);
    assert AtLocation(Constructions[1..], location) == AtLocation([Constructions[1]], location);
  }

  /** "Main St": congestion, then the accident, then the construction, in that order. */
  lemma MainStreet()
    ensures Recommend(SampleStore, MainSt) == [
      Fact(Traffic(15, 120, MainSt), Some(CongestionResult), Some(CongestionAction)),
      Fact(Accident(3, MainSt), Some(AccidentResult), Some(AccidentAction)),
      Fact(Road("construction", MainSt), Some(ConstructionResult), Some(ConstructionAction))
    ]
  {
    SampleAnswer(MainSt);
  }

  /** "2nd Ave": traffic at speed 35, an accident of severity 1 and a clear road trigger nothing. */
  lemma SecondAvenue()
    ensures Recommend(SampleStore, SecondAve) == []
  {
    SampleAnswer(SecondAve);
  }

  /** "3rd Blvd": only the congestion. */
  lemma ThirdBoulevard()
    ensures Recommend(SampleStore, ThirdBlvd) == [
      Fact(Traffic(10, 150, ThirdBlvd), Some(CongestionResult), Some(CongestionAction))
    ]
  {
    SampleAnswer(ThirdBlvd);
  }

  /** "4th St": only the accident of severity 4. */
  lemma FourthStreet()
    ensures Recommend(SampleStore, FourthSt) == [
      Fact(Accident(4, FourthSt), Some(AccidentResult), Some(AccidentAction))
    ]
  {
    SampleAnswer(FourthSt);
  }

  /** "5th Ave": speed 20 and severity 2 sit on the strict boundaries; only the construction triggers. */
  lemma FifthAvenue()
    ensures Recommend(SampleStore, FifthAve) == [
      Fact(Road("construction", FifthAve), Some(ConstructionResult), Some(ConstructionAction))
    ]
  {
    SampleAnswer(FifthAve);
  }

  /** "6th Rd": only the accident of severity 3; the road there is clear. */
  lemma SixthRoad()
    ensures Recommend(SampleStore, SixthRd) == [
      Fact(Accident(3, SixthRd), Some(AccidentResult), Some(AccidentAction))
    ]
  {
    SampleAnswer(SixthRd);
  }

  /** The locations that occur in the sample data. */
  const SampleLocations: set<string> := {MainSt, SecondAve, ThirdBlvd, FourthSt, FifthAve, SixthRd}

  /**
   * A location absent from all three collections yields nothing; matching is
   * exact, so a different spelling or case of a known location is absent too.
   */
  lemma AbsentLocation(location: string)
    requires location !in SampleLocations
    ensures Recommend(SampleStore, location) == []
  {
    SampleAnswer(location);
  }

  /** Case matters: the lower-case spelling of "Main St" matches nothing. */
  lemma CaseSensitive()
    ensures Recommend(SampleStore, "main st") == []
  {
    assert "main st"[0] != MainSt[0];
    AbsentLocation("main st");
  }
}
