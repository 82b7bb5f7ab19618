# Traffic recommendations: rule evaluation and aggregation

This project models the decision logic behind `GET /recommendations/:location`
of the traffic-management backend (`server.js`), and proves properties of it.

- **Option** (`wrappers.dfy`, module `Wrappers`). `Option` is a JavaScript
  property that may be `undefined`.
- **Records** (`records.dfy`, module `Records`). A record is one of three kinds:
  `Traffic(speed, volume, location)`, `Accident(severity, location)` or
  `Road(condition, location)`. A `Fact` is a record as the rule engine sees it:
  the record's own fields plus the `result` and `action` properties that a
  consequence may set. `None` stands for a property that is still `undefined`.
  `Fresh` is a record before any rule has annotated it. `Truthy` is the test
  `if (result.result)` of the callback: JavaScript truthiness of such a
  property, meaning set and not the empty string.
- **Rule engine** (`rule_engine.dfy`, module `RuleEngine`). A `Rule` pairs a
  condition over a record with the labels its consequence assigns. `Execute`
  runs one engine session over a fact. Every consequence of this service calls
  `R.stop()`, so the session applies the consequence of the first rule in
  declaration order whose condition holds, and then stops. This works for any
  rule list, so the claim that the earliest rule wins when several hold is
  proved for arbitrary rule sets.
- **The three rules** (`traffic_rules.dfy`, module `TrafficRules`):
  - congestion: speed < 20 and volume > 100;
  - severe accident: severity > 2;
  - construction: the condition is exactly `"construction"`.

  A record of another kind has none of the fields a rule reads. In JavaScript,
  comparing `undefined` with `<`, `>` or `===` is false, so in the model such a
  rule never matches that kind of record. `Classify` is an independent per-kind
  reference. It is proved to agree with the ordered rule set on every record.
- **Aggregator** (`recommendations.dfy`, module `Recommendations`).
  - `FilterLocation` is the exact, case-sensitive location filter.
  - `AnalyzeGroup` is the per-group loop. It evaluates each record and pushes
    the annotated record when its `result` is truthy.
  - `GetRecommendations` is the handler. It filters the three collections, then
    analyses traffic, accidents and road conditions in that order.
  - `Recommend` is the handler's answer written as a function. `AnalyzeGroup`
    is proved equal to the prior recommendations followed by `Triggered` of its
    group, and `GetRecommendations` is proved equal to `Recommend`. The
    properties are proved about these functions as lemmas.
  - The order argument uses `IsSubsequence` (`sequences.dfy`, module
    `Sequences`).
  - The collections are passed in as a `Store` value.
- **Fixtures** (`fixtures.dfy`, module `Fixtures`). These are the sample arrays
  of `server.js`, and the exact answer for each sample location and for
  absent ones.

## Model

| member | source | states |
|---|---|---|
| RuleEngine.FirstMatch | server.js:35-66 | the index found is a rule whose condition holds and no earlier rule's does; none is found exactly when no condition holds |
| RuleEngine.Execute | server.js:40-64 | a session never changes the record's own fields, only `result` and `action` |
| RuleEngine.ExecuteFirstMatch | server.js:35-66 | the first matching rule's consequence is what the session applies (`R.stop()` ends it) |
| RuleEngine.ExecuteNoMatch | server.js:35-66 | with no matching rule the fact comes back unannotated |
| RuleEngine.EarlierRuleWins | server.js:43-63 | when two rules hold, the later one's label cannot appear in the result: first match wins |
| RuleEngine.ExecuteAnnotatesIffTriggered | server.js:40-63 | a fresh fact gets a result iff some rule triggers, and gets a result iff it gets an action |
| RuleEngine.ExecuteIdempotent | server.js:35-66 | evaluating an already evaluated fact again yields the same result and action |
| TrafficRules.EvaluateIsClassify | server.js:35-66 | the ordered three-rule set agrees on every record with the per-kind classification |
| TrafficRules.RulesDisjoint | server.js:38-58 | no record meets two of the three conditions |
| TrafficRules.CongestionIff | server.js:37-44 | the congestion result holds iff the record is traffic with speed < 20 and volume > 100 (both strict), and it comes with "Optimize traffic signals" |
| TrafficRules.SevereAccidentIff | server.js:47-54 | the accident result holds iff the record is an accident with severity > 2, and it comes with "Recommend alternative routes" |
| TrafficRules.ConstructionIff | server.js:57-64 | the construction result holds iff the record is a road condition equal to "construction", and it comes with "Suggest infrastructure improvements" |
| TrafficRules.EvaluateAnnotation | server.js:35-66 | evaluation keeps the record; the result is truthy iff one of the three conditions holds, iff an action is set |
| TrafficRules.LabelMatchesKind | server.js:41-62 | a record only ever receives the label of the rule over its own kind's fields |
| TrafficRules.BoundariesDoNotTrigger | server.js:38-58 | speed 20, volume 100, severity 2 and any condition other than "construction" trigger nothing |
| Recommendations.FilterLocation | server.js:78-80 | the filtered group is never longer than the collection |
| Recommendations.FilterMembers | server.js:78-80 | a record is in the filtered group iff it is in the collection and its location equals the requested one |
| Recommendations.FilterAppend | server.js:78-80 | filtering a concatenation is concatenating the filtered parts, so filtering keeps order |
| Recommendations.Triggered | server.js:87-120 | a group pushes at most one recommendation per record |
| Recommendations.TriggeredMembers | server.js:89-92 | a fact is pushed for a group iff it is the engine's annotation of one of its records and its result is truthy |
| Recommendations.TriggeredAppend | server.js:87-123 | processing two groups one after the other pushes the first group's results, then the second's |
| Recommendations.PushedClassified | server.js:89-92 | for one record the callback pushes exactly its per-kind classification when that has a result |
| Recommendations.TriggeredIsClassifyAll | server.js:87-96 | what a group pushes equals the per-kind classification of its records, in order |
| Recommendations.FilterThenEvaluate | server.js:78-96 | filtering by location and then evaluating gives the same sequence as evaluating and then selecting by location |
| Recommendations.AnalyzeGroup | server.js:87-96 | the loop leaves the recommendations so far followed by exactly the pushed facts of the group, in group order |
| Recommendations.GetRecommendations | server.js:72-125 | the handler returns the answer `Recommend` specifies, and every entry has the requested location, a truthy result and an action |
| Recommendations.RecommendMembership | server.js:78-125 | a fact is in the answer iff its record is in the store at the requested location, one of the rules triggers on it, and the fact is that record's annotation; every entry has a truthy result and an action |
| Recommendations.RecommendOrder | server.js:87-123 | the answer is what processing traffic, then accidents, then road conditions in array order pushes; its source records form a subsequence of that concatenation |
| Recommendations.SelectedInOrder | server.js:78-120 | filtering and keeping the triggered records never reorders them |
| Recommendations.RecommendIsClassifyAll | server.js:78-125 | the answer is the per-kind classification of the store's records at the location, in order, so it has one entry per such record on which a rule triggers |
| Recommendations.RecommendBound | server.js:78-125 | the answer is no longer than the number of records at the location |
| Recommendations.UnknownLocation | server.js:78-125 | a location that no record carries yields an empty answer |
| Fixtures.TrafficTriggers | server.js:10-17 | of the sample traffic only "Main St" (15, 120) and "3rd Blvd" (10, 150) trigger; "5th Ave" (20, 110) does not |
| Fixtures.AccidentTriggers | server.js:19-25 | of the sample accidents only "Main St" (3), "4th St" (4) and "6th Rd" (3) trigger; "5th Ave" (2) does not |
| Fixtures.RoadConditionTriggers | server.js:27-32 | of the sample road conditions only the two under construction trigger |
| Fixtures.SampleRecommendations | server.js:10-125 | for any location the sample answer is the triggered traffic, then accident, then road records at that location |
| Fixtures.SampleAnswer | server.js:10-125 | for any location the sample answer keeps each of the seven triggering sample records exactly when its location equals the requested one, in collection order |
| Fixtures.MainStreet | server.js:10-32 | "Main St" yields exactly congestion, then the accident, then the construction |
| Fixtures.SecondAvenue | server.js:10-32 | "2nd Ave" yields nothing |
| Fixtures.ThirdBoulevard | server.js:10-32 | "3rd Blvd" yields exactly the congestion |
| Fixtures.FourthStreet | server.js:10-32 | "4th St" yields exactly the severe accident |
| Fixtures.FifthAvenue | server.js:10-32 | "5th Ave" yields exactly the construction |
| Fixtures.SixthRoad | server.js:10-32 | "6th Rd" yields exactly the severe accident |
| Fixtures.AbsentLocation | server.js:78-80 | a location absent from all three sample arrays yields nothing |
| Fixtures.CaseSensitive | server.js:78-80 | matching is case-sensitive: "main st" yields nothing |

These members carry no contract of their own. The lemmas above state what
they mean:
- the rule conditions `Congested`, `SevereAccident` and `UnderConstruction`;
- the rule set `Rules` and `Evaluate`;
- the per-kind reference `Classify`;
- the consequence `Apply`, and `Triggers` (some rule's condition holds);
- `Fresh` and `Truthy`;
- `Pushed`, `Recommend`, `AtLocation`, `ClassifyAll`, `AllRecords` and `Sources`.

## Left out

- The Express application, CORS, the listening port and all `console.log`
  output (server.js:1-7, 76, 82-84, 124, 132-136). This is I/O plumbing around
  the decision logic.
- The Promise per record and `Promise.all` (server.js:87-123) are modelled as
  plain sequential iteration. The model assumes that the callbacks push in the
  order the records were issued. server.js does not guarantee this: it
  awaits callbacks through `Promise.all`, and the library may schedule each
  evaluation step on a later tick. For the records that trigger here the order
  still holds, because each kind fires a different rule and so reaches its
  callback after a fixed number of steps.
- The internals of the `node-rules` library are not part of this model:
  priorities, restarting with `R.next()`, and how it copies the fact into a
  session. Only the first-match-then-stop behaviour that `R.when`/`R.stop()`
  give these three rules is modelled.
- A consequence sets `result` and `action` on the session object in place. The
  model works on values instead: `Execute` returns the annotated fact that the
  callback receives, and nothing else in the handler reads the object.
- The model assumes that each request starts from unannotated sample records.
  If the library annotated the shared sample objects themselves, a later
  request would re-evaluate annotated records. `ExecuteIdempotent` shows that this gives the
  same result and action.
- Execute, ExecuteNoMatch: the model assumes the engine leaves `result`
  undefined when no rule fires. The `node-rules` library (server.js:3) is not
  part of this model, and as published it sets `result` to `true` before any
  rule runs. Under that default, the test `if (result.result)` at
  server.js:90, 102 and 114 would pass for every location-filtered record.
  The handler as written would then push every filtered record, including
  the unmatched ones without an `action`, and would mark the shared sample
  objects. `Recommend` and the lemmas about it describe the intended
  behaviour, where only triggered records are recommended.
- The 500 error branch and JSON serialisation (server.js:125-129). Nothing in
  the handler of server.js (server.js:73-125) can throw, and serialisation
  belongs to the framework.
- JavaScript number semantics. All sample values are small integers, so fields
  are `int`. Fields holding values of other JavaScript types, such as a numeric
  string compared with `<`, are not modelled.
- The sample locations are named constants (`MainSt` holds `"Main St"`, and so
  on) so that the proofs about the sample data stay small. Their values are the
  source's strings.
