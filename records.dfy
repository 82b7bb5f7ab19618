/**
 * The records of the sample data store and the annotated objects the rule
 * engine produces from them.
 */
module Records {
  import opened Wrappers

  /**
   * One item of the traffic, accident or road-condition collection. Each kind
   * carries only its own fields; every kind carries a location, which is free
   * text matched by exact, case-sensitive equality.
   */
  datatype Record =
    | Traffic(speed: int, volume: int, location: string)
    | Accident(severity: int, location: string)
    | Road(condition: string, location: string)

  /**
   * A record as the rule engine sees it: the record's own fields together with
   * the `result` and `action` properties a consequence may set. `None` stands
   * for a property that was never assigned (`undefined`).
   */
  datatype Fact = Fact(record: Record, result: Option<string>, action: Option<string>)

  /** A record before any rule has annotated it. */
  function Fresh(rec: Record): Fact
  {
    Fact(rec, None, None)
  }

  /**
   * JavaScript truthiness of a property that holds a string or is undefined:
   * `undefined` and the empty string are falsy, every other string is truthy.
   */
  predicate Truthy(p: Option<string>)
  {
    p.Some? && p.value != ""
  }
}
