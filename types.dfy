/** The records, series and events the backtest loop works on (src/lib/types/config.ts). */
module Types {

  datatype Option<+T> = None | Some(value: T)

  /** A field value of a data record: a JS number (integers only in this model) or a string. */
  datatype Value = Num(n: int) | Str(s: string)

  /** IFlexibleTimeData: a record whose fields are looked up by name. */
  type Record = map<string, Value>

  /** The JS number a timestamp conversion yields: a count of milliseconds, or NaN when
      the value is missing or is a string that does not parse as a date. */
  datatype Instant = At(ms: int) | NaN

  /** JS `===` on two such numbers: NaN is equal to nothing, not even to itself. */
  predicate SameInstant(a: Instant, b: Instant) {
    a.At? && b.At? && a.ms == b.ms
  }

  /** `Date.parse(s)`, equally `new Date(s).getTime()`: the date library is outside the model,
      so the parser is a parameter. */
  type DateParser = string -> Instant

  /** ITimeseries without its unused `cursor`. The loop's map key is `seriesType`. */
  datatype Series = Series(
    seriesType: string,
    data: seq<Record>,
    tsKey: string,
    isComplete: bool,
    requestMoreData: bool)

  /** ITimeSeriesEvent: the record `data` of series `seriesType`, stamped `timestamp`. */
  datatype Event = Event(timestamp: Instant, seriesType: string, data: Record)
}
