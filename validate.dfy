/** The series validator of src/utils/validate.ts. */
module Validate {
  import opened Types

  /** The argument `isValidTimeseries` reads: the values of its `type` and `data` properties.
      `None` is `undefined`; a `dataField` that is `Some` is an array. */
  datatype Stream = Stream(typeField: Option<Value>, dataField: Option<seq<Record>>)

  /** `item[key]`, `undefined` when the record has no such field. */
  function Field(r: Record, key: string): Option<Value> {
    if key in r then Some(r[key]) else None
  }

  /** The per-item test: a number, or a value `Date.parse` does not turn into NaN
      (`Date.parse(undefined)` is NaN). */
  predicate IsTimestampValue(v: Option<Value>, parse: DateParser) {
    match v
    case Some(Num(_)) => true
    case Some(Str(s)) => parse(s).At?
    case None => false
  }

  /** isValidTimeseries(timeseries, tsKey). */
  predicate IsValidTimeseries(ts: Stream, tsKey: string, parse: DateParser) {
    if !(ts.typeField.Some? && ts.typeField.value.Str?) || ts.dataField.None? || |ts.dataField.value| == 0 then
      false
    else
      forall i :: 0 <= i < |ts.dataField.value| ==> IsTimestampValue(Field(ts.dataField.value[i], tsKey), parse)
  }

  lemma RejectsNonStringType(ts: Stream, tsKey: string, parse: DateParser)
    requires !(ts.typeField.Some? && ts.typeField.value.Str?)
    ensures !IsValidTimeseries(ts, tsKey, parse)
  {
  }

  lemma RejectsMissingOrEmptyData(ts: Stream, tsKey: string, parse: DateParser)
    requires ts.dataField.None? || ts.dataField.value == []
    ensures !IsValidTimeseries(ts, tsKey, parse)
  {
  }

  /** For a string `type` and a non-empty array, the verdict is "every item has a timestamp". */
  lemma AcceptsExactlyTimestampedItems(seriesType: string, data: seq<Record>, tsKey: string, parse: DateParser)
    requires |data| > 0
    ensures IsValidTimeseries(Stream(Some(Str(seriesType)), Some(data)), tsKey, parse)
            <==> forall r :: r in data ==> IsTimestampValue(Field(r, tsKey), parse)
  {
    if forall i :: 0 <= i < |data| ==> IsTimestampValue(Field(data[i], tsKey), parse) {
      forall r | r in data ensures IsTimestampValue(Field(r, tsKey), parse) {
        var i :| 0 <= i < |data| && data[i] == r;
      }
    }
  }

  /** Record order is never examined: any rearrangement of the data gets the same verdict. */
  lemma OrderIrrelevant(typeField: Option<Value>, d1: seq<Record>, d2: seq<Record>, tsKey: string, parse: DateParser)
    requires multiset(d1) == multiset(d2)
    ensures IsValidTimeseries(Stream(typeField, Some(d1)), tsKey, parse)
        == IsValidTimeseries(Stream(typeField, Some(d2)), tsKey, parse)
  {
    assert |d1| == |multiset(d1)| == |multiset(d2)| == |d2|;
    if IsValidTimeseries(Stream(typeField, Some(d1)), tsKey, parse) {
      PassesOnRearrangement(d1, d2, tsKey, parse);
    }
    if IsValidTimeseries(Stream(typeField, Some(d2)), tsKey, parse) {
      PassesOnRearrangement(d2, d1, tsKey, parse);
    }
  }

  lemma PassesOnRearrangement(d1: seq<Record>, d2: seq<Record>, tsKey: string, parse: DateParser)
    requires multiset(d1) == multiset(d2)
    requires forall i :: 0 <= i < |d1| ==> IsTimestampValue(Field(d1[i], tsKey), parse)
    ensures forall j :: 0 <= j < |d2| ==> IsTimestampValue(Field(d2[j], tsKey), parse)
  {
    forall j | 0 <= j < |d2| ensures IsTimestampValue(Field(d2[j], tsKey), parse) {
      assert d2[j] in multiset(d1);
      var i :| 0 <= i < |d1| && d1[i] == d2[j];
    }
  }

  /** Descending timestamps still validate. */
  lemma DescendingTimestampsAccepted(parse: DateParser)
    ensures IsValidTimeseries(Stream(Some(Str("candles")), Some([map["t" := Num(2)], map["t" := Num(1)]])), "t", parse)
  {
    assert Field(map["t" := Num(2)], "t") == Some(Num(2));
    assert Field(map["t" := Num(1)], "t") == Some(Num(1));
  }

  /** The verdict reads only whether `type` is a string, the array's length and each item's `tsKey` field. */
  lemma ReadsOnlyTimestampFields(s1: Stream, s2: Stream, tsKey: string, parse: DateParser)
    requires (s1.typeField.Some? && s1.typeField.value.Str?) == (s2.typeField.Some? && s2.typeField.value.Str?)
    requires s1.dataField.Some? == s2.dataField.Some?
    requires s1.dataField.Some? ==> |s1.dataField.value| == |s2.dataField.value|
    requires s1.dataField.Some? ==> forall i :: 0 <= i < |s1.dataField.value| ==>
               Field(s1.dataField.value[i], tsKey) == Field(s2.dataField.value[i], tsKey)
    ensures IsValidTimeseries(s1, tsKey, parse) == IsValidTimeseries(s2, tsKey, parse)
  {
  }
}
