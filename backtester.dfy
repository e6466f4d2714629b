/** The BacktestLoop class of src/Backtester.ts: the series map, the simulated clock, the two
    flags and the run driver, updated in place by its methods. The rxjs streams are ghost logs. */
module Backtester {
  import opened Types
  import opened Validate
  import opened BacktestSpec

  /** The values the status stream carries (IBacktestStatus). */
  datatype Status = Open | Close

  /** Where the run generator stands: not yet created, suspended at its yield, or returned. */
  datatype Phase = NotCreated | Suspended | Finished

  /** What runNextStep returns: null before start, the batch a yield hands out, or the
      undefined value of a generator that has returned. */
  datatype StepResult = Null | Yielded(events: seq<Event>) | Undefined

  /** The fields updateTimeseriesProperty can write in this model. */
  datatype Property = IsComplete | RequestMoreData

  function WithProperty(s: Series, field: Property, value: bool): (r: Series)
    ensures r.seriesType == s.seriesType && r.data == s.data && r.tsKey == s.tsKey
    ensures field == IsComplete ==> r.isComplete == value && r.requestMoreData == s.requestMoreData
    ensures field == RequestMoreData ==> r.requestMoreData == value && r.isComplete == s.isComplete
  {
    match field
    case IsComplete => s.(isComplete := value)
    case RequestMoreData => s.(requestMoreData := value)
  }

  class BacktestLoop {
    /** config.stepSize; 0 when it is not set. */
    const stepSize: int
    /** The date conversion timestamps go through. */
    const parse: DateParser

    /** The series map, in insertion order. */
    var timeseries: seq<Series>
    /** 0 stands for null and undefined. */
    var testStartTimestamp: int
    var testEndTimestamp: int
    var currentSimulationTime: int
    var isBacktestInitialised: bool
    var isActive: bool
    var phase: Phase
    /** Every batch pushed to timeseriesEvents, oldest first. */
    ghost var published: seq<seq<Event>>
    /** Every value pushed to status, oldest first. */
    ghost var statuses: seq<Status>

    /** The map holds one series per type. */
    ghost predicate Valid()
      reads this
    {
      DistinctTypes(timeseries)
    }

    /** The part of the state setData writes. */
    function SetupState(): Setup
      reads this
    {
      Setup(timeseries, testStartTimestamp, testEndTimestamp, currentSimulationTime)
    }

    /** `now` is the wall-clock time the clock starts from. */
    constructor (stepSize: int, now: int, parse: DateParser)
      ensures Valid()
      ensures this.stepSize == stepSize && this.parse == parse
      ensures timeseries == [] && testStartTimestamp == 0 && testEndTimestamp == 0
      ensures currentSimulationTime == now
      ensures !isBacktestInitialised && !isActive && phase == NotCreated
      ensures published == [] && statuses == []
    {
      this.stepSize := stepSize;
      this.parse := parse;
      timeseries := [];
      testStartTimestamp := 0;
      testEndTimestamp := 0;
      currentSimulationTime := now;
      isBacktestInitialised := false;
      isActive := false;
      phase := NotCreated;
      published := [];
      statuses := [];
    }

    /** start, with the validator handed `input`: nothing happens when the loop has already
        started or some series is turned down; otherwise it opens. */
    method StartVia(input: ValidatorInput)
      modifies this`isBacktestInitialised, this`isActive, this`statuses
      ensures old(isBacktestInitialised) || !AllAccepted(timeseries, input, parse) ==> unchanged(this)
      ensures !old(isBacktestInitialised) && AllAccepted(timeseries, input, parse) ==>
                isBacktestInitialised && isActive && statuses == old(statuses) + [Open]
    {
      if isBacktestInitialised {
        return;
      }
      for i := 0 to |timeseries|
        invariant forall j :: 0 <= j < i ==> Accepted(timeseries[j], input, parse)
      {
        var s := timeseries[i];
        if !IsValidTimeseries(ValidatorArg(s, input), s.tsKey, parse) {
          return;
        }
      }
      statuses := statuses + [Open];
      isBacktestInitialised := true;
      isActive := true;
    }

    /** start as written: it opens only over an empty map. */
    method Start()
      modifies this`isBacktestInitialised, this`isActive, this`statuses
      ensures old(isBacktestInitialised) || timeseries != [] ==> unchanged(this)
      ensures !old(isBacktestInitialised) && timeseries == [] ==>
                isBacktestInitialised && isActive && statuses == old(statuses) + [Open]
    {
      StartAcceptance(timeseries, parse);
      StartVia(BareData);
    }

    /** start with the validator handed each whole series: it opens when every series has data
        whose timestamps can all be read. */
    method StartChecked()
      modifies this`isBacktestInitialised, this`isActive, this`statuses
      ensures var ready := forall i :: 0 <= i < |timeseries| ==> Ingestible(timeseries[i], parse);
              && (old(isBacktestInitialised) || !ready ==> unchanged(this))
              && (!old(isBacktestInitialised) && ready ==>
                    isBacktestInitialised && isActive && statuses == old(statuses) + [Open])
    {
      StartAcceptance(timeseries, parse);
      StartVia(WholeSeries);
    }

    /** terminate: clearState, then close. */
    method Terminate()
      modifies this`timeseries, this`isBacktestInitialised, this`testStartTimestamp, this`testEndTimestamp
      modifies this`isActive, this`statuses
      ensures Valid()
      ensures timeseries == [] && testStartTimestamp == 0 && testEndTimestamp == 0
      ensures !isBacktestInitialised && !isActive
      ensures statuses == old(statuses) + [Close]
    {
      ClearState();
      statuses := statuses + [Close];
    }

    method ClearState()
      modifies this`timeseries, this`isBacktestInitialised, this`testStartTimestamp, this`testEndTimestamp
      modifies this`isActive
      ensures timeseries == [] && testStartTimestamp == 0 && testEndTimestamp == 0
      ensures !isBacktestInitialised && !isActive
    {
      timeseries := [];
      isBacktestInitialised := false;
      testStartTimestamp := 0;
      testEndTimestamp := 0;
      isActive := false;
    }

    /** setData, with the validator handed `input`. `ok` is false when the call throws, after the
        series before the one turned down have been taken in. */
    method SetDataVia(dataset: seq<Series>, input: ValidatorInput) returns (ok: bool)
      requires Valid()
      modifies this`timeseries, this`testStartTimestamp, this`testEndTimestamp, this`currentSimulationTime
      ensures Valid()
      ensures (SetupState(), ok) == Ingest(old(SetupState()), dataset, input, stepSize, parse)
    {
      ghost var st := SetupState();
      for i := 0 to |dataset|
        invariant forall j :: 0 <= j < i ==> Accepted(dataset[j], input, parse)
        invariant forall j :: 0 <= j < i ==> Ingestible(dataset[j], parse)
        invariant SetupState() == AddAll(st, dataset[..i], stepSize, parse)
        invariant Valid()
      {
        var s := dataset[i];
        if !IsValidTimeseries(ValidatorArg(s, input), s.tsKey, parse) {
          IngestStopsAt(st, dataset, i, input, stepSize, parse);
          return false;
        }
        AcceptedMeansTimed(s, input, parse);
        AddAllPrefix(st, dataset, i, stepSize, parse);
        DetermineStartAndEndTimes(TimeOf(s.data[0], s.tsKey, parse).ms, TimeOf(s.data[|s.data| - 1], s.tsKey, parse).ms);
        MapSetSemantics(timeseries, s.(isComplete := false));
        timeseries := MapSet(timeseries, s.(isComplete := false));
      }
      assert dataset[..|dataset|] == dataset;
      IngestAll(st, dataset, input, stepSize, parse);
      return true;
    }

    /** setData as written: it throws on any non-empty dataset and changes nothing. */
    method SetData(dataset: seq<Series>) returns (ok: bool)
      requires Valid()
      modifies this`timeseries, this`testStartTimestamp, this`testEndTimestamp, this`currentSimulationTime
      ensures ok <==> dataset == []
      ensures unchanged(this)
    {
      IngestBareData(SetupState(), dataset, stepSize, parse);
      ok := SetDataVia(dataset, BareData);
    }

    /** setData with the validator handed each whole series: it goes through exactly when every
        series can be taken in, and then the state is the fold of AddSeries over the dataset. */
    method SetDataChecked(dataset: seq<Series>) returns (ok: bool)
      requires Valid()
      modifies this`timeseries, this`testStartTimestamp, this`testEndTimestamp, this`currentSimulationTime
      ensures Valid()
      ensures (SetupState(), ok) == Ingest(old(SetupState()), dataset, WholeSeries, stepSize, parse)
      ensures ok <==> forall i :: 0 <= i < |dataset| ==> Ingestible(dataset[i], parse)
      ensures ok ==> SetupState() == AddAll(old(SetupState()), dataset, stepSize, parse)
    {
      IngestWholeSeries(SetupState(), dataset, stepSize, parse);
      ok := SetDataVia(dataset, WholeSeries);
    }

    method SetStartTime(timestamp: int)
      modifies this`testStartTimestamp
      ensures testStartTimestamp == TrackMin(old(testStartTimestamp), timestamp)
    {
      if testStartTimestamp == 0 || timestamp < testStartTimestamp {
        testStartTimestamp := timestamp;
      }
    }

    method SetEndTime(timestamp: int)
      modifies this`testEndTimestamp
      ensures testEndTimestamp == TrackMin(old(testEndTimestamp), timestamp)
    {
      if testEndTimestamp == 0 || timestamp < testEndTimestamp {
        testEndTimestamp := timestamp;
      }
    }

    /** determineStartAndEndTimes, given the two timestamps already converted. */
    method DetermineStartAndEndTimes(start: int, end: int)
      modifies this`testStartTimestamp, this`testEndTimestamp, this`currentSimulationTime
      ensures SetupState() == DetermineTimes(old(SetupState()), start, end, stepSize)
    {
      if stepSize != 0 {
        SetStartTime(start);
        SetEndTime(end);
        currentSimulationTime := testStartTimestamp - stepSize;
      }
    }

    /** The forEach callback of processNextTimeStep on one series: the series it leaves and the
        events it pushes. */
    method ProcessSeries(s: Series) returns (next: Series, events: seq<Event>)
      ensures (next, events) == StepSeries(s, stepSize, currentSimulationTime, parse)
    {
      next, events := s, [];
      if !s.isComplete && |s.data| > 0 {
        var head := s.data[0];
        var t := TimeOf(head, s.tsKey, parse);
        var data := s.data;
        if stepSize != 0 {
          if SameInstant(t, At(currentSimulationTime)) {
            events := [Event(At(currentSimulationTime), s.seriesType, head)];
            data := data[1..];
          } else if t.At? && currentSimulationTime > t.ms {
            data := data[1..];
          }
        } else {
          events := [Event(t, s.seriesType, head)];
          ghost var n := 0;
          while |data| > 0
            invariant n <= LeadingRun(s.data, s.tsKey, parse, t)
            invariant data == s.data[n..]
            invariant events == [Event(t, s.seriesType, head)] + Stamp(s.seriesType, t, s.data[..n])
          {
            var nextTime := TimeOf(data[0], s.tsKey, parse);
            if !SameInstant(nextTime, t) {
              break;
            }
            assert Stamp(s.seriesType, t, s.data[..n + 1]) == Stamp(s.seriesType, t, s.data[..n]) + [Event(t, s.seriesType, s.data[n])];
            events := events + [Event(nextTime, s.seriesType, data[0])];
            data := data[1..];
            n := n + 1;
          }
          assert n == LeadingRun(s.data, s.tsKey, parse, t);
        }
        next := s.(data := data);
        if |data| == 0 && !s.requestMoreData {
          next := next.(isComplete := true);
        }
      }
    }

    /** The forEach of processNextTimeStep: every series of `ss`, in map order, replaced by what
        the callback leaves of it, and the events the callbacks push, in the order they push them. */
    method ProcessAllSeries(ss: seq<Series>) returns (next: seq<Series>, events: seq<Event>)
      ensures next == StepEach(ss, stepSize, currentSimulationTime, parse)
      ensures events == Batch(ss, stepSize, currentSimulationTime, parse)
    {
      next, events := ss, [];
      for i := 0 to |ss|
        invariant |next| == |ss|
        invariant forall j :: 0 <= j < i ==> next[j] == StepSeries(ss[j], stepSize, currentSimulationTime, parse).0
        invariant forall j :: i <= j < |ss| ==> next[j] == ss[j]
        invariant events == Batch(ss[..i], stepSize, currentSimulationTime, parse)
      {
        var s, contribution := ProcessSeries(next[i]);
        BatchPrefix(ss, i, stepSize, currentSimulationTime, parse);
        next := next[i := s];
        events := events + contribution;
      }
      assert ss[..|ss|] == ss;
    }

    /** processNextTimeStep: advance the clock in stepped mode, step every series in map order,
        publish the batch when it is not empty, and return it. */
    method ProcessNextTimeStep() returns (events: seq<Event>)
      requires Valid()
      modifies this`currentSimulationTime, this`timeseries, this`published
      ensures Valid()
      ensures currentSimulationTime == NextClock(old(currentSimulationTime), stepSize)
      ensures timeseries == StepEach(old(timeseries), stepSize, currentSimulationTime, parse)
      ensures events == Batch(old(timeseries), stepSize, currentSimulationTime, parse)
      ensures published == if events == [] then old(published) else old(published) + [events]
    {
      if stepSize != 0 {
        currentSimulationTime := currentSimulationTime + stepSize;
      }
      StepEachKeepsKeys(timeseries, stepSize, currentSimulationTime, parse);
      timeseries, events := ProcessAllSeries(timeseries);
      if |events| > 0 {
        published := published + [events];
      }
    }

    /** updateTimeseriesProperty for the two flags: the series under `seriesType`, if any, takes
        the new value in its place; nothing else changes. */
    method UpdateTimeseriesProperty(seriesType: string, field: Property, value: bool)
      requires Valid()
      modifies this`timeseries
      ensures Valid()
      ensures timeseries == match Lookup(old(timeseries), seriesType)
                            case None => old(timeseries)
                            case Some(s) => MapSet(old(timeseries), WithProperty(s, field, value))
    {
      var i := IndexOfType(timeseries, seriesType);
      if i >= 0 {
        var s := WithProperty(timeseries[i], field, value);
        MapSetSemantics(timeseries, s);
        timeseries := timeseries[i := s];
      }
    }

    /** hasMoreDataToProcess. */
    method HasMoreDataToProcess() returns (more: bool)
      ensures more <==> AnyIncomplete(timeseries)
    {
      for i := 0 to |timeseries|
        invariant forall j :: 0 <= j < i ==> timeseries[j].isComplete
      {
        if !timeseries[i].isComplete {
          return true;
        }
      }
      return false;
    }

    /** getTimeseries: the series stored under `seriesType`. */
    function GetTimeseries(seriesType: string): (r: Option<Series>)
      reads this
      ensures r.Some? ==> r.value in timeseries && r.value.seriesType == seriesType
      ensures r.None? <==> seriesType !in Keys(timeseries)
    {
      LookupKeys(timeseries, seriesType);
      Lookup(timeseries, seriesType)
    }

    /** runNextStep, with backtestGenerator's loop unrolled one resumption at a time. */
    method RunNextStep() returns (r: StepResult)
      requires Valid()
      modifies this`currentSimulationTime, this`timeseries, this`published
      modifies this`isActive, this`statuses, this`phase
      ensures Valid()
      ensures !isBacktestInitialised ==> r == Null && unchanged(this)
      ensures isBacktestInitialised && old(phase) == Finished ==> r == Undefined && unchanged(this)
      ensures isBacktestInitialised && old(phase) != Finished && old(AnyIncomplete(timeseries)) ==>
                && r == Yielded(Batch(old(timeseries), stepSize, currentSimulationTime, parse))
                && currentSimulationTime == NextClock(old(currentSimulationTime), stepSize)
                && timeseries == StepEach(old(timeseries), stepSize, currentSimulationTime, parse)
                && published == (if r.events == [] then old(published) else old(published) + [r.events])
                && phase == Suspended && isActive == old(isActive) && statuses == old(statuses)
      ensures isBacktestInitialised && old(phase) != Finished && !old(AnyIncomplete(timeseries)) ==>
                && r == Undefined && phase == Finished && !isActive && statuses == old(statuses) + [Close]
                && SetupState() == old(SetupState()) && published == old(published)
    {
      if !isBacktestInitialised {
        return Null;
      }
      if phase == Finished {
        return Undefined;
      }
      var more := HasMoreDataToProcess();
      if more {
        phase := Suspended;
        var events := ProcessNextTimeStep();
        return Yielded(events);
      }
      isActive := false;
      statuses := statuses + [Close];
      phase := Finished;
      return Undefined;
    }
  }
}
