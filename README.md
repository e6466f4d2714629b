# BacktestLoop in Dafny

This project models the replay scheduler of a backtesting library: the `BacktestLoop` class of
`src/Backtester.ts` and the series validator `isValidTimeseries` of `src/utils/validate.ts`.

A `BacktestLoop` holds a map from series type to series. Each series has its records, the name of
the timestamp field (`tsKey`), an `isComplete` flag and a `requestMoreData` flag. The loop also
holds a simulated clock, an optional step size, start and end bounds, two flags
(`isBacktestInitialised`, `isActive`) and a generator that drives the run. Each call of
`processNextTimeStep` steps every live series in map order and returns the batch of events it
produced; `runNextStep` calls it while some series is incomplete, then closes the run once.

Files:

- `types.dfy` (module `Types`): records, field values, series and events (from
  `src/lib/types/config.ts`). A converted timestamp is an `Instant`, either a number of
  milliseconds or `NaN`, and `SameInstant` is JavaScript's `===` on such numbers.
- `validate.dfy` (module `Validate`): `isValidTimeseries` as a predicate, with lemmas about it.
- `backtest_spec.dfy` (module `BacktestSpec`): the logic of the class as functions on values,
  with the lemmas that state its properties. This covers:
  - one series' step in each mode (`StepSeries`) and the batch of a whole map (`Batch`);
  - the bound tracking of `setStartTime`/`setEndTime`;
  - `Map.get`/`Map.set` on an insertion-ordered sequence;
  - the fold `setData` performs (`Ingest`);
  - worked scenarios.
- `backtester.dfy` (module `Backtester`): the class `BacktestLoop` itself. Its fields are updated
  in place by methods with loops, each proved against the functions of `BacktestSpec`. The rxjs
  subjects are replaced by two append-only ghost logs: `published` for batches and `statuses`
  for Open/Close.

The model follows the code on these points:

- **Validator call sites.** `start` and `setData` hand `isValidTimeseries` the bare `data` array,
  not the series. An array has no string `type`, so every series is rejected:
  - `setData` throws on the first series of any non-empty dataset;
  - `start` goes ahead only when the map is empty.

  The methods take the call-site shape as a parameter (`StartVia`, `SetDataVia`). `Start` and
  `SetData` are the code as written; `StartChecked` and `SetDataChecked` hand over the whole
  series (see Findings).
- **The end bound.** `setEndTime` keeps the smallest end seen, as `setStartTime` does for the
  start (`timestamp < this.testEndTimestamp`, src/Backtester.ts:89). Both treat 0 (also null and
  undefined) as unset, so a series starting at timestamp 0 leaves the start bound unset and the
  next series' start replaces it: the start bound depends on the order of the dataset.
- **Event-driven mode pushes the head record twice.** It is pushed once before the `while` loop
  and again by the loop's first iteration. A run of k equal timestamps gives k + 1 events.
- **Event-driven mode does not move the clock** and takes no minimum across series: every live
  series emits its own leading run in the same batch.
- **Stepped mode drops at most one late record per series per step.** A head whose timestamp
  does not convert (NaN) is never due and never late, so it blocks its series forever.

## Model

| member | source | states |
|---|---|---|
| `Types.SameInstant` | src/Backtester.ts:124 | defines JS `===` on converted timestamps: equal numbers are the same, and NaN is the same as nothing, not even itself (also line 139) |
| `Validate.Field` | src/utils/validate.ts:9 | defines `item[tsKey]`: the record's value under the key, or undefined when it has none |
| `Validate.IsTimestampValue` | src/utils/validate.ts:9-11 | defines the per-item test: the `tsKey` value is a number, or a string the date parser does not turn into NaN; a missing field fails |
| `Validate.IsValidTimeseries` | src/utils/validate.ts:3-13 | defines `isValidTimeseries`: false unless `type` is a string and `data` a non-empty array; then the `every` test of `IsTimestampValue` over the items |
| `Validate.RejectsNonStringType` | src/utils/validate.ts:4 | a stream whose `type` is not a string is rejected |
| `Validate.RejectsMissingOrEmptyData` | src/utils/validate.ts:4 | a stream with no `data` array, or an empty one, is rejected |
| `Validate.AcceptsExactlyTimestampedItems` | src/utils/validate.ts:8-12 | for a string type and non-empty data: accepted iff every item's `tsKey` value is a number or a string the date parser turns into a number |
| `Validate.OrderIrrelevant` | src/utils/validate.ts:8-12 | any rearrangement (same multiset) of the data gets the same verdict |
| `Validate.DescendingTimestampsAccepted` | src/utils/validate.ts:8-12 | a series with descending timestamps passes |
| `Validate.ReadsOnlyTimestampFields` | src/utils/validate.ts:3-13 | two streams that agree on whether `type` is a string, on the data length and on every item's `tsKey` field get the same verdict |
| `BacktestSpec.TimeOf` | src/Backtester.ts:120 | defines the step's timestamp conversion: a number as it is, a string through the date parser, NaN for a missing field (also line 137) |
| `BacktestSpec.ValidatorArg` | src/Backtester.ts:72 | defines what a call site hands the validator: as written, the bare array, which has no `type` and no `data`; corrected, the series with its `type` and `data` (the same holds at line 46) |
| `BacktestSpec.Accepted` | src/Backtester.ts:46 | defines the call site's check: `isValidTimeseries` of what the call site hands over, with the series' `tsKey` (the same call is at line 72) |
| `BacktestSpec.TimestampValueIffTimed` | src/Backtester.ts:120 | a record passes the validator's per-item test iff the step's conversion of its timestamp yields a number |
| `BacktestSpec.BareDataAlwaysRejected` | src/Backtester.ts:72 | handed the bare data array, the validator rejects every series |
| `BacktestSpec.WholeSeriesAcceptedIffTimed` | src/utils/validate.ts:3-13 | handed the whole series, the validator accepts exactly non-empty series whose every record has a readable timestamp |
| `BacktestSpec.AcceptedMeansTimed` | src/Backtester.ts:72-73 | a series the validator accepts has a first and a last record whose timestamps convert |
| `BacktestSpec.LeadingRun` | src/Backtester.ts:135-144 | the length of the longest prefix whose timestamps are `===` to the head's, and the record after it is not |
| `BacktestSpec.IsLive` | src/Backtester.ts:113 | defines the guard of the forEach callback: the series is not complete and has data left |
| `BacktestSpec.Settle` | src/Backtester.ts:147-150 | defines the completion check: a series with no data left that may not request more is marked complete, any other is left as it is |
| `BacktestSpec.SteppedHead` | src/Backtester.ts:122-129 | defines stepped mode's branches: a head `===` to the clock is emitted at the clock and removed, a head before the clock is removed, any other head is kept |
| `BacktestSpec.EventRun` | src/Backtester.ts:130-145 | event-driven mode removes exactly the leading run of k records stamped T and pushes k + 1 events: the head, then each removed record; T is a number iff k >= 1, and then the head is pushed twice |
| `BacktestSpec.StepSeries` | src/Backtester.ts:113-150 | a step keeps type, key and `requestMoreData`; never lengthens data; leaves a complete or empty series untouched; marks a processed series complete iff its data is empty and it may not request more; never reopens one |
| `BacktestSpec.SteppedSeriesStep` | src/Backtester.ts:122-129 | stepped mode: a due head is emitted stamped with the clock and removed, a late head is removed silently, an early or NaN head leaves the series unchanged |
| `BacktestSpec.EventDrivenSeriesStep` | src/Backtester.ts:130-145 | event-driven mode: the k leading records stamped T are removed, k + 1 events all stamped T are pushed, a remaining head is not T, the first two events are the head |
| `BacktestSpec.EventDrivenConsumes` | src/Backtester.ts:135-144 | event-driven mode: a live series with a readable head loses at least one record per step |
| `BacktestSpec.UnreadableHeadStalls` | src/Backtester.ts:120-145 | a live series whose head converts to NaN is left unchanged in both modes; event-driven mode emits that head at every step |
| `BacktestSpec.StepEach` | src/Backtester.ts:112-152 | defines the map after a step: each series replaced, in place and in map order, by its own step |
| `BacktestSpec.Batch` | src/Backtester.ts:112-152 | defines the batch of a step: the events of each series, concatenated in map order |
| `BacktestSpec.BatchPrefix` | src/Backtester.ts:112 | the batch of the first i + 1 series is the batch of the first i followed by series i's events |
| `BacktestSpec.BatchSplits` | src/Backtester.ts:112-152 | the batch of a map is the concatenation of its parts' batches, in insertion order |
| `BacktestSpec.SteppedBatch` | src/Backtester.ts:122-129 | a stepped batch has at most one event per series, every one stamped with the clock |
| `BacktestSpec.EventDrivenBatch` | src/Backtester.ts:130-145 | every event of an event-driven batch carries the type and head timestamp of some live series |
| `BacktestSpec.StepEachKeepsKeys` | src/Backtester.ts:112-152 | a step keeps the keys and their order and distinctness, leaves complete series alone, and does nothing when all series are complete |
| `BacktestSpec.NoLiveSeriesNoEvents` | src/Backtester.ts:113 | when no series is incomplete the batch is empty |
| `BacktestSpec.NextClock` | src/Backtester.ts:107-109 | defines the clock advance: by the step size in stepped mode, none otherwise |
| `BacktestSpec.AnyIncomplete` | src/Backtester.ts:169-174 | defines `hasMoreDataToProcess`: some series is not complete |
| `BacktestSpec.TrackMin` | src/Backtester.ts:82-92 | defines `setStartTime`/`setEndTime`: a bound that is 0 (unset) takes the value, otherwise the smaller of the two is kept |
| `BacktestSpec.TrackAllIsMinimum` | src/Backtester.ts:82-92 | fed non-zero values, the bound is the least of its start value (when set) and those values; a 0 unsets it (see `ZeroUnsetsTheBound`) |
| `BacktestSpec.ZeroUnsetsTheBound` | src/Backtester.ts:83 | a 0 fed to a bound that is unset or positive unsets it, so the next value replaces it even when larger; a negative bound is kept |
| `BacktestSpec.EndBoundKeepsEarliest` | src/Backtester.ts:88-92 | the end bound keeps the earliest end, not the latest |
| `BacktestSpec.Lookup` | src/Backtester.ts:177 | defines `Map.get`: the series stored under the key, or none |
| `BacktestSpec.MapSet` | src/Backtester.ts:74 | defines `Map.set`: a present key has its series replaced in place, a new key is appended at the end |
| `BacktestSpec.IndexOfType` | src/Backtester.ts:176-177 | the position of the first series stored under a key, or -1 when there is none |
| `BacktestSpec.LookupKeys` | src/Backtester.ts:176-178 | `Map.get` finds exactly the keys present, and what it finds is stored under that key |
| `BacktestSpec.MapSetSemantics` | src/Backtester.ts:74 | `Map.set` keeps keys distinct, maps the key to the new series, leaves every other key alone, and appends a new key at the end |
| `BacktestSpec.MapSetLookup` | src/Backtester.ts:74 | after `Map.set`, `Map.get` of the key yields the stored series, even when keys were not distinct |
| `BacktestSpec.FirstTime` | src/Backtester.ts:73 | defines the start `setData` hands on: the first record's timestamp, converted (line 96), of a series whose timestamps all convert |
| `BacktestSpec.LastTime` | src/Backtester.ts:73 | defines the end `setData` hands on: the last record's timestamp, converted (line 97), of a series whose timestamps all convert |
| `BacktestSpec.DetermineTimes` | src/Backtester.ts:94-101 | defines `determineStartAndEndTimes` on converted timestamps: in stepped mode both bounds are tracked and the clock put one step before the start bound; otherwise nothing changes |
| `BacktestSpec.AddSeries` | src/Backtester.ts:73-74 | defines one accepted series' effect: its bounds are tracked, then it is set, reopened, under its type |
| `BacktestSpec.AddAll` | src/Backtester.ts:70-78 | defines the effect of a run of accepted series: `AddSeries` of each, in dataset order |
| `BacktestSpec.Ingest` | src/Backtester.ts:69-80 | defines `setData`: the series before the first one the validator rejects are taken in, and the flag is false exactly when one is rejected (the call throws) |
| `BacktestSpec.FirstRejected` | src/Backtester.ts:70-77 | the index of the first series the validator rejects: all before it pass |
| `BacktestSpec.AddAllPrefix` | src/Backtester.ts:70-78 | taking in i + 1 series is taking in i and then series i |
| `BacktestSpec.IngestStopsAt` | src/Backtester.ts:72-77 | when series j is rejected, the series before it have been taken in and the call throws |
| `BacktestSpec.IngestAll` | src/Backtester.ts:69-80 | when every series is accepted, all are taken in and the call returns |
| `BacktestSpec.IngestBareData` | src/Backtester.ts:72 | as written, `setData` changes nothing and throws on any non-empty dataset |
| `BacktestSpec.IngestWholeSeries` | src/Backtester.ts:69-80 | handing over whole series, `setData` goes through iff every series has data with readable timestamps, and then takes in all of them |
| `BacktestSpec.StartAcceptance` | src/Backtester.ts:45-49 | as written, `start`'s check passes only for an empty map; handing over whole series, it passes iff every series has data with readable timestamps |
| `BacktestSpec.AddAllBounds` | src/Backtester.ts:69-101 | in stepped mode, after `setData` the start bound has tracked every first timestamp and the end bound every last one, and the clock sits one step before the start bound; without a step size neither bound nor the clock moves |
| `BacktestSpec.AddAllLast` | src/Backtester.ts:74 | taking in one more series sets it, reopened, into the map the earlier series left; the bound updates never touch the map |
| `BacktestSpec.AddAllStores` | src/Backtester.ts:69-80 | starting from distinct keys, keys stay distinct, every series that no later series of its type replaces is stored reopened under its type, and types the dataset does not mention keep their series |
| `BacktestSpec.StartBoundDependsOnOrder` | src/Backtester.ts:83 | a first timestamp of 0 reads as an unset start bound, so A = [t0, t2] before B = [t1] gives start 1 and clock 0, while B before A gives start 0 and clock -1 |
| `BacktestSpec.TwoSeriesStep` | src/Backtester.ts:112 | a two-series map steps as its series do, the first one's events first |
| `BacktestSpec.SteppedDue` | src/Backtester.ts:124-126 | a fresh series whose head is due is emitted and shortened, and completes when nothing is left |
| `BacktestSpec.SteppedEarly` | src/Backtester.ts:122-129 | a fresh series whose head is ahead of the clock is left as it was |
| `BacktestSpec.SteppedThreeTicks` | src/Backtester.ts:103-159 | A = [t0, t2], B = [t1], step 1, from clock -1 (`setData` of A then B leaves clock 0 instead, since t0 reads as unset; see `StartBoundDependsOnOrder`): batches [A@0], [B@1], [A@2], then both series are complete |
| `BacktestSpec.EventDrivenHeadTwice` | src/Backtester.ts:130-145 | A = [t5, t5], B = [t5], event-driven: one batch of five events, all at 5, each head twice, and both series complete |
| `BacktestSpec.EventDrivenMixesTimestamps` | src/Backtester.ts:130-145 | event-driven heads at 1 and 2 are emitted in the same batch |
| `Backtester.WithProperty` | src/Backtester.ts:165 | writing one flag of a series changes that flag alone |
| `Backtester.BacktestLoop.constructor` | src/Backtester.ts:10-29 | a new loop has an empty map, unset bounds, the given clock, both flags false, no generator and empty logs |
| `Backtester.BacktestLoop.StartVia` | src/Backtester.ts:39-54 | `start` changes nothing when already started or when a series is rejected; otherwise it logs Open and sets both flags |
| `Backtester.BacktestLoop.Start` | src/Backtester.ts:39-54 | as written, `start` opens only over an empty map |
| `Backtester.BacktestLoop.StartChecked` | src/Backtester.ts:39-54 | handing over whole series, `start` opens iff every series has data with readable timestamps |
| `Backtester.BacktestLoop.Terminate` | src/Backtester.ts:56-59 | `terminate` empties the map, unsets both bounds, clears both flags and logs Close; the clock and the generator stay as they were |
| `Backtester.BacktestLoop.ClearState` | src/Backtester.ts:61-67 | `clearState` empties the map, unsets both bounds and clears both flags |
| `Backtester.BacktestLoop.SetDataVia` | src/Backtester.ts:69-80 | the state after `setData` is `Ingest` of the old state; `ok` is false exactly when the call throws; keys stay distinct |
| `Backtester.BacktestLoop.SetData` | src/Backtester.ts:69-80 | as written: succeeds only on an empty dataset and never changes the state |
| `Backtester.BacktestLoop.SetDataChecked` | src/Backtester.ts:69-80 | handing over whole series: succeeds iff every series is ingestible, and then the state is the fold of `AddSeries` over the dataset; on a throw the state is the fold over the series before the first rejected one |
| `Backtester.BacktestLoop.SetStartTime` | src/Backtester.ts:82-86 | the start bound becomes the value when unset or larger, and nothing else changes |
| `Backtester.BacktestLoop.SetEndTime` | src/Backtester.ts:88-92 | the end bound becomes the value when unset or larger, and nothing else changes |
| `Backtester.BacktestLoop.DetermineStartAndEndTimes` | src/Backtester.ts:94-101 | in stepped mode both bounds are tracked and the clock set one step before the start bound; otherwise nothing changes |
| `Backtester.BacktestLoop.ProcessSeries` | src/Backtester.ts:113-151 | the callback's loop leaves the series and pushes the events `StepSeries` describes |
| `Backtester.BacktestLoop.ProcessAllSeries` | src/Backtester.ts:112-152 | the `forEach` replaces each series by its step and collects the batch in map order |
| `Backtester.BacktestLoop.ProcessNextTimeStep` | src/Backtester.ts:103-159 | the clock advances by the step size only in stepped mode; the map becomes its step; the batch is returned, and published only when non-empty |
| `Backtester.BacktestLoop.UpdateTimeseriesProperty` | src/Backtester.ts:161-167 | the series under the type, if any, takes the new flag value in its place; an absent type changes nothing |
| `Backtester.BacktestLoop.HasMoreDataToProcess` | src/Backtester.ts:169-174 | true iff some series is not complete |
| `Backtester.BacktestLoop.GetTimeseries` | src/Backtester.ts:176-178 | returns a series stored under the type, and none exactly when the type is not a key |
| `Backtester.BacktestLoop.RunNextStep` | src/Backtester.ts:180-196 | returns null before start; once finished, returns undefined and changes nothing; otherwise steps while a series is incomplete, and when none is, clears `isActive`, logs Close once and finishes |

## Left out

- The rxjs subjects and their observables (`timeseriesEvents`, `status`): replaced by the ghost logs `published` and `statuses`. Subscription and delivery are not modelled.
- `console.warn` in `start`: logging only.
- The wall clock that initialises `currentSimulationTime`: it is a constructor parameter.
- Date conversion: `Date.parse`, `new Date(...).getTime()` and date-fns `parseISO` (in `src/utils/normalise.ts`) are one parser parameter. `setData` converts bounds with `parseISO`, whereas the validator and the step use the built-in parser; the model does not distinguish them.
- JavaScript numbers: timestamps and the step size are integers. NaN appears only as a failed conversion. Infinity, fractional values and floating-point rounding are not modelled.
- Aliasing: the source stores the caller's `data` arrays in the map and shifts them in place, so the caller's dataset changes too. Two dataset entries handed the same `data` array share it, so one series' `shift()` also shortens the other. The model keeps series as values, so the caller's copy is unaffected and every series owns its data.
- `Backtester.BacktestLoop.GetTimeseries`: returns a copy of the series, not a reference through which the caller could mutate the map.
- `Backtester.BacktestLoop.UpdateTimeseriesProperty`: models only the two boolean fields `isComplete` and `requestMoreData`. It does not model writing an arbitrary field name with an arbitrary value.
- The `cursor` field of a series is carried by the source but never read. The model drops it.
- The constructor's `config`: only `stepSize` is kept. `startTime`, `endTime` and `timeseries` of the config are never read by the loop.
- The event `type` fallback (`timeseries.type ?? record.type ?? 'unknown'`): every series in the model has a string type, so the fallback never applies.
- The validator's `type` value: a non-string `type` is modelled as undefined or a number. Other JavaScript values are not modelled.
- Generator mechanics: replaced by `Phase`. `terminate` does not reset the generator, as in the source, so a finished run stays finished after a restart.
- `src/lib/types/events.ts` is not part of this model: it declares exchange types with no logic.

## Findings

| source | as written | input that shows it | evidently intended | confidence | as-written member | corrected member |
|---|---|---|---|---|---|---|
| src/Backtester.ts:72 | `setData` passes `timeseries?.data` (a bare array) to `isValidTimeseries`, which reads `.type` and `.data` of its argument | a dataset holding one series with type "A", tsKey "t" and data [{t: 0}]: `setData` throws | pass the series object, so a well-formed series is accepted | not executed | `BacktestSpec.IngestBareData` | `Backtester.BacktestLoop.SetDataChecked` |
| src/Backtester.ts:46 | `start` passes `timeseries.data` to `isValidTimeseries` in the same way | shows only once line 72 stores series (as `SetDataChecked` does): a map holding one well-formed series makes `start` return without opening, so `runNextStep` keeps returning null; with line 72 as written the map stays empty and `start` always opens | pass the series object, so `start` opens over well-formed series | not executed | `Backtester.BacktestLoop.Start` | `Backtester.BacktestLoop.StartChecked` |
