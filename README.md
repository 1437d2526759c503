# Predictive computation scheduling — a Dafny model

This project models the decision logic of a small predictive-scheduling
pipeline. The pipeline synthesises CPU-usage history, derives calendar
features and a four-class usage label, and splits the history for training
with balanced class weights. It then builds a seven-day forecast frame of
15-minute slots and turns each predicted slot into one-shot start/stop
computation jobs. A computation controller starts and stops a background
task, and a computation manager keeps the current calculation and an
append-only history.

Modules:

- `Calendar` (calendar.dfy): instants are whole minutes since 1970-01-01 00:00. It defines the hour, minute and day-of-week fields pandas reads from a timestamp.
- `Data` (data.dfy): the usage-data synthesiser of `data.py`.
- `DataPreparation` (data_preparation.dfy): `prepare_data`, `train_model` up to the classifier's `fit`, and `predict_future_usage`.
- `Scheduler` (scheduler.dfy): `schedule_computations`, the job ids and the job store.
- `Simulation` (simulation.dfy): the controller's start/stop state machine and its per-iteration delay.
- `Manager` (manager.dfy): `ComputationManager` of `main.py`.
- `Wrappers` (wrappers.dfy): `Option` and `Result`.

Inputs that the model takes as parameters:

- The random draw: `noise(i)` is the i-th standard normal value, and `np.random.normal(mean, sd)` is `mean + sd * noise(i)`.
- The trained classifier: a function from the four feature columns to a class in 0..3.

The synthesiser's date range runs from 2023-07-01 00:00 to 2023-09-30 00:00
inclusive: 91 days of 96 slots plus the closing boundary, 8737 records
(`Data.SummerRangeSize`).

## Model

| member | source | states |
|---|---|---|
| `Calendar.Hour` | data_preparation.py:22 | the hour field of any instant is in 0..23 |
| `Calendar.Minute` | data_preparation.py:23 | the minute field of any instant is in 0..59 |
| `Calendar.DayOfWeek` | data_preparation.py:24 | the weekday (Monday = 0) of any instant is in 0..6 |
| `Calendar.Midnight` | data.py:7-8 | a day's midnight has hour 0, minute 0 and the weekday counted from the 1970-01-01 Thursday |
| `Calendar.ClockFields` | data_preparation.py:26 | hour·60 + minute is the number of minutes since midnight |
| `Calendar.QuarterHourStep` | data.py:9-12 | stepping by 15 minutes keeps an instant on a quarter hour |
| `Calendar.July1st2023IsSaturday` | data.py:7 | the first synthesised sample falls on a weekend day (Saturday, 5) |
| `Data.BucketOf` | data.py:25-46 | the bucket is a weekend one exactly on days 5 and 6; work hours exactly on weekdays from 9 to 16; weekend daytime exactly on weekend hours 10 to 23 |
| `Data.Params` | data.py:29-46 | every bucket's mean lies in (0, 100) and its standard deviation is positive and below the mean |
| `Data.Draw` | data.py:29-46 | a zero draw gives the mean; with a positive deviation the sample is above the mean exactly when the draw is positive |
| `Data.Clamp` | data.py:49 | the clamped usage is in [0,100], equal to the sample when it is in range, 0 below and 100 above |
| `Data.ClampIdempotent` | data.py:49 | clamping twice is clamping once |
| `Data.ActivityStatus` | data.py:51-59 | the status is one of the four names; "Idle" exactly below 10 and "Very High Usage" exactly from 75 |
| `Data.RecordAt` | data.py:17-68 | a record keeps its timestamp, its usage is in [0,100], its status names that usage, and a zero draw gives its bucket's mean |
| `Data.SlotCount` | data.py:12 | the range is non-empty exactly when start ≤ end |
| `Data.DateRange` | data.py:12 | the range starts at the start instant, steps by exactly 15 minutes, stays within [start, end] and ends less than 15 minutes before the end |
| `Data.GenerateUsageData` | data.py:17-68 | one record per 15-minute boundary, in order, each the bucket's draw clamped to [0,100] and labelled; timestamps strictly increase from start to the last boundary ≤ end |
| `Data.RecordsFollowRange` | data.py:12-17 | records laid on the date range have usage in [0,100] and strictly increasing timestamps, the first at the start and the last within 15 minutes before the end |
| `Data.WeekdayBuckets` | data.py:26-38 | on weekdays hours 9–16 are work, 17–21 evening, exactly 8 and 22 are transition, 23 and 0–7 are night |
| `Data.WeekendBuckets` | data.py:39-46 | weekend days split at hour 10: 10–23 daytime, 0–9 early morning |
| `Data.ParamsInjective` | data.py:29-46 | the six buckets have six different (mean, sd) pairs |
| `Data.SummerRangeSize` | data.py:7-12 | 2023-07-01 to 2023-09-30 inclusive gives 91·96 + 1 = 8737 records |
| `DataPreparation.MapUsageLevel` | data_preparation.py:32-40 | every usage maps to a key of the label map (total) |
| `DataPreparation.UsageLevelThresholds` | data_preparation.py:32-40 | each label holds exactly on its half-open interval: <10 Idle, [10,50) Medium, [50,75) High, ≥75 Very High |
| `DataPreparation.UsageLevelMonotone` | data_preparation.py:32-51 | more CPU usage never gives a lower class number |
| `DataPreparation.StatusNamesAgree` | data.py:52-59 | the synthesiser cuts at the same points as `map_usage_level`; only class 1's name differs, and that name is not a key of the label map |
| `DataPreparation.ActivityMappingBijective` | data_preparation.py:45-51 | the label map is a bijection from the four names onto 0..3 and the reverse map of line 151 is its inverse both ways |
| `DataPreparation.Derive` | data_preparation.py:22-26 | a derived row keeps the timestamp and usage, its features and its minute are those of its timestamp, its status is `map_usage_level` and its target the mapped class |
| `DataPreparation.DeriveAll` | data_preparation.py:22-51 | every record gains its derived columns, position by position |
| `DataPreparation.FeaturesAt` | data_preparation.py:22-26 | the hour is in 0..23, the weekday in 0..6 and IsWeekend is 0 or 1 |
| `DataPreparation.FeatureRanges` | data_preparation.py:25-26 | IsWeekend is 1 iff DayOfWeek ≥ 5 and 0 otherwise; TimeOfDay is the minutes since midnight, in 0..1439 |
| `DataPreparation.InsertByTimestamp` | data_preparation.py:29 | inserting into sorted rows keeps them sorted and adds exactly that row |
| `DataPreparation.SortByTimestamp` | data_preparation.py:29 | the sorted frame is ascending by timestamp and a permutation of the input |
| `DataPreparation.PrepareData` | data_preparation.py:14-58 | the prepared frame is sorted, a permutation of the derived records, and every row's features, minute and label agree with its timestamp and usage |
| `DataPreparation.TestSize` | data_preparation.py:69-71 | the test count t is ceil(n/5), that is n ≤ 5t < n + 5; from two rows on it is at least 1 and below n |
| `DataPreparation.TrainTestSplit` | data_preparation.py:69-71 | the split fails iff fewer than two rows; otherwise train ++ test is the input, train is non-empty and test is the smallest count of at least 20% |
| `DataPreparation.SplitRespectsTime` | data_preparation.py:29-71 | on a sorted frame no training timestamp is later than any test timestamp |
| `DataPreparation.ClassWeights` | data_preparation.py:76-79 | the weight keys are exactly the classes present, and every weight is positive |
| `DataPreparation.BalancedWeight` | data_preparation.py:76-78 | the weight times k times the count is n, and the weight is positive exactly when n is |
| `DataPreparation.ClassWeightAt` | data_preparation.py:76-79 | a present class's weight is n / (k · count) with k and count positive |
| `DataPreparation.BalancedClassTotal` | data_preparation.py:76-79 | each present class carries n / k of the total weight |
| `DataPreparation.RarerClassWeighsMore` | data_preparation.py:76-79 | a rarer class gets a larger weight |
| `DataPreparation.SampleWeights` | data_preparation.py:82 | one weight per training row, the lookup never misses, and each row gets its own class's weight |
| `DataPreparation.TrainModel` | data_preparation.py:61-82 | fails iff fewer than two rows; otherwise the train and test features and targets are the frame's columns split unshuffled, test has ceil(20%) rows, and each training row carries its class's balanced weight |
| `DataPreparation.FutureTimestamps` | data_preparation.py:125-129 | 672 instants, the first 15 minutes after the last history instant, consecutive ones exactly 15 minutes apart |
| `DataPreparation.FutureTimestampsIncreasing` | data_preparation.py:125-129 | the grid is strictly increasing, after the last history instant, with gaps of 15 minutes times the index distance |
| `DataPreparation.FutureAfterHistory` | data_preparation.py:125-129 | on a sorted history every forecast instant is after every history instant |
| `DataPreparation.ForecastRowAt` | data_preparation.py:136-156 | row i at instant t carries i, t, the minute and features of t, the classifier's class on those features, and that class's name from the reverse map |
| `DataPreparation.PredictFutureUsage` | data_preparation.py:123-165 | fails iff the history is empty; otherwise 672 rows indexed 0..671 at last + 15·(i+1), features by the training formulas, the classifier's class and its name from the reverse map, all after a sorted history, on quarter hours when the history is |
| `Scheduler.Decimal` | scheduler.py:24-25 | the rendered index is non-empty, all digits, and has two or more digits exactly when the index is ≥ 10 |
| `Scheduler.DecimalInjective` | scheduler.py:24-25 | different indices render differently |
| `Scheduler.JobId.Name` | scheduler.py:24-25 | the id string is longer than five characters, and its third character is 'a' exactly for a start id |
| `Scheduler.NameInjective` | scheduler.py:24-25 | different job ids (phase, index) render as different `start_…`/`stop_…` strings |
| `Scheduler.IntensityFor` | scheduler.py:30-44 | a status allows a computation exactly when it is 0, 1 or 2 |
| `Scheduler.RowJobs` | scheduler.py:20-48 | status 0, 1, 2 gives exactly a start (HIGH, MEDIUM, LOW) at the slot instant followed by the same row's stop 15 minutes later; any other status gives no job |
| `Scheduler.ScheduleComputations` | scheduler.py:14-48 | the loop builds the store of all rows' jobs in row order: two per schedulable row (so at most two per row), each start followed by its stop 15 minutes later, and with distinct row indices all ids distinct |
| `Scheduler.JobsFor` | scheduler.py:19-48 | the store after any prefix of the rows holds an even number of jobs |
| `Scheduler.JobCount` | scheduler.py:19-48 | the store has exactly twice as many jobs as schedulable rows, and at most twice as many as rows |
| `Scheduler.JobPairs` | scheduler.py:27-44 | the store is a list of pairs: each start is followed by the stop of the same index, due 15 minutes later |
| `Scheduler.JobsFromRows` | scheduler.py:19-48 | every stored job comes from some row's jobs, and every row's jobs are stored |
| `Scheduler.SkippedRowHasNoJobs` | scheduler.py:45-48 | with distinct indices, a row predicted Very High (or any other status) has no job carrying its index |
| `Scheduler.JobsInRowOrder` | scheduler.py:19-33 | the store after row i is the store before it plus that row's start then stop, and is a prefix of the final store |
| `Scheduler.DistinctJobIds` | scheduler.py:24-25 | distinct row indices give pairwise distinct job ids |
| `Scheduler.ForecastJobIdsDistinct` | scheduler.py:24-25 | a forecast frame indexed 0..n−1 gives pairwise distinct job id strings |
| `Scheduler.JobStore` | scheduler.py:32-43 | every job the id-keyed store holds is one of the added jobs, and it has no more keys than added jobs |
| `Scheduler.JobStoreKeepsAll` | scheduler.py:32-43 | with distinct ids the store keyed by id holds every job under its own name and has as many keys as jobs |
| `Scheduler.IntensityAntitone` | scheduler.py:30-44 | a higher predicted usage class gives a less intensive computation (a longer loop delay) |
| `Simulation.TaskDelay` | simulation.py:15-22 | the per-iteration delay is 1 to 4 seconds, and 4 exactly for an intensity other than HIGH, MEDIUM and LOW |
| `Simulation.StartStep` | simulation.py:25-34 | after a start the controller runs; the spawned tasks keep their prefix and grow by at most one |
| `Simulation.StopStep` | simulation.py:58-63 | after a stop the controller is idle and the spawned tasks are unchanged |
| `Simulation.Run` | simulation.py:25-63 | after a non-empty call sequence the controller runs exactly when the last call was a start |
| `Simulation.DelayOrder` | simulation.py:15-22 | the per-iteration delays order HIGH 1 < MEDIUM 2 < LOW 3 < any other 4 |
| `Simulation.StartTransition` | simulation.py:26-34 | start from idle runs at the given intensity and spawns one task; start while running changes nothing |
| `Simulation.StopTransition` | simulation.py:58-63 | stop while running idles and keeps the intensity; stop while idle changes nothing; stop never spawns |
| `Simulation.TwoStartsSpawnOnce` | simulation.py:26-34 | two starts in a row from idle equal one start and spawn exactly one task; the second intensity does not overwrite the first |
| `Simulation.StartThenStop` | simulation.py:26-61 | start then stop from idle ends idle, with the started intensity remembered |
| `Simulation.RunKeepsConsistent` | simulation.py:25-63 | across any call sequence the stored intensity is the last spawned task's, none before the first, and the controller never runs without a spawned task |
| `Simulation.RunSpawns` | simulation.py:25-56 | spawned tasks are only appended, one per start that finds the controller idle |
| `Simulation.StartsWithoutStopSpawnAtMostOnce` | simulation.py:26-34 | any run of starts without a stop spawns at most one task, and none when already running |
| `Simulation.ComputationStatus.constructor` | simulation.py:8 | the status starts not running, with no intensity and no task |
| `Simulation.ComputationStatus.Start` | simulation.py:25-56 | the new status is the start transition of the old one |
| `Simulation.ComputationStatus.StartHighIntensityComputation` | simulation.py:25-34 | the start transition at HIGH |
| `Simulation.ComputationStatus.StartMediumIntensityComputation` | simulation.py:36-45 | the start transition at MEDIUM |
| `Simulation.ComputationStatus.StartLowIntensityComputation` | simulation.py:47-56 | the start transition at LOW |
| `Simulation.ComputationStatus.StopComputation` | simulation.py:58-63 | the new status is the stop transition of the old one |
| `Manager.ComputationManager.constructor` | main.py:9-15 | a fresh manager has cycle 0, no molecule, status 'idle' and an empty history |
| `Manager.ComputationManager.UpdateCurrentCalculation` | main.py:17-19 | sets cycle and molecule; status and history unchanged, as `Manager.HistoryAfter` gives for one update |
| `Manager.ComputationManager.AddToHistory` | main.py:21-27 | the history grows by one entry holding the given name, score, date and cpu_time; earlier entries and the current calculation unchanged; the new history is `Manager.HistoryAfter` of the old one for one record |
| `Manager.HistoryAfter` | main.py:17-27 | a sequence of calls that are all updates leaves the history unchanged |
| `Manager.HistoryAppendOnly` | main.py:8-27 | over any sequence of manager calls the old history stays a prefix, grown by exactly one entry per recorded calculation |

## Left out

- The random draw itself (`np.random.normal`) is an input. The statistical behaviour of the samples is not modelled.
- CPU usage is a real number. Floating-point rounding and NaN are not modelled.
- Timestamps are whole minutes since 1970-01-01, with no time zone. Every timestamp the pipeline makes is on a minute boundary.
- Reading and writing the CSV file, pandas datetime parsing, `joblib.dump` and all printing are I/O. The model starts from the records the CSV holds.
- `prepare_data` adds the label columns after sorting. The model derives every column before sorting. The label depends only on the row's own usage, so the frames are equal.
- DataPreparation.SortByTimestamp: the sort is stable. pandas' default sort is not guaranteed stable, so rows with equal timestamps may come out in another order. The synthesised timestamps are all distinct.
- DataPreparation.TestSize: `ceil(0.2 * n)` is computed as the integer `(n + 4) / 5`. The model does not capture floating-point `0.2`.
- DataPreparation.TrainModel: stops where the training inputs are handed to `fit`. Fitting, prediction on the test split, accuracy, the classification report and the confusion matrix are library calls and are left out. The classifier appears only as a function parameter.
- Out-of-range features raise no error in the code or the model.
- Simulation: the background thread, its `while` loop and `time.sleep` are concurrent and are left out. Only the choice of delay (`Simulation.TaskDelay`) and the spawning of a task (the `spawned` list) are modelled. A task whose loop sees `running` true again after a later start is a race, and the model has no threads.
- Scheduler: the timer that fires the jobs, `scheduler.start()`, and what the timer library does with past run dates or duplicate ids are not part of this model. The job store is the list of added jobs; `Scheduler.JobStore` views it by id. `Scheduler.DistinctJobIds` and `Scheduler.ForecastJobIdsDistinct` show that no id repeats for a forecast frame, and `Scheduler.JobStoreKeepsAll` shows that the id-keyed store then loses no job. For two back-to-back scheduled slots, the stop of one slot and the start of the next are due at the same instant. Which fires first is up to the timer and is not modelled.
- Manager: `molecule` is modelled as an optional string, `score` and `cpu_time` as reals and `date` as a string. The Python code leaves these types open.
- `main()` wiring, the commented-out scheduler thread, and the graphical interface are not part of this model.
