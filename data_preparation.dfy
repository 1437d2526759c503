/**
 * Feature and label derivation, the unshuffled train/test split with its
 * balanced class weights, and the seven-day forecast frame.
 *
 * A data frame is a sequence of row values; its index is the position in the
 * sequence. The classifier is a function parameter from the four feature
 * columns to a class in 0..3; how it is fitted is not part of this model.
 */
module DataPreparation {
  import opened Wrappers
  import opened Calendar
  import Data

  // ---------------------------------------------------------------------
  // Labels
  // ---------------------------------------------------------------------

  /** `map_usage_level`: half-open thresholds at 10, 50 and 75. */
  function MapUsageLevel(cpuUsage: real): (r: string)
    ensures r in ActivityMapping
  {
    if cpuUsage < 10.0 then "Idle"
    else if 10.0 <= cpuUsage < 50.0 then "Medium Usage"
    else if 50.0 <= cpuUsage < 75.0 then "High Usage"
    else "Very High Usage"
  }

  const ActivityMapping: map<string, int> :=
    map["Idle" := 0, "Medium Usage" := 1, "High Usage" := 2, "Very High Usage" := 3]

  const ActivityMappingRev: map<int, string> :=
    map[0 := "Idle", 1 := "Medium Usage", 2 := "High Usage", 3 := "Very High Usage"]

  /** A class number the classifier can produce. */
  type Status = s: int | 0 <= s <= 3

  /** The classifier, seen only through its prediction. */
  type Classifier = Features -> Status

  // ---------------------------------------------------------------------
  // Features
  // ---------------------------------------------------------------------

  /** The four feature columns, in the order the classifier receives them. */
  datatype Features = Features(hour: int, dayOfWeek: int, isWeekend: int, timeOfDay: int)

  function IsWeekend(dayOfWeek: int): int
  {
    if dayOfWeek >= 5 then 1 else 0
  }

  function TimeOfDay(hour: int, minute: int): int
  {
    hour * 60 + minute
  }

  /** The feature formulas, shared by the training rows and the forecast rows. */
  function FeaturesAt(t: int): (f: Features)
    ensures 0 <= f.hour < 24 && 0 <= f.dayOfWeek < 7
    ensures f.isWeekend == 0 || f.isWeekend == 1
  {
    Features(Hour(t), DayOfWeek(t), IsWeekend(DayOfWeek(t)), TimeOfDay(Hour(t), Minute(t)))
  }

  /** One row of the prepared training frame. */
  datatype Row = Row(timestamp: int, cpuUsage: real, hour: int, minute: int, dayOfWeek: int,
                     isWeekend: int, timeOfDay: int, activityStatus: string, target: int)
  {
    function FeatureCols(): Features
    {
      Features(hour, dayOfWeek, isWeekend, timeOfDay)
    }
  }

  /**
   * The columns `prepare_data` adds to one CSV record: the calendar features,
   * then the re-derived activity status and its class number.
   */
  function Derive(rec: Data.UsageRecord): (row: Row)
    ensures row.timestamp == rec.timestamp && row.cpuUsage == rec.cpuUsage
    ensures row.FeatureCols() == FeaturesAt(rec.timestamp)
    ensures row.activityStatus == MapUsageLevel(rec.cpuUsage)
    ensures row.activityStatus in ActivityMapping && row.target == ActivityMapping[row.activityStatus]
    ensures row.minute == Minute(rec.timestamp)
  {
    var t := rec.timestamp;
    var status := MapUsageLevel(rec.cpuUsage);
    Row(t, rec.cpuUsage, Hour(t), Minute(t), DayOfWeek(t), IsWeekend(DayOfWeek(t)),
        TimeOfDay(Hour(t), Minute(t)), status, ActivityMapping[status])
  }

  // ---------------------------------------------------------------------
  // Sorting by timestamp
  // ---------------------------------------------------------------------

  ghost predicate SortedByTimestamp(rows: seq<Row>)
  {
    forall i, j :: 0 <= i < j < |rows| ==> rows[i].timestamp <= rows[j].timestamp
  }

  function InsertByTimestamp(r: Row, rows: seq<Row>): (out: seq<Row>)
    requires SortedByTimestamp(rows)
    ensures SortedByTimestamp(out)
    ensures multiset(out) == multiset(rows) + multiset{r}
    ensures |out| == |rows| + 1
    ensures out[0] == r || (rows != [] && out[0] == rows[0])
  {
    if rows == [] || r.timestamp <= rows[0].timestamp then
      ConsSorted(r, rows);
      [r] + rows
    else
      var rest := InsertByTimestamp(r, rows[1..]);
      ConsSorted(rows[0], rest);
      ConsMultiset(rows, rest, r);
      [rows[0]] + rest
  }

  /** A row no later than the head of sorted rows can go in front of them. */
  lemma ConsSorted(x: Row, rows: seq<Row>)
    requires SortedByTimestamp(rows)
    requires rows != [] ==> x.timestamp <= rows[0].timestamp
    ensures SortedByTimestamp([x] + rows)
  {
  }

  /** Keeping the head in front of a tail that gained `r` gains `r` overall. */
  lemma ConsMultiset(rows: seq<Row>, rest: seq<Row>, r: Row)
    requires rows != []
    requires multiset(rest) == multiset(rows[1..]) + multiset{r}
    ensures multiset([rows[0]] + rest) == multiset(rows) + multiset{r}
  {
    assert rows == [rows[0]] + rows[1..];
  }

  /** `sort_values("Timestamp")`: ascending, and a permutation of the rows. */
  function SortByTimestamp(rows: seq<Row>): (sorted: seq<Row>)
    ensures SortedByTimestamp(sorted)
    ensures multiset(sorted) == multiset(rows)
    ensures |sorted| == |rows|
  {
    if rows == [] then []
    else
      assert rows == [rows[0]] + rows[1..];
      InsertByTimestamp(rows[0], SortByTimestamp(rows[1..]))
  }

  /** The feature and label columns of a row agree with its timestamp and its CPU usage. */
  ghost predicate WellDerived(row: Row)
  {
    row.FeatureCols() == FeaturesAt(row.timestamp) &&
    row.minute == Minute(row.timestamp) &&
    row.activityStatus == MapUsageLevel(row.cpuUsage) &&
    row.target == ActivityMapping[row.activityStatus]
  }

  function DeriveAll(csv: seq<Data.UsageRecord>): (rows: seq<Row>)
    ensures |rows| == |csv|
    ensures forall i :: 0 <= i < |rows| ==> rows[i] == Derive(csv[i]) && WellDerived(rows[i])
  {
    seq(|csv|, i requires 0 <= i < |csv| => Derive(csv[i]))
  }

  /**
   * `prepare_data` on the records read from the CSV: every record gains its
   * features and label, and the frame is sorted by timestamp.
   */
  method PrepareData(csv: seq<Data.UsageRecord>) returns (df: seq<Row>)
    ensures |df| == |csv|
    ensures SortedByTimestamp(df)
    ensures multiset(df) == multiset(DeriveAll(csv))
    ensures forall i :: 0 <= i < |df| ==> WellDerived(df[i])
  {
    df := DeriveAll(csv);
    ghost var derived := df;
    df := SortByTimestamp(df);
    forall i | 0 <= i < |df|
      ensures WellDerived(df[i])
    {
      assert df[i] in multiset(derived);
      var k :| 0 <= k < |derived| && derived[k] == df[i];
    }
  }

  // ---------------------------------------------------------------------
  // Train/test split and class weights
  // ---------------------------------------------------------------------

  /** `ceil(0.2 * n)`: the rows `test_size=0.2` puts in the test split. */
  function TestSize(n: nat): (t: nat)
    ensures n <= 5 * t < n + 5
    ensures n >= 2 ==> 1 <= t < n
  {
    (n + 4) / 5
  }

  datatype SplitError = EmptyTrainSet(nSamples: nat)

  /**
   * `train_test_split(..., test_size=0.2, shuffle=False)`: the leading rows
   * train, the trailing ceil(20%) test; an empty train side is an error.
   */
  function TrainTestSplit<T>(s: seq<T>): (r: Result<(seq<T>, seq<T>), SplitError>)
    ensures r.Ok? <==> |s| >= 2
    ensures r.Ok? ==> r.value.0 + r.value.1 == s
    ensures r.Ok? ==> |r.value.0| >= 1 && 5 * |r.value.1| >= |s| > 5 * (|r.value.1| - 1)
  {
    var nTest := TestSize(|s|);
    if |s| - nTest <= 0 then Err(EmptyTrainSet(|s|))
    else Ok((s[..|s| - nTest], s[|s| - nTest..]))
  }

  /** `np.unique(y)` as a set. */
  function Classes(y: seq<int>): set<int>
  {
    set c | c in y
  }

  /** `compute_class_weight("balanced", classes=np.unique(y), y=y)` as a dictionary. */
  function ClassWeights(y: seq<int>): (w: map<int, real>)
    ensures w.Keys == Classes(y)
    ensures forall c :: c in w ==> w[c] > 0.0
  {
    map c | c in Classes(y) ::
      assert multiset(y)[c] > 0;
      BalancedWeight(|y|, |Classes(y)|, multiset(y)[c])
  }

  /** The "balanced" weight of a class: n / (k * count). */
  function BalancedWeight(n: nat, k: nat, count: nat): (w: real)
    requires k > 0 && count > 0
    ensures w * (k as real * count as real) == n as real
    ensures w > 0.0 <==> n > 0
  {
    n as real / (k as real * count as real)
  }

  /** `y.apply(lambda x: class_weights_dict[x])`: the lookup never misses. */
  function SampleWeights(y: seq<int>): (weights: seq<real>)
    ensures |weights| == |y|
    ensures forall i :: 0 <= i < |y| ==> y[i] in ClassWeights(y) && weights[i] == ClassWeights(y)[y[i]]
  {
    var w := ClassWeights(y);
    seq(|y|, i requires 0 <= i < |y| => w[y[i]])
  }

  /** What `train_model` hands to the classifier's `fit` and keeps for evaluation. */
  datatype TrainingInput = TrainingInput(xTrain: seq<Features>, yTrain: seq<int>, sampleWeights: seq<real>,
                                         xTest: seq<Features>, yTest: seq<int>)

  function FeatureColumn(df: seq<Row>): (x: seq<Features>)
    ensures |x| == |df|
  {
    seq(|df|, i requires 0 <= i < |df| => df[i].FeatureCols())
  }

  function TargetColumn(df: seq<Row>): (y: seq<int>)
    ensures |y| == |df|
  {
    seq(|df|, i requires 0 <= i < |df| => df[i].target)
  }

  /** `train_model` up to the call of `fit`. */
  function TrainModel(df: seq<Row>): (r: Result<TrainingInput, SplitError>)
    ensures r.Ok? <==> |df| >= 2
    ensures r.Ok? ==> r.value.xTrain + r.value.xTest == FeatureColumn(df)
    ensures r.Ok? ==> r.value.yTrain + r.value.yTest == TargetColumn(df)
    ensures r.Ok? ==> |r.value.xTrain| == |r.value.yTrain| == |r.value.sampleWeights| >= 1
    ensures r.Ok? ==> |r.value.yTest| == TestSize(|df|)
    ensures r.Ok? ==> forall i :: 0 <= i < |r.value.yTrain| ==>
      r.value.sampleWeights[i] == ClassWeights(r.value.yTrain)[r.value.yTrain[i]]
  {
    match TrainTestSplit(df)
    case Err(e) => Err(e)
    case Ok((train, test)) =>
      var yTrain := TargetColumn(train);
      assert FeatureColumn(train) + FeatureColumn(test) == FeatureColumn(df);
      assert yTrain + TargetColumn(test) == TargetColumn(df);
      Ok(TrainingInput(FeatureColumn(train), yTrain, SampleWeights(yTrain), FeatureColumn(test), TargetColumn(test)))
  }

  // ---------------------------------------------------------------------
  // Forecast frame
  // ---------------------------------------------------------------------

  /** Seven days of 15-minute slots. */
  const ForecastSlots: int := SlotsPerDay * 7

  /** `pd.date_range(start=last + 15min, periods=96*7, freq="15T")` */
  function FutureTimestamps(last: int): (r: seq<int>)
    ensures |r| == ForecastSlots
    ensures r[0] == last + SlotMinutes
    ensures forall i :: 0 < i < |r| ==> r[i] == r[i - 1] + SlotMinutes
  {
    seq(ForecastSlots, i => last + SlotMinutes * (i + 1))
  }

  /** One row of the forecast frame; `index` is its RangeIndex label. */
  datatype ForecastRow = ForecastRow(index: nat, timestamp: int, hour: int, minute: int, dayOfWeek: int,
                                     isWeekend: int, timeOfDay: int,
                                     predictedStatus: int, predictedStatusLabel: string)
  {
    function FeatureCols(): Features
    {
      Features(hour, dayOfWeek, isWeekend, timeOfDay)
    }
  }

  datatype ForecastError = NoHistory

  /** The columns of forecast row `i`: features, predicted class and its name. */
  function ForecastRowAt(model: Classifier, i: nat, t: int): (row: ForecastRow)
    ensures row.index == i && row.timestamp == t && row.minute == Minute(t)
    ensures row.FeatureCols() == FeaturesAt(t) && row.predictedStatus == model(row.FeatureCols())
    ensures row.predictedStatus in ActivityMappingRev
    ensures row.predictedStatusLabel == ActivityMappingRev[row.predictedStatus]
  {
    var f := FeaturesAt(t);
    var status := model(f);
    ForecastRow(i, t, f.hour, Minute(t), f.dayOfWeek, f.isWeekend, f.timeOfDay, status, ActivityMappingRev[status])
  }

  /**
   * `predict_future_usage`: the frame of 672 future slots with their
   * features, predicted class and class name. An empty history has no last
   * timestamp to start from.
   */
  method PredictFutureUsage(model: Classifier, df: seq<Row>) returns (r: Result<seq<ForecastRow>, ForecastError>)
    ensures r.Err? <==> df == []
    ensures r.Ok? ==> |r.value| == ForecastSlots
    ensures r.Ok? ==> forall i :: 0 <= i < |r.value| ==>
      var row := r.value[i];
      row.index == i &&
      row.timestamp == df[|df| - 1].timestamp + SlotMinutes * (i + 1) &&
      row.minute == Minute(row.timestamp) &&
      row.FeatureCols() == FeaturesAt(row.timestamp) &&
      row.predictedStatus == model(row.FeatureCols()) &&
      row.predictedStatus in ActivityMappingRev &&
      row.predictedStatusLabel == ActivityMappingRev[row.predictedStatus]
    ensures r.Ok? && SortedByTimestamp(df) ==>
      forall i, j :: 0 <= i < |r.value| && 0 <= j < |df| ==> df[j].timestamp < r.value[i].timestamp
    ensures r.Ok? && Minute(df[|df| - 1].timestamp) % 15 == 0 ==>
      forall i :: 0 <= i < |r.value| ==> r.value[i].minute % 15 == 0
  {
    if df == [] {
      return Err(NoHistory);
    }
    var last := df[|df| - 1].timestamp;
    var timestamps := FutureTimestamps(last);
    var frame := seq(ForecastSlots, i requires 0 <= i < ForecastSlots => ForecastRowAt(model, i, timestamps[i]));
    FutureAfterHistory(df, last);
    if Minute(last) % 15 == 0 {
      forall i | 0 <= i < ForecastSlots
        ensures frame[i].minute % 15 == 0
      {
        QuarterHourStep(last, i + 1);
      }
    }
    r := Ok(frame);
  }

  // ---------------------------------------------------------------------
  // Properties
  // ---------------------------------------------------------------------

  /** The label of every class is exact at the boundaries 10, 50 and 75. */
  lemma UsageLevelThresholds(x: real)
    ensures MapUsageLevel(x) == "Idle" <==> x < 10.0
    ensures MapUsageLevel(x) == "Medium Usage" <==> 10.0 <= x < 50.0
    ensures MapUsageLevel(x) == "High Usage" <==> 50.0 <= x < 75.0
    ensures MapUsageLevel(x) == "Very High Usage" <==> 75.0 <= x
  {
  }

  /** More CPU usage never gives a lower class number. */
  lemma UsageLevelMonotone(x: real, y: real)
    requires x <= y
    ensures ActivityMapping[MapUsageLevel(x)] <= ActivityMapping[MapUsageLevel(y)]
  {
  }

  /**
   * The synthesiser and `map_usage_level` cut at the same points; only the
   * name of class 1 differs, and the synthesiser's name is not a key of the
   * label map, so the status has to be re-derived before it is mapped.
   */
  lemma StatusNamesAgree(x: real)
    ensures Data.ActivityStatus(x) ==
      if MapUsageLevel(x) == "Medium Usage" then "Light Usage" else MapUsageLevel(x)
    ensures Data.ActivityStatus(x) in ActivityMapping <==> MapUsageLevel(x) != "Medium Usage"
  {
  }

  /** The label map is a bijection onto 0..3 and the reverse map is its inverse. */
  lemma ActivityMappingBijective()
    ensures ActivityMapping.Keys == {"Idle", "Medium Usage", "High Usage", "Very High Usage"}
    ensures ActivityMapping.Values == {0, 1, 2, 3} == ActivityMappingRev.Keys
    ensures forall name :: name in ActivityMapping ==>
      ActivityMapping[name] in ActivityMappingRev && ActivityMappingRev[ActivityMapping[name]] == name
    ensures forall s :: s in ActivityMappingRev ==>
      ActivityMappingRev[s] in ActivityMapping && ActivityMapping[ActivityMappingRev[s]] == s
  {
    assert ActivityMapping["Idle"] == 0;
    assert ActivityMapping["Medium Usage"] == 1;
    assert ActivityMapping["High Usage"] == 2;
    assert ActivityMapping["Very High Usage"] == 3;
  }

  /** Derived features: the weekend flag and the minutes since midnight. */
  lemma FeatureRanges(t: int)
    ensures FeaturesAt(t).isWeekend == 1 <==> FeaturesAt(t).dayOfWeek >= 5
    ensures FeaturesAt(t).isWeekend == 0 <==> FeaturesAt(t).dayOfWeek < 5
    ensures FeaturesAt(t).timeOfDay == t % MinutesPerDay
    ensures 0 <= FeaturesAt(t).timeOfDay <= 1439
  {
    ClockFields(t);
  }

  /** Sorted rows split unshuffled: no training timestamp is after a test timestamp. */
  lemma SplitRespectsTime(df: seq<Row>)
    requires SortedByTimestamp(df)
    requires TrainTestSplit(df).Ok?
    ensures forall i, j :: 0 <= i < |TrainTestSplit(df).value.0| && 0 <= j < |TrainTestSplit(df).value.1| ==>
      TrainTestSplit(df).value.0[i].timestamp <= TrainTestSplit(df).value.1[j].timestamp
  {
    var (train, test) := TrainTestSplit(df).value;
    forall i, j | 0 <= i < |train| && 0 <= j < |test|
      ensures train[i].timestamp <= test[j].timestamp
    {
      assert train[i] == df[i] && test[j] == df[|train| + j];
    }
  }

  /** One class's weight: n / (k * count), with k and count positive. */
  lemma ClassWeightAt(y: seq<int>, c: int)
    requires c in y
    ensures |Classes(y)| > 0 && multiset(y)[c] > 0
    ensures ClassWeights(y)[c] == BalancedWeight(|y|, |Classes(y)|, multiset(y)[c])
  {
    assert c in Classes(y);
  }

  /** Each class present carries n / k of the total weight, k the number of classes. */
  lemma BalancedClassTotal(y: seq<int>, c: int)
    requires c in y
    ensures multiset(y)[c] as real * ClassWeights(y)[c] == |y| as real / |Classes(y)| as real
  {
    ClassWeightAt(y, c);
    BalancedProduct(|y|, |Classes(y)|, multiset(y)[c]);
  }

  lemma BalancedProduct(n: nat, k: nat, count: nat)
    requires k > 0 && count > 0
    ensures count as real * BalancedWeight(n, k, count) == n as real / k as real
  {
    var w := BalancedWeight(n, k, count);
    assert w * (k as real * count as real) == n as real;
    assert (count as real * w) * k as real == n as real;
  }

  /** A rarer class weighs more. */
  lemma RarerClassWeighsMore(y: seq<int>, c: int, d: int)
    requires c in y && d in y
    requires multiset(y)[c] < multiset(y)[d]
    ensures ClassWeights(y)[c] > ClassWeights(y)[d]
  {
    ClassWeightAt(y, c);
    ClassWeightAt(y, d);
    BalancedWeightDecreasing(|y|, |Classes(y)|, multiset(y)[c], multiset(y)[d]);
  }

  lemma BalancedWeightDecreasing(n: nat, k: nat, x: nat, z: nat)
    requires n > 0 && k > 0 && 0 < x < z
    ensures BalancedWeight(n, k, x) > BalancedWeight(n, k, z)
  {
    var nr, kx, kz := n as real, k as real * x as real, k as real * z as real;
    var p, q := nr / kx, nr / kz;
    assert kx < kz;
    assert p * kx == nr && q * kz == nr;
    assert q > 0.0;
    assert q * kx < q * kz;
  }

  /** The forecast grid is strictly increasing and starts after the last history timestamp. */
  lemma {:induction false} FutureTimestampsIncreasing(last: int, i: int, j: int)
    requires 0 <= i < j < ForecastSlots
    ensures last < FutureTimestamps(last)[i] < FutureTimestamps(last)[j]
    ensures FutureTimestamps(last)[j] - FutureTimestamps(last)[i] == SlotMinutes * (j - i)
  {
    var r := FutureTimestamps(last);
    if j == i + 1 {
      if i > 0 {
        FutureTimestampsIncreasing(last, i - 1, i);
      }
    } else {
      FutureTimestampsIncreasing(last, i, j - 1);
    }
  }

  lemma FutureAfterHistory(df: seq<Row>, last: int)
    requires df != [] && last == df[|df| - 1].timestamp
    ensures SortedByTimestamp(df) ==>
      forall i, j :: 0 <= i < ForecastSlots && 0 <= j < |df| ==> df[j].timestamp < FutureTimestamps(last)[i]
  {
    if SortedByTimestamp(df) {
      forall i, j | 0 <= i < ForecastSlots && 0 <= j < |df|
        ensures df[j].timestamp < FutureTimestamps(last)[i]
      {
        if i == 0 {
          assert FutureTimestamps(last)[0] == last + SlotMinutes;
        } else {
          FutureTimestampsIncreasing(last, 0, i);
        }
      }
    }
  }
}
