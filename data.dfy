/**
 * The usage-data synthesiser: one CPU-usage record per 15-minute boundary
 * between a start and an end instant, drawn from a normal distribution whose
 * mean and standard deviation depend on the weekday and the hour, clamped to
 * [0, 100] and labelled with an activity status.
 *
 * The random draw is an input: `noise(i)` is the i-th standard normal value,
 * and `np.random.normal(mean, sd)` is `mean + sd * noise(i)`.
 */
module Data {
  import opened Calendar

  /** The six (weekday-or-weekend, hour) buckets of the synthesiser. */
  datatype Bucket =
    | WorkHours            // weekdays 9-17
    | EveningLeisure       // weekdays 17-22
    | Transition           // weekdays 8-9 and 22-23
    | Night                // every other weekday hour
    | WeekendDaytime       // weekend 10-24
    | WeekendEarlyMorning  // weekend 0-10

  datatype Normal = Normal(mean: real, sd: real)

  /** The if-chain that picks a bucket from the weekday and the hour. */
  function BucketOf(dayOfWeek: int, hour: int): (b: Bucket)
    ensures b.WeekendDaytime? || b.WeekendEarlyMorning? <==> dayOfWeek >= 5
    ensures b.WorkHours? <==> dayOfWeek < 5 && 9 <= hour < 17
    ensures b.WeekendDaytime? <==> dayOfWeek >= 5 && 10 <= hour < 24
  {
    if dayOfWeek < 5 then
      if 9 <= hour < 17 then WorkHours
      else if 17 <= hour < 22 then EveningLeisure
      else if (8 <= hour < 9) || (22 <= hour < 23) then Transition
      else Night
    else
      if 10 <= hour < 24 then WeekendDaytime
      else WeekendEarlyMorning
  }

  function Params(b: Bucket): (n: Normal)
    ensures 0.0 < n.sd && n.sd < n.mean < 100.0
  {
    match b
    case WorkHours => Normal(70.0, 10.0)
    case EveningLeisure => Normal(40.0, 10.0)
    case Transition => Normal(20.0, 5.0)
    case Night => Normal(5.0, 2.0)
    case WeekendDaytime => Normal(30.0, 15.0)
    case WeekendEarlyMorning => Normal(10.0, 5.0)
  }

  /** `np.random.normal(mean, sd)` given the standard normal draw `z`. */
  function Draw(n: Normal, z: real): (x: real)
    ensures z == 0.0 ==> x == n.mean
    ensures n.sd > 0.0 ==> (x > n.mean <==> z > 0.0)
  {
    n.mean + n.sd * z
  }

  /** `max(0, min(100, x))` */
  function Clamp(x: real): (r: real)
    ensures 0.0 <= r <= 100.0
    ensures 0.0 <= x <= 100.0 ==> r == x
    ensures x < 0.0 ==> r == 0.0
    ensures x > 100.0 ==> r == 100.0
  {
    var low := if 100.0 < x then 100.0 else x;
    if 0.0 < low then low else 0.0
  }

  /** The activity status written next to each synthesised sample. */
  function ActivityStatus(cpuUsage: real): (status: string)
    ensures status in {"Idle", "Light Usage", "High Usage", "Very High Usage"}
    ensures status == "Idle" <==> cpuUsage < 10.0
    ensures status == "Very High Usage" <==> cpuUsage >= 75.0
  {
    if cpuUsage < 10.0 then "Idle"
    else if cpuUsage < 50.0 then "Light Usage"
    else if cpuUsage < 75.0 then "High Usage"
    else "Very High Usage"
  }

  datatype UsageRecord = UsageRecord(timestamp: int, cpuUsage: real, activityStatus: string)

  /** Number of boundaries `pd.date_range(start, end, freq="15T")` yields. */
  function SlotCount(start: int, end: int): (n: nat)
    ensures n > 0 <==> start <= end
  {
    if end < start then 0 else (end - start) / SlotMinutes + 1
  }

  /** `pd.date_range(start, end, freq="15T")`: both ends inclusive. */
  function DateRange(start: int, end: int): (r: seq<int>)
    ensures |r| == SlotCount(start, end)
    ensures |r| > 0 ==> r[0] == start && r[|r| - 1] <= end < r[|r| - 1] + SlotMinutes
    ensures forall i :: 0 <= i < |r| ==> start <= r[i] <= end
    ensures forall i :: 0 < i < |r| ==> r[i] == r[i - 1] + SlotMinutes
  {
    seq(SlotCount(start, end), i => start + SlotMinutes * i)
  }

  /** The record the loop body appends for one timestamp and one draw. */
  function RecordAt(timestamp: int, z: real): (r: UsageRecord)
    ensures r.timestamp == timestamp
    ensures 0.0 <= r.cpuUsage <= 100.0
    ensures r.activityStatus == ActivityStatus(r.cpuUsage)
    ensures z == 0.0 ==> r.cpuUsage == Params(BucketOf(DayOfWeek(timestamp), Hour(timestamp))).mean
  {
    var cpuUsage := Clamp(Draw(Params(BucketOf(DayOfWeek(timestamp), Hour(timestamp))), z));
    UsageRecord(timestamp, cpuUsage, ActivityStatus(cpuUsage))
  }

  /** The synthesiser's loop over the date range. */
  method GenerateUsageData(start: int, end: int, noise: nat -> real) returns (data: seq<UsageRecord>)
    ensures |data| == SlotCount(start, end)
    ensures forall i :: 0 <= i < |data| ==> data[i] == RecordAt(start + SlotMinutes * i, noise(i))
    ensures forall i :: 0 <= i < |data| ==> 0.0 <= data[i].cpuUsage <= 100.0
    ensures forall i, j :: 0 <= i < j < |data| ==> data[i].timestamp < data[j].timestamp
    ensures |data| > 0 ==> data[0].timestamp == start
    ensures |data| > 0 ==> data[|data| - 1].timestamp <= end < data[|data| - 1].timestamp + SlotMinutes
  {
    var dateRange := DateRange(start, end);
    data := [];
    for i := 0 to |dateRange|
      invariant |data| == i
      invariant forall k :: 0 <= k < i ==> data[k] == RecordAt(start + SlotMinutes * k, noise(k))
    {
      var timestamp := dateRange[i];
      var dayOfWeek := DayOfWeek(timestamp);
      var hour := Hour(timestamp);
      var cpuUsage := Clamp(Draw(Params(BucketOf(dayOfWeek, hour)), noise(i)));
      var activityStatus := ActivityStatus(cpuUsage);
      assert UsageRecord(timestamp, cpuUsage, activityStatus) == RecordAt(start + SlotMinutes * i, noise(i));
      data := data + [UsageRecord(timestamp, cpuUsage, activityStatus)];
    }
    RecordsFollowRange(start, end, noise, data);
  }

  /** Records laid on the date range are in time order, start at `start` and end within a slot of `end`. */
  lemma RecordsFollowRange(start: int, end: int, noise: nat -> real, data: seq<UsageRecord>)
    requires |data| == SlotCount(start, end)
    requires forall i :: 0 <= i < |data| ==> data[i] == RecordAt(start + SlotMinutes * i, noise(i))
    ensures forall i :: 0 <= i < |data| ==> 0.0 <= data[i].cpuUsage <= 100.0
    ensures forall i, j :: 0 <= i < j < |data| ==> data[i].timestamp < data[j].timestamp
    ensures |data| > 0 ==> data[0].timestamp == start
    ensures |data| > 0 ==> data[|data| - 1].timestamp <= end < data[|data| - 1].timestamp + SlotMinutes
  {
    var range := DateRange(start, end);
    assert forall i :: 0 <= i < |data| ==> data[i].timestamp == range[i];
  }

  /** Each weekday hour falls into exactly the bucket its hour range names. */
  lemma WeekdayBuckets(dayOfWeek: int, hour: int)
    requires 0 <= dayOfWeek < 5 && 0 <= hour < 24
    ensures BucketOf(dayOfWeek, hour) == WorkHours <==> 9 <= hour <= 16
    ensures BucketOf(dayOfWeek, hour) == EveningLeisure <==> 17 <= hour <= 21
    ensures BucketOf(dayOfWeek, hour) == Transition <==> hour == 8 || hour == 22
    ensures BucketOf(dayOfWeek, hour) == Night <==> hour == 23 || hour <= 7
    ensures !BucketOf(dayOfWeek, hour).WeekendDaytime? && !BucketOf(dayOfWeek, hour).WeekendEarlyMorning?
  {
  }

  /** Weekend days split at hour 10 and never use a weekday bucket. */
  lemma WeekendBuckets(dayOfWeek: int, hour: int)
    requires 5 <= dayOfWeek < 7 && 0 <= hour < 24
    ensures BucketOf(dayOfWeek, hour) == WeekendDaytime <==> hour >= 10
    ensures BucketOf(dayOfWeek, hour) == WeekendEarlyMorning <==> hour <= 9
  {
  }

  /** The six buckets carry six different (mean, sd) pairs. */
  lemma ParamsInjective(a: Bucket, b: Bucket)
    ensures Params(a) == Params(b) ==> a == b
  {
  }

  lemma ClampIdempotent(x: real)
    ensures Clamp(Clamp(x)) == Clamp(x)
  {
  }

  /** 2023-07-01 00:00 to 2023-09-30 00:00 inclusive: 91 days of 96 slots, plus the end. */
  lemma SummerRangeSize()
    ensures SlotCount(July1st2023, September30th2023) == 91 * SlotsPerDay + 1 == 8737
  {
  }
}
