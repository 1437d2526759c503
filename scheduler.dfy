/**
 * The slot-to-job rule: every forecast row predicted Idle, Medium or High
 * becomes a one-shot start job at the slot's instant and a one-shot stop job
 * fifteen minutes later; a row predicted Very High (or anything else) gets
 * none. The job store is the sequence of jobs in the order they are added;
 * the timer that fires them is not part of this model.
 */
module Scheduler {
  import opened Wrappers
  import opened Simulation
  import DataPreparation

  type ForecastRow = DataPreparation.ForecastRow

  // ---------------------------------------------------------------------
  // Job ids
  // ---------------------------------------------------------------------

  function DigitChar(d: int): char
    requires 0 <= d < 10
  {
    ('0' as int + d) as char
  }

  /** The decimal text of a row index, as an f-string renders it. */
  function Decimal(n: nat): (s: string)
    ensures 1 <= |s|
    ensures n >= 10 <==> |s| >= 2
    ensures forall k :: 0 <= k < |s| ==> '0' <= s[k] <= '9'
  {
    if n < 10 then [DigitChar(n)] else Decimal(n / 10) + [DigitChar(n % 10)]
  }

  datatype Phase = StartPhase | StopPhase

  datatype JobId = JobId(phase: Phase, index: nat)
  {
    /** `f'start_{idx}'` or `f'stop_{idx}'` */
    function Name(): (n: string)
      ensures |n| > 5 && n[2] == (if phase == StartPhase then 'a' else 'o')
    {
      (if phase == StartPhase then "start_" else "stop_") + Decimal(index)
    }
  }

  datatype Action = StartComputation(intensity: Intensity) | StopComputation

  /** A one-shot job: its id, the instant it is due and what it calls. */
  datatype Job = Job(id: JobId, runDate: int, action: Action)

  // ---------------------------------------------------------------------
  // The rule
  // ---------------------------------------------------------------------

  /** The job length, `timedelta(minutes=15)`. */
  const ComputationDuration: int := 15

  /** The intensity a predicted class allows: the less usage, the more intense. */
  function IntensityFor(predictedStatus: int): (r: Option<Intensity>)
    ensures r.Some? <==> 0 <= predictedStatus <= 2
  {
    if predictedStatus == 0 then Some(High)
    else if predictedStatus == 1 then Some(Medium)
    else if predictedStatus == 2 then Some(Low)
    else None
  }

  /** The jobs one forecast row adds, in the order they are added. */
  function RowJobs(row: ForecastRow): (jobs: seq<Job>)
    ensures 0 <= row.predictedStatus <= 2 ==> |jobs| == 2
    ensures !(0 <= row.predictedStatus <= 2) ==> jobs == []
    ensures |jobs| == 2 ==>
      jobs[0] == Job(JobId(StartPhase, row.index), row.timestamp, StartComputation(IntensityFor(row.predictedStatus).value)) &&
      jobs[1] == Job(JobId(StopPhase, row.index), jobs[0].runDate + ComputationDuration, StopComputation)
  {
    var runTime := row.timestamp;
    var endTime := runTime + ComputationDuration;
    var start := JobId(StartPhase, row.index);
    var stop := JobId(StopPhase, row.index);
    if row.predictedStatus == 0 then
      [Job(start, runTime, StartComputation(High)), Job(stop, endTime, StopComputation)]
    else if row.predictedStatus == 1 then
      [Job(start, runTime, StartComputation(Medium)), Job(stop, endTime, StopComputation)]
    else if row.predictedStatus == 2 then
      [Job(start, runTime, StartComputation(Low)), Job(stop, endTime, StopComputation)]
    else
      []
  }

  /** The job store after the loop has visited `rows`. */
  function JobsFor(rows: seq<ForecastRow>): (jobs: seq<Job>)
    ensures |jobs| % 2 == 0
  {
    if rows == [] then [] else JobsFor(rows[..|rows| - 1]) + RowJobs(rows[|rows| - 1])
  }

  /** Rows predicted Idle, Medium or High. */
  function Schedulable(rows: seq<ForecastRow>): nat
  {
    if rows == [] then 0
    else Schedulable(rows[..|rows| - 1]) + (if 0 <= rows[|rows| - 1].predictedStatus <= 2 then 1 else 0)
  }

  /** `schedule_computations`: the loop over the forecast rows, adding jobs to the store. */
  method ScheduleComputations(futureDf: seq<ForecastRow>) returns (jobs: seq<Job>)
    ensures jobs == JobsFor(futureDf)
    ensures |jobs| == 2 * Schedulable(futureDf)
    ensures |jobs| <= 2 * |futureDf|
    ensures forall k :: 0 <= k < |jobs| / 2 ==>
      jobs[2 * k].action.StartComputation? &&
      jobs[2 * k + 1] == Job(JobId(StopPhase, jobs[2 * k].id.index), jobs[2 * k].runDate + ComputationDuration, StopComputation)
    ensures DistinctIndices(futureDf) ==> forall i, j :: 0 <= i < j < |jobs| ==> jobs[i].id != jobs[j].id
  {
    jobs := [];
    for i := 0 to |futureDf|
      invariant jobs == JobsFor(futureDf[..i])
    {
      var row := futureDf[i];
      var runTime := row.timestamp;
      var predictedStatus := row.predictedStatus;
      var jobIdStart := JobId(StartPhase, row.index);
      var jobIdStop := JobId(StopPhase, row.index);
      var endTime := runTime + ComputationDuration;
      assert futureDf[..i + 1][..i] == futureDf[..i];
      if predictedStatus == 0 {
        jobs := jobs + [Job(jobIdStart, runTime, StartComputation(High))];
        jobs := jobs + [Job(jobIdStop, endTime, StopComputation)];
      } else if predictedStatus == 1 {
        jobs := jobs + [Job(jobIdStart, runTime, StartComputation(Medium))];
        jobs := jobs + [Job(jobIdStop, endTime, StopComputation)];
      } else if predictedStatus == 2 {
        jobs := jobs + [Job(jobIdStart, runTime, StartComputation(Low))];
        jobs := jobs + [Job(jobIdStop, endTime, StopComputation)];
      } else {
        continue;
      }
    }
    assert futureDf[..|futureDf|] == futureDf;
    JobCount(futureDf);
    JobPairs(futureDf);
    if DistinctIndices(futureDf) {
      DistinctJobIds(futureDf);
    }
  }

  /** A store keyed by id; used only where ids are distinct. */
  function JobStore(jobs: seq<Job>): (store: map<string, Job>)
    ensures forall name :: name in store ==> store[name] in jobs
    ensures |store| <= |jobs|
  {
    if jobs == [] then map[]
    else JobStore(jobs[..|jobs| - 1])[jobs[|jobs| - 1].id.Name() := jobs[|jobs| - 1]]
  }

  // ---------------------------------------------------------------------
  // Properties
  // ---------------------------------------------------------------------

  ghost predicate DistinctIndices(rows: seq<ForecastRow>)
  {
    forall i, j :: 0 <= i < j < |rows| ==> rows[i].index != rows[j].index
  }

  /** Two jobs per schedulable row, so never more than two per row. */
  lemma {:induction false} JobCount(rows: seq<ForecastRow>)
    ensures |JobsFor(rows)| == 2 * Schedulable(rows) <= 2 * |rows|
  {
    if rows != [] {
      JobCount(rows[..|rows| - 1]);
    }
  }

  /**
   * The store is a list of (start, stop) pairs: each start is followed by the
   * stop of the same row, due fifteen minutes later.
   */
  lemma {:induction false} JobPairs(rows: seq<ForecastRow>)
    ensures |JobsFor(rows)| % 2 == 0
    ensures forall k :: 0 <= k < |JobsFor(rows)| / 2 ==>
      var start, stop := JobsFor(rows)[2 * k], JobsFor(rows)[2 * k + 1];
      start.id.phase == StartPhase && start.action.StartComputation? &&
      stop == Job(JobId(StopPhase, start.id.index), start.runDate + ComputationDuration, StopComputation)
  {
    if rows != [] {
      var prefix := rows[..|rows| - 1];
      JobPairs(prefix);
      var before := JobsFor(prefix);
      var added := RowJobs(rows[|rows| - 1]);
      assert JobsFor(rows) == before + added;
      forall k | 0 <= k < |JobsFor(rows)| / 2
        ensures var start, stop := JobsFor(rows)[2 * k], JobsFor(rows)[2 * k + 1];
          start.id.phase == StartPhase && start.action.StartComputation? &&
          stop == Job(JobId(StopPhase, start.id.index), start.runDate + ComputationDuration, StopComputation)
      {
        if 2 * k >= |before| {
          assert 2 * k == |before| && JobsFor(rows)[2 * k] == added[0] && JobsFor(rows)[2 * k + 1] == added[1];
        } else {
          assert JobsFor(rows)[2 * k] == before[2 * k] && JobsFor(rows)[2 * k + 1] == before[2 * k + 1];
        }
      }
    }
  }

  /** Every job in the store comes from a schedulable row, and every schedulable row's jobs are in it. */
  lemma {:induction false} JobsFromRows(rows: seq<ForecastRow>)
    ensures forall job :: job in JobsFor(rows) ==> exists r :: r in rows && job in RowJobs(r)
    ensures forall r, job :: r in rows && job in RowJobs(r) ==> job in JobsFor(rows)
  {
    if rows != [] {
      var prefix := rows[..|rows| - 1];
      var last := rows[|rows| - 1];
      JobsFromRows(prefix);
      assert rows == prefix + [last];
      forall job | job in JobsFor(rows)
        ensures exists r :: r in rows && job in RowJobs(r)
      {
        if job in JobsFor(prefix) {
          var r :| r in prefix && job in RowJobs(r);
          assert r in rows;
        } else {
          assert job in RowJobs(last);
        }
      }
    }
  }

  /** A row predicted Very High leaves no job carrying its index. */
  lemma SkippedRowHasNoJobs(rows: seq<ForecastRow>, i: int)
    requires DistinctIndices(rows)
    requires 0 <= i < |rows| && !(0 <= rows[i].predictedStatus <= 2)
    ensures forall job :: job in JobsFor(rows) ==> job.id.index != rows[i].index
  {
    forall job | job in JobsFor(rows)
      ensures job.id.index != rows[i].index
    {
      var j := RowOfJob(rows, job);
    }
  }

  /** The position of the row that added a given job. */
  lemma RowOfJob(rows: seq<ForecastRow>, job: Job) returns (j: int)
    requires job in JobsFor(rows)
    ensures 0 <= j < |rows| && job in RowJobs(rows[j])
    ensures 0 <= rows[j].predictedStatus <= 2 && job.id.index == rows[j].index
  {
    JobsFromRows(rows);
    var r :| r in rows && job in RowJobs(r);
    j :| 0 <= j < |rows| && rows[j] == r;
  }

  /** Distinct row indices give pairwise distinct job ids. */
  lemma {:induction false} DistinctJobIds(rows: seq<ForecastRow>)
    requires DistinctIndices(rows)
    ensures forall i, j :: 0 <= i < j < |JobsFor(rows)| ==> JobsFor(rows)[i].id != JobsFor(rows)[j].id
  {
    if rows != [] {
      var prefix := rows[..|rows| - 1];
      var last := rows[|rows| - 1];
      DistinctJobIds(prefix);
      var before := JobsFor(prefix);
      var added := RowJobs(last);
      assert JobsFor(rows) == before + added;
      forall i, j | 0 <= i < j < |JobsFor(rows)|
        ensures JobsFor(rows)[i].id != JobsFor(rows)[j].id
      {
        if j >= |before| && i < |before| {
          var k := RowOfJob(prefix, before[i]);
          assert rows[k] == prefix[k];
          assert added[j - |before|].id.index == last.index;
        }
      }
    }
  }

  lemma {:induction false} DecimalInjective(a: nat, b: nat)
    requires Decimal(a) == Decimal(b)
    ensures a == b
  {
    if a >= 10 && b >= 10 {
      var sa, sb := Decimal(a), Decimal(b);
      assert sa[..|sa| - 1] == Decimal(a / 10) && sb[..|sb| - 1] == Decimal(b / 10);
      DecimalInjective(a / 10, b / 10);
      assert DigitChar(a % 10) == sa[|sa| - 1] == sb[|sb| - 1] == DigitChar(b % 10);
    }
  }

  /** Different ids render as different strings: the third character tells `start_` from `stop_`, the rest the index. */
  lemma NameInjective(x: JobId, y: JobId)
    requires x.Name() == y.Name()
    ensures x == y
  {
    var n := x.Name();
    if x.phase != y.phase {
      assert false;
    } else {
      var p := if x.phase == StartPhase then 6 else 5;
      assert n[p..] == Decimal(x.index);
      assert y.Name()[p..] == Decimal(y.index);
      DecimalInjective(x.index, y.index);
    }
  }

  /** With distinct ids, the store keyed by id holds every job under its own name and loses none. */
  lemma {:induction false} JobStoreKeepsAll(jobs: seq<Job>)
    requires forall i, j :: 0 <= i < j < |jobs| ==> jobs[i].id != jobs[j].id
    ensures |JobStore(jobs)| == |jobs|
    ensures forall k :: 0 <= k < |jobs| ==> jobs[k].id.Name() in JobStore(jobs) && JobStore(jobs)[jobs[k].id.Name()] == jobs[k]
  {
    if jobs != [] {
      var prefix := jobs[..|jobs| - 1];
      var last := jobs[|jobs| - 1];
      JobStoreKeepsAll(prefix);
      FreshName(prefix, last);
      forall k | 0 <= k < |jobs|
        ensures jobs[k].id.Name() in JobStore(jobs) && JobStore(jobs)[jobs[k].id.Name()] == jobs[k]
      {
        if k < |jobs| - 1 {
          assert jobs[k] == prefix[k];
          if jobs[k].id.Name() == last.id.Name() {
            NameInjective(jobs[k].id, last.id);
          }
        }
      }
    }
  }

  /** A job whose id differs from every stored one adds a new key. */
  lemma FreshName(jobs: seq<Job>, job: Job)
    requires forall k :: 0 <= k < |jobs| ==> jobs[k].id != job.id
    ensures job.id.Name() !in JobStore(jobs)
  {
    if job.id.Name() in JobStore(jobs) {
      var k := StoreKeyFrom(jobs, job.id.Name());
      NameInjective(jobs[k].id, job.id);
      assert false;
    }
  }

  /** Every key of the store is the name of some job in it. */
  lemma {:induction false} StoreKeyFrom(jobs: seq<Job>, name: string) returns (k: nat)
    requires name in JobStore(jobs)
    ensures k < |jobs| && jobs[k].id.Name() == name
  {
    var prefix := jobs[..|jobs| - 1];
    if name == jobs[|jobs| - 1].id.Name() {
      k := |jobs| - 1;
    } else {
      k := StoreKeyFrom(prefix, name);
    }
  }

  /** Jobs are added in row order: the store after row `i` extends the store before it by that row's jobs, and the final store extends both. */
  lemma {:induction false} JobsInRowOrder(rows: seq<ForecastRow>, i: int)
    requires 0 <= i < |rows|
    ensures JobsFor(rows[..i + 1]) == JobsFor(rows[..i]) + RowJobs(rows[i])
    ensures JobsFor(rows[..i + 1]) <= JobsFor(rows)
    decreases |rows|
  {
    assert rows[..i + 1][..i] == rows[..i];
    if i < |rows| - 1 {
      var prefix := rows[..|rows| - 1];
      JobsInRowOrder(prefix, i);
      assert prefix[..i + 1] == rows[..i + 1] && prefix[..i] == rows[..i];
    } else {
      assert rows[..i + 1] == rows;
    }
  }

  /** The less usage a row is predicted, the more intensive (faster-looping) its computation. */
  lemma IntensityAntitone(s: int, t: int)
    requires 0 <= s < t <= 2
    ensures TaskDelay(IntensityFor(s).value.Name()) < TaskDelay(IntensityFor(t).value.Name())
  {
  }

  /** The seven-day forecast's indices are 0..671, so its jobs' ids never collide. */
  lemma ForecastJobIdsDistinct(rows: seq<ForecastRow>)
    requires forall i :: 0 <= i < |rows| ==> rows[i].index == i
    ensures forall i, j :: 0 <= i < j < |JobsFor(rows)| ==> JobsFor(rows)[i].id.Name() != JobsFor(rows)[j].id.Name()
  {
    DistinctJobIds(rows);
    forall i, j | 0 <= i < j < |JobsFor(rows)|
      ensures JobsFor(rows)[i].id.Name() != JobsFor(rows)[j].id.Name()
    {
      if JobsFor(rows)[i].id.Name() == JobsFor(rows)[j].id.Name() {
        NameInjective(JobsFor(rows)[i].id, JobsFor(rows)[j].id);
      }
    }
  }
}
