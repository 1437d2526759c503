/**
 * The computation controller: a process-wide status record
 * `{running, intensity}` changed only by start and stop, where a start from
 * the idle state also spawns one background task. Starting while running and
 * stopping while idle change nothing.
 */
module Simulation {
  import opened Wrappers

  datatype Intensity = High | Medium | Low
  {
    /** The intensity string the controller stores and hands to the background computation. */
    function Name(): string
    {
      match this
      case High => "HIGH"
      case Medium => "MEDIUM"
      case Low => "LOW"
    }
  }

  /** Seconds `mock_computation_task` sleeps per iteration for an intensity string. */
  function TaskDelay(intensity: string): (seconds: nat)
    ensures 1 <= seconds <= 4
    ensures seconds == 4 <==> intensity != "HIGH" && intensity != "MEDIUM" && intensity != "LOW"
  {
    if intensity == "HIGH" then 1
    else if intensity == "MEDIUM" then 2
    else if intensity == "LOW" then 3
    else 4
  }

  /**
   * The status record, plus the intensities of the background tasks spawned
   * so far, oldest first.
   */
  datatype State = State(running: bool, intensity: Option<Intensity>, spawned: seq<Intensity>)

  const Initial: State := State(false, None, [])

  /** `start_<intensity>_computation` */
  function StartStep(s: State, intensity: Intensity): (r: State)
    ensures r.running
    ensures |s.spawned| <= |r.spawned| <= |s.spawned| + 1
    ensures r.spawned[..|s.spawned|] == s.spawned
  {
    if !s.running then State(true, Some(intensity), s.spawned + [intensity])
    else s
  }

  /** `stop_computation` */
  function StopStep(s: State): (r: State)
    ensures !r.running
    ensures r.spawned == s.spawned
  {
    if s.running then s.(running := false)
    else s
  }

  datatype Command = Start(intensity: Intensity) | Stop

  function Step(s: State, c: Command): State
  {
    match c
    case Start(i) => StartStep(s, i)
    case Stop => StopStep(s)
  }

  /** The state after a sequence of start and stop calls. */
  function Run(s: State, cmds: seq<Command>): (r: State)
    ensures cmds != [] ==> (r.running <==> cmds[|cmds| - 1].Start?)
    decreases |cmds|
  {
    if cmds == [] then s else Run(Step(s, cmds[0]), cmds[1..])
  }

  /** How many calls in `cmds` find the controller idle and start it. */
  function Spawns(s: State, cmds: seq<Command>): nat
    decreases |cmds|
  {
    if cmds == [] then 0
    else (if cmds[0].Start? && !s.running then 1 else 0) + Spawns(Step(s, cmds[0]), cmds[1..])
  }

  /**
   * The stored intensity is that of the last task spawned, or none before the
   * first; a running controller has spawned at least one task.
   */
  ghost predicate Consistent(s: State)
  {
    (s.spawned == [] ==> s.intensity == None && !s.running) &&
    (s.spawned != [] ==> s.intensity == Some(s.spawned[|s.spawned| - 1]))
  }

  class ComputationStatus {
    var running: bool
    var intensity: Option<Intensity>
    /** The background tasks started so far, by intensity. */
    var spawned: seq<Intensity>

    function Current(): State
      reads this
    {
      State(running, intensity, spawned)
    }

    /** `computation_status = {'running': False, 'intensity': None}` */
    constructor ()
      ensures Current() == Initial
    {
      running := false;
      intensity := None;
      spawned := [];
    }

    /** The body shared by the three start functions. */
    method Start(level: Intensity)
      modifies this
      ensures Current() == StartStep(old(Current()), level)
    {
      if !running {
        running := true;
        intensity := Some(level);
        spawned := spawned + [level];
      }
    }

    method StartHighIntensityComputation()
      modifies this
      ensures Current() == StartStep(old(Current()), High)
    {
      Start(High);
    }

    method StartMediumIntensityComputation()
      modifies this
      ensures Current() == StartStep(old(Current()), Medium)
    {
      Start(Medium);
    }

    method StartLowIntensityComputation()
      modifies this
      ensures Current() == StartStep(old(Current()), Low)
    {
      Start(Low);
    }

    method StopComputation()
      modifies this
      ensures Current() == StopStep(old(Current()))
    {
      if running {
        running := false;
      }
    }
  }

  // ---------------------------------------------------------------------
  // Properties
  // ---------------------------------------------------------------------

  /** A faster loop for a more intensive computation; any other string is slowest. */
  lemma DelayOrder(other: string)
    requires other != "HIGH" && other != "MEDIUM" && other != "LOW"
    ensures TaskDelay(High.Name()) < TaskDelay(Medium.Name()) < TaskDelay(Low.Name()) < TaskDelay(other)
  {
  }

  /** Start from idle runs at the requested intensity and spawns one task; while running it changes nothing. */
  lemma StartTransition(s: State, i: Intensity)
    ensures !s.running ==> StartStep(s, i).running && StartStep(s, i).intensity == Some(i)
    ensures !s.running ==> StartStep(s, i).spawned == s.spawned + [i]
    ensures s.running ==> StartStep(s, i) == s
  {
  }

  /** Stop while running idles the controller and keeps the last intensity; while idle it changes nothing. */
  lemma StopTransition(s: State)
    ensures s.running ==> !StopStep(s).running && StopStep(s).intensity == s.intensity
    ensures StopStep(s).spawned == s.spawned
    ensures !s.running ==> StopStep(s) == s
  {
  }

  /** Two starts in a row spawn exactly one task, at the first one's intensity. */
  lemma TwoStartsSpawnOnce(s: State, i: Intensity, j: Intensity)
    requires !s.running
    ensures StartStep(StartStep(s, i), j) == StartStep(s, i)
    ensures |StartStep(StartStep(s, i), j).spawned| == |s.spawned| + 1
  {
  }

  /** Start followed by stop from idle ends idle. */
  lemma StartThenStop(s: State, i: Intensity)
    requires !s.running
    ensures !StopStep(StartStep(s, i)).running
    ensures StopStep(StartStep(s, i)).intensity == Some(i)
  {
  }

  /** Any sequence of calls keeps `Consistent`. */
  lemma {:induction false} RunKeepsConsistent(s: State, cmds: seq<Command>)
    requires Consistent(s)
    ensures Consistent(Run(s, cmds))
    decreases |cmds|
  {
    if cmds != [] {
      var next := Step(s, cmds[0]);
      assert Consistent(next);
      RunKeepsConsistent(next, cmds[1..]);
    }
  }

  /**
   * Spawned tasks are only ever appended, one per start that found the
   * controller idle.
   */
  lemma {:induction false} RunSpawns(s: State, cmds: seq<Command>)
    ensures |Run(s, cmds).spawned| == |s.spawned| + Spawns(s, cmds)
    ensures Run(s, cmds).spawned[..|s.spawned|] == s.spawned
    decreases |cmds|
  {
    if cmds != [] {
      var next := Step(s, cmds[0]);
      RunSpawns(next, cmds[1..]);
      assert next.spawned[..|s.spawned|] == s.spawned;
    }
  }

  /** A run of starts with no stop among them spawns at most one task; once running, it changes nothing. */
  lemma {:induction false} StartsWithoutStopSpawnAtMostOnce(s: State, cmds: seq<Command>)
    requires forall k :: 0 <= k < |cmds| ==> cmds[k].Start?
    ensures Spawns(s, cmds) <= 1
    ensures s.running ==> Spawns(s, cmds) == 0 && Run(s, cmds) == s
    decreases |cmds|
  {
    if cmds != [] {
      var next := Step(s, cmds[0]);
      assert next.running;
      StartsWithoutStopSpawnAtMostOnce(next, cmds[1..]);
    }
  }
}
