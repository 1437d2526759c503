/**
 * The computation manager the interface reads and writes: the current
 * calculation (cycle, molecule, status) and an append-only history of
 * finished calculations.
 */
module Manager {
  import opened Wrappers

  /** The `current_calculation` dictionary. */
  datatype CurrentCalculation = CurrentCalculation(cycle: int, molecule: Option<string>, status: string)

  /** One `calculation_history` entry. */
  datatype HistoryEntry = HistoryEntry(name: string, score: real, date: string, cpuTime: real)

  class ComputationManager {
    var currentCalculation: CurrentCalculation
    var calculationHistory: seq<HistoryEntry>

    /** A fresh manager: cycle 0, no molecule, status 'idle', empty history. */
    constructor ()
      ensures currentCalculation == CurrentCalculation(0, None, "idle")
      ensures calculationHistory == []
    {
      currentCalculation := CurrentCalculation(0, None, "idle");
      calculationHistory := [];
    }

    /** Sets the cycle and the molecule; the status and the history stay. */
    method UpdateCurrentCalculation(cycle: int, molecule: Option<string>)
      modifies this
      ensures currentCalculation.cycle == cycle && currentCalculation.molecule == molecule
      ensures currentCalculation.status == old(currentCalculation.status)
      ensures calculationHistory == old(calculationHistory)
      ensures calculationHistory == HistoryAfter(old(calculationHistory), [Update(cycle, molecule)])
    {
      currentCalculation := currentCalculation.(cycle := cycle);
      currentCalculation := currentCalculation.(molecule := molecule);
    }

    /** Appends one entry; earlier entries and the current calculation stay. */
    method AddToHistory(name: string, score: real, date: string, cpuTime: real)
      modifies this
      ensures |calculationHistory| == |old(calculationHistory)| + 1
      ensures calculationHistory[..|old(calculationHistory)|] == old(calculationHistory)
      ensures calculationHistory[|calculationHistory| - 1] == HistoryEntry(name, score, date, cpuTime)
      ensures currentCalculation == old(currentCalculation)
      ensures calculationHistory == HistoryAfter(old(calculationHistory), [Record(HistoryEntry(name, score, date, cpuTime))])
    {
      calculationHistory := calculationHistory + [HistoryEntry(name, score, date, cpuTime)];
    }
  }

  /** A sequence of manager calls, as the interface may issue them. */
  datatype Call =
    | Update(cycle: int, molecule: Option<string>)
    | Record(entry: HistoryEntry)

  /** The history after a sequence of calls: updates leave it, records append to it. */
  function HistoryAfter(history: seq<HistoryEntry>, calls: seq<Call>): (h: seq<HistoryEntry>)
    ensures (forall k :: 0 <= k < |calls| ==> calls[k].Update?) ==> h == history
    decreases |calls|
  {
    if calls == [] then history
    else
      var next := if calls[0].Record? then history + [calls[0].entry] else history;
      HistoryAfter(next, calls[1..])
  }

  /** How many calls record an entry. */
  function Records(calls: seq<Call>): nat
  {
    if calls == [] then 0 else (if calls[0].Record? then 1 else 0) + Records(calls[1..])
  }

  /** No call removes or reorders entries: the old history stays a prefix, grown by one per record. */
  lemma {:induction false} HistoryAppendOnly(history: seq<HistoryEntry>, calls: seq<Call>)
    ensures |HistoryAfter(history, calls)| == |history| + Records(calls)
    ensures HistoryAfter(history, calls)[..|history|] == history
    decreases |calls|
  {
    if calls != [] {
      var next := if calls[0].Record? then history + [calls[0].entry] else history;
      HistoryAppendOnly(next, calls[1..]);
      assert next[..|history|] == history;
    }
  }
}
