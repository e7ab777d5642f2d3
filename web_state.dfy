/**
 * The web application's state: one `RunInfo` per pipeline run, holding an
 * append-only event log that stream clients read from an index, and the
 * `AppState` singleton that starts and finishes runs and keeps a capped
 * history of finished ones.
 *
 * Locks are no-ops (the model is sequential); the clock is a parameter
 * (`now` for ISO timestamps, `ts` for event times).
 */
module WebState {
  import opened Common

  /** A Python value as the pipeline hands it to the web layer. */
  datatype PyObj =
    | PNone
    | PBool(b: bool)
    | PInt(i: int)
    | PFloat(r: real)
    | PNaN
    | PStr(s: string)
    | PList(items: seq<PyObj>)
    | PTuple(items: seq<PyObj>)
    | PSet(members: seq<string>)
    | PDict(entries: map<string, PyObj>)

  /** One entry of a run's event log. */
  datatype Event = Event(evt: string, data: map<string, PyObj>, ts: real)

  /**
   * `get_events_since(index)`: nothing new (and the same index) when the
   * index is at or past the end; otherwise the events from `index` on, with
   * Python's reading of a negative start, and the length of the log.
   */
  function Since(events: seq<Event>, index: int): (r: (seq<Event>, int))
    ensures index >= |events| ==> r.0 == [] && r.1 == index
    ensures 0 <= index < |events| ==> r.0 == events[index..] && r.1 == |events|
    ensures index < 0 ==> r.0 == events[(if |events| + index < 0 then 0 else |events| + index)..] && r.1 == |events|
    ensures index >= 0 ==> r.1 >= index
  {
    if index >= |events| then ([], index)
    else if index >= 0 then (events[index..], |events|)
    else (events[(if |events| + index < 0 then 0 else |events| + index)..], |events|)
  }

  /**
   * Reconnecting loses nothing and repeats nothing: a client that read from
   * `i` and then, after more events were appended, reads again from the
   * index it was given, has received exactly the events from `i` on.
   */
  lemma ResumeLosesNothing(before: seq<Event>, after: seq<Event>, i: nat)
    requires before <= after && i <= |before|
    ensures var (a, j) := Since(before, i);
            var (b, k) := Since(after, j);
            a + b == after[i..] && k == |after|
  {
    if i < |before| && |before| < |after| {
      assert after[i..] == before[i..] + after[|before|..];
    }
  }

  /** One finished run as `get_history` lists it. */
  datatype HistoryEntry = HistoryEntry(
    id: string, steps: seq<string>, started: string, finished: string,
    status: string, eventsTotal: nat, summary: map<string, PyObj>)

  /** How many finished runs the history keeps. */
  const MaxHistory: nat := 50

  /** The result keys copied into a history entry's summary. */
  const SummaryKeys: set<string> :=
    {"processados", "processos", "detalhes", "elapsed", "total_processos", "total_entidades"}

  /** `f"run_{n:04d}"`. */
  function RunId(n: nat): string
  {
    "run_" + ZFill(NatToString(n), 4)
  }

  lemma {:induction false} LeadingZeros(k: nat, s: string)
    requires AllDigits(s)
    ensures AllDigits(Repeat('0', k) + s)
    ensures DigitsToNat(Repeat('0', k) + s) == DigitsToNat(s)
    decreases |s|, k
  {
    var t := Repeat('0', k) + s;
    if |s| > 0 {
      LeadingZeros(k, s[..|s| - 1]);
      assert t[..|t| - 1] == Repeat('0', k) + s[..|s| - 1];
    } else if k > 0 {
      LeadingZeros(k - 1, s);
      assert t[..|t| - 1] == Repeat('0', k - 1) + s;
    }
  }

  /** A run id is "run_" followed by digits that read back as the run number. */
  lemma RunIdNumber(n: nat)
    ensures |RunId(n)| >= 8 && RunId(n)[..4] == "run_"
    ensures AllDigits(RunId(n)[4..]) && DigitsToNat(RunId(n)[4..]) == n
  {
    var d := NatToString(n);
    DigitsToNatOfNatToString(n);
    assert RunId(n)[4..] == ZFill(d, 4);
    if |d| < 4 {
      assert ZFill(d, 4) == Repeat('0', 4 - |d|) + d;
      LeadingZeros(4 - |d|, d);
    }
  }

  /** Different run numbers give different run ids. */
  lemma RunIdsDistinct(n: nat, m: nat)
    requires n != m
    ensures RunId(n) != RunId(m)
  {
    RunIdNumber(n);
    RunIdNumber(m);
  }

  /** `history[-50:]` once the history is longer than 50. */
  function Capped(h: seq<HistoryEntry>): (r: seq<HistoryEntry>)
    ensures |r| <= MaxHistory && |r| <= |h|
    ensures r == h[|h| - |r|..]
    ensures |h| <= MaxHistory ==> r == h
  {
    if |h| > MaxHistory then h[|h| - MaxHistory..] else h
  }

  /** Appending to a capped history and capping again keeps the newest entry last. */
  lemma CappedKeepsNewest(h: seq<HistoryEntry>, e: HistoryEntry)
    requires |h| <= MaxHistory
    ensures var r := Capped(h + [e]);
            |r| == (if |h| == MaxHistory then MaxHistory else |h| + 1)
            && r[|r| - 1] == e && r[..|r| - 1] == h[|h| + 1 - |r|..]
  {
  }

  /** The history newest first. */
  function NewestFirst(h: seq<HistoryEntry>): (r: seq<HistoryEntry>)
    ensures |r| == |h|
    ensures forall i :: 0 <= i < |h| ==> r[i] == h[|h| - 1 - i]
  {
    seq(|h|, i requires 0 <= i < |h| => h[|h| - 1 - i])
  }

  /** `if error:` -- an absent or empty message counts as no error. */
  predicate HasError(error: Option<string>)
  {
    error.Some? && error.value != ""
  }

  /** The run's status once finished. */
  function StatusOf(error: Option<string>): (s: string)
    ensures s == "error" <==> HasError(error)
    ensures s == "completed" <==> !HasError(error)
  {
    if HasError(error) then "error" else "completed"
  }

  /** `result or {}`, with the error message added under "error" when there is one. */
  function ResultOf(result: Option<map<string, PyObj>>, error: Option<string>): (r: map<string, PyObj>)
    ensures HasError(error) ==> "error" in r && r["error"] == PStr(error.value)
    ensures forall k :: k != "error" ==> (k in r <==> result.Some? && k in result.value)
    ensures forall k :: k != "error" && k in r ==> r[k] == result.value[k]
    ensures !HasError(error) ==> r == (if result.Some? then result.value else map[])
  {
    var base := if result.Some? then result.value else map[];
    if HasError(error) then base["error" := PStr(error.value)] else base
  }

  /** The result entries a history entry keeps. */
  function Summary(result: Option<map<string, PyObj>>): (r: map<string, PyObj>)
    ensures forall k :: k in r <==> k in SummaryKeys && result.Some? && k in result.value
    ensures forall k :: k in r ==> r[k] == result.value[k]
  {
    if result.None? then map[] else map k | k in result.value && k in SummaryKeys :: result.value[k]
  }

  /** What `get_current` reports. */
  datatype Current =
    | Idle
    | LastRun(id: string, status: string, started: string, finished: string, eventsTotal: nat)
    | Running(id: string, steps: seq<string>, started: string, eventsTotal: nat, lastEvent: Option<Event>)

  /** One pipeline run and its event log. */
  class RunInfo {
    const id: string
    const steps: seq<string>
    const started: string
    var status: string
    var finished: string
    var result: map<string, PyObj>
    var events: seq<Event>

    constructor(id: string, steps: seq<string>, started: string)
      ensures this.id == id && this.steps == steps && this.started == started
      ensures status == "running" && finished == "" && result == map[] && events == []
    {
      this.id := id;
      this.steps := steps;
      this.started := started;
      status := "running";
      finished := "";
      result := map[];
      events := [];
    }

    /** `add_event`: the event goes at the end of the log; nothing else changes. */
    method AddEvent(evt: string, data: Option<map<string, PyObj>>, ts: real)
      modifies this
      ensures events == old(events) + [Event(evt, if data.Some? then data.value else map[], ts)]
      ensures status == old(status) && finished == old(finished) && result == old(result)
    {
      events := events + [Event(evt, if data.Some? then data.value else map[], ts)];
    }

    method GetEventsSince(index: int) returns (news: seq<Event>, next: int)
      ensures (news, next) == Since(events, index)
    {
      if index >= |events| {
        return [], index;
      }
      news := events[(if index >= 0 then index else if |events| + index < 0 then 0 else |events| + index)..];
      next := |events|;
    }

    /** `last_event`: the newest event, if any. */
    function LastEvent(): (r: Option<Event>)
      reads this
      ensures r.Some? <==> |events| > 0
      ensures r.Some? ==> r.value == events[|events| - 1]
    {
      if |events| > 0 then Some(events[|events| - 1]) else None
    }
  }

  /** The application state: the running run, the last finished one and the history. */
  class AppState {
    var currentRun: RunInfo?
    var lastCompletedRun: RunInfo?
    var history: seq<HistoryEntry>
    var runCounter: nat

    ghost predicate Valid()
      reads this
    {
      |history| <= MaxHistory && (currentRun != null ==> currentRun.id == RunId(runCounter))
    }

    constructor()
      ensures Valid()
      ensures currentRun == null && lastCompletedRun == null && history == [] && runCounter == 0
    {
      currentRun := null;
      lastCompletedRun := null;
      history := [];
      runCounter := 0;
    }

    function IsRunning(): bool
      reads this
    {
      currentRun != null
    }

    /**
     * `start_run`: the next run number, a fresh run named after it with an
     * empty log, made the current run.
     */
    method StartRun(steps: seq<string>, now: string) returns (run: RunInfo)
      requires Valid()
      modifies this
      ensures Valid()
      ensures fresh(run) && currentRun == run
      ensures runCounter == old(runCounter) + 1 && run.id == RunId(runCounter)
      ensures run.steps == steps && run.started == now && run.status == "running"
      ensures run.finished == "" && run.result == map[] && run.events == []
      ensures lastCompletedRun == old(lastCompletedRun) && history == old(history)
    {
      runCounter := runCounter + 1;
      run := new RunInfo(RunId(runCounter), steps, now);
      currentRun := run;
    }

    /**
     * `finish_run`: nothing without a current run; otherwise the run is
     * stamped, given its status and result, becomes the last completed run,
     * is recorded in the capped history, and no run is current any more.
     */
    method FinishRun(result: Option<map<string, PyObj>>, error: Option<string>, now: string)
      requires Valid()
      modifies this, currentRun
      ensures Valid()
      ensures runCounter == old(runCounter)
      ensures old(currentRun) == null ==>
                currentRun == null && lastCompletedRun == old(lastCompletedRun) && history == old(history)
      ensures old(currentRun) != null ==>
                var run := old(currentRun);
                currentRun == null && lastCompletedRun == run
                && run.status == StatusOf(error) && run.finished == now
                && run.result == ResultOf(result, error) && run.events == old(run.events)
                && history == Capped(old(history) + [HistoryEntry(run.id, run.steps, run.started, now,
                                                                  StatusOf(error), |run.events|, Summary(result))])
                && NewestFirst(history)[0].id == run.id
    {
      var run := currentRun;
      if run != null {
        run.finished := now;
        run.status := StatusOf(error);
        run.result := ResultOf(result, error);
        lastCompletedRun := run;
        history := Capped(history + [HistoryEntry(run.id, run.steps, run.started, now,
                                                  StatusOf(error), |run.events|, Summary(result))]);
        currentRun := null;
      }
    }

    /**
     * `get_run_events`: read the current run, else the last completed one,
     * else report nothing at index 0.
     */
    method GetRunEvents(since: int) returns (events: seq<Event>, newIdx: int, running: bool, runId: Option<string>)
      ensures running <==> currentRun != null
      ensures currentRun != null ==>
                (events, newIdx) == Since(currentRun.events, since) && runId == Some(currentRun.id)
      ensures currentRun == null && lastCompletedRun != null ==>
                (events, newIdx) == Since(lastCompletedRun.events, since) && runId == Some(lastCompletedRun.id)
      ensures currentRun == null && lastCompletedRun == null ==>
                events == [] && newIdx == 0 && runId == None
    {
      var run := if currentRun != null then currentRun else lastCompletedRun;
      if run == null {
        return [], 0, false, None;
      }
      events, newIdx := run.GetEventsSince(since);
      running := currentRun != null;
      runId := Some(run.id);
    }

    /** `get_current`. */
    method GetCurrent() returns (c: Current)
      ensures currentRun != null ==>
                c == Running(currentRun.id, currentRun.steps, currentRun.started,
                             |currentRun.events|, currentRun.LastEvent())
      ensures currentRun == null && lastCompletedRun != null ==>
                c == LastRun(lastCompletedRun.id, lastCompletedRun.status, lastCompletedRun.started,
                             lastCompletedRun.finished, |lastCompletedRun.events|)
      ensures currentRun == null && lastCompletedRun == null ==> c == Idle
    {
      if currentRun == null {
        if lastCompletedRun != null {
          var r := lastCompletedRun;
          return LastRun(r.id, r.status, r.started, r.finished, |r.events|);
        }
        return Idle;
      }
      var r := currentRun;
      c := Running(r.id, r.steps, r.started, |r.events|, r.LastEvent());
    }

    /** `get_history`: the finished runs, newest first. */
    method GetHistory() returns (h: seq<HistoryEntry>)
      requires Valid()
      ensures |h| == |history| && |h| <= MaxHistory
      ensures forall i :: 0 <= i < |h| ==> h[i] == history[|history| - 1 - i]
    {
      h := NewestFirst(history);
    }
  }
}
