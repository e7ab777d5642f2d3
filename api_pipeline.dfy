/**
 * The pipeline routes: starting a run (refused while one is running), the
 * progress callback that turns a step's report into an event, the end of
 * the background run, one polling round of the event stream, and the
 * sanitising of Python values before they are sent as JSON.
 *
 * The pipeline itself, the thread that runs it, the configuration
 * overrides it applies and the timing of the stream's polling are outside
 * this model: a run's outcome is a parameter.
 */
module WebPipeline {
  import opened Common
  import opened WebState

  // ---------------------------------------------------------------------
  // _safe_serialize
  // ---------------------------------------------------------------------

  /** `_safe_serialize`: dicts and sequences recursively, sets sorted, NaN to None. */
  function SafeSerialize(o: PyObj): (r: PyObj)
    ensures o.PDict? ==> r.PDict? && r.entries.Keys == o.entries.Keys
    ensures o.PList? || o.PTuple? ==> r.PList? && |r.items| == |o.items|
    ensures o.PSet? ==> r.PList? && |r.items| == |SortedUnique(o.members)|
                        && forall i :: 0 <= i < |r.items| ==> r.items[i] == PStr(SortedUnique(o.members)[i])
    ensures o.PNaN? ==> r == PNone
    ensures !(o.PDict? || o.PList? || o.PTuple? || o.PSet? || o.PNaN?) ==> r == o
  {
    match o
    case PDict(m) => PDict(map k | k in m :: SafeSerialize(m[k]))
    case PList(xs) => PList(seq(|xs|, i requires 0 <= i < |xs| => SafeSerialize(xs[i])))
    case PTuple(xs) => PList(seq(|xs|, i requires 0 <= i < |xs| => SafeSerialize(xs[i])))
    case PSet(ms) =>
      var s := SortedUnique(ms);
      PList(seq(|s|, i requires 0 <= i < |s| => PStr(s[i])))
    case PNaN => PNone
    case _ => o
  }

  /**
   * A value in plain JSON shape: lists and dicts as the only containers and
   * no NaN, anywhere. `json.dumps` itself rejects a set, writes a tuple as a
   * list and NaN as the non-standard token `NaN`. Set members are strings
   * here, so after `_safe_serialize` none of the three is left
   * (`SerializedIsJsonSafe`); `sorted(obj)` does not recurse, so in the
   * program a set of tuples or holding NaN would keep them.
   */
  predicate JsonSafe(o: PyObj)
  {
    match o
    case PNaN => false
    case PSet(_) => false
    case PTuple(_) => false
    case PList(xs) => forall i :: 0 <= i < |xs| ==> JsonSafe(xs[i])
    case PDict(m) => forall k :: k in m ==> JsonSafe(m[k])
    case _ => true
  }

  /** Whatever goes in (sets holding strings only), what comes out is JSON-safe. */
  lemma {:induction false} SerializedIsJsonSafe(o: PyObj)
    ensures JsonSafe(SafeSerialize(o))
  {
    match o
    case PDict(m) =>
      forall k | k in m
        ensures JsonSafe(SafeSerialize(o).entries[k])
      {
        SerializedIsJsonSafe(m[k]);
      }
    case PList(xs) =>
      forall i | 0 <= i < |xs|
        ensures JsonSafe(SafeSerialize(o).items[i])
      {
        SerializedIsJsonSafe(xs[i]);
      }
    case PTuple(xs) =>
      forall i | 0 <= i < |xs|
        ensures JsonSafe(SafeSerialize(o).items[i])
      {
        SerializedIsJsonSafe(xs[i]);
      }
    case _ =>
  }

  /** A JSON-safe value is returned as it is. */
  lemma {:induction false} JsonSafeUnchanged(o: PyObj)
    requires JsonSafe(o)
    ensures SafeSerialize(o) == o
  {
    match o
    case PDict(m) =>
      forall k | k in m
        ensures SafeSerialize(m[k]) == m[k]
      {
        JsonSafeUnchanged(m[k]);
      }
      assert SafeSerialize(o).entries == m;
    case PList(xs) =>
      forall i | 0 <= i < |xs|
        ensures SafeSerialize(xs[i]) == xs[i]
      {
        JsonSafeUnchanged(xs[i]);
      }
      assert SafeSerialize(o).items == xs;
    case _ =>
  }

  /** Sanitising twice is sanitising once. */
  lemma SerializeIdempotent(o: PyObj)
    ensures SafeSerialize(SafeSerialize(o)) == SafeSerialize(o)
  {
    SerializedIsJsonSafe(o);
    JsonSafeUnchanged(SafeSerialize(o));
  }

  // ---------------------------------------------------------------------
  // The progress callback
  // ---------------------------------------------------------------------

  /**
   * The callback's payload: the data itself when it is a dict, a "message"
   * entry when it is a string, empty otherwise; a non-empty `extra` dict is
   * merged over it.
   */
  function Payload(data: PyObj, extra: PyObj): (r: map<string, PyObj>)
    ensures forall k :: extra.PDict? && k in extra.entries ==> k in r && r[k] == extra.entries[k]
    ensures forall k :: !(extra.PDict? && k in extra.entries) ==>
              (data.PDict? ==> (k in r <==> k in data.entries) && (k in r ==> r[k] == data.entries[k]))
              && (data.PStr? ==> (k in r <==> k == "message") && (k in r ==> r[k] == data))
              && (!data.PDict? && !data.PStr? ==> k !in r)
  {
    var base := if data.PDict? then data.entries else if data.PStr? then map["message" := data] else map[];
    if extra.PDict? && extra.entries != map[] then base + extra.entries else base
  }

  /** `callback(evt, data, extra)`: one event carrying the payload is appended to the run. */
  method Callback(run: RunInfo, evt: string, data: PyObj, extra: PyObj, ts: real)
    modifies run
    ensures run.events == old(run.events) + [Event(evt, Payload(data, extra), ts)]
    ensures run.status == old(run.status) && run.result == old(run.result)
  {
    var payload := Payload(data, extra);
    run.AddEvent(evt, Some(payload), ts);
  }

  // ---------------------------------------------------------------------
  // Starting and ending a run
  // ---------------------------------------------------------------------

  /** The steps run when the request names none. */
  const DefaultSteps: seq<string> := ["s1", "s2", "s3"]

  datatype StartReply =
    | AlreadyRunning(current: Current)
    | Started(runId: string, steps: seq<string>)

  /**
   * `executar_pipeline`: while a run is current nothing starts and the reply
   * says so; otherwise a new run is started with the requested steps (the
   * default three when the body has no "steps" key). A body with
   * `"steps": null` is not modelled: `body.get` then gives None and the run
   * starts with no list, where None here means the default three.
   */
  method Executar(app: AppState, steps: Option<seq<string>>, now: string) returns (reply: StartReply, run: RunInfo?)
    requires app.Valid()
    modifies app
    ensures app.Valid()
    ensures old(app.currentRun) != null ==>
              reply.AlreadyRunning? && run == null && unchanged(app)
              && reply.current == Running(app.currentRun.id, app.currentRun.steps, app.currentRun.started,
                                          |app.currentRun.events|, app.currentRun.LastEvent())
    ensures old(app.currentRun) == null ==>
              reply.Started? && run != null && fresh(run) && app.currentRun == run
              && app.runCounter == old(app.runCounter) + 1 && reply.runId == RunId(app.runCounter)
              && reply.steps == (if steps.Some? then steps.value else DefaultSteps)
              && run.steps == reply.steps && run.events == []
  {
    if app.currentRun != null {
      var cur := app.GetCurrent();
      return AlreadyRunning(cur), null;
    }
    var chosen := if steps.Some? then steps.value else DefaultSteps;
    run := app.StartRun(chosen, now);
    reply := Started(run.id, chosen);
  }

  /** How the pipeline ended: a result dict, or an exception's message. */
  datatype Outcome = Done(result: map<string, PyObj>) | Failed(message: string)

  /**
   * The end of the background run: a "pipeline_done" event carrying the
   * sanitised result and a completed run, or a "pipeline_error" event and a
   * run finished with the message as its error.
   */
  method Concluir(app: AppState, run: RunInfo, outcome: Outcome, traceback: string, ts: real, now: string)
    requires app.Valid() && app.currentRun == run
    modifies app, run
    ensures app.Valid() && app.currentRun == null && app.lastCompletedRun == run
    ensures outcome.Done? ==>
              run.events == old(run.events) + [Event("pipeline_done", map["result" := SafeSerialize(PDict(outcome.result))], ts)]
              && run.status == "completed" && run.result == outcome.result
    ensures outcome.Failed? ==>
              run.events == old(run.events) + [Event("pipeline_error", map["error" := PStr(outcome.message), "tb" := PStr(traceback)], ts)]
              && run.status == StatusOf(Some(outcome.message)) && run.result == ResultOf(None, Some(outcome.message))
  {
    if outcome.Done? {
      run.AddEvent("pipeline_done", Some(map["result" := SafeSerialize(PDict(outcome.result))]), ts);
      app.FinishRun(Some(outcome.result), None, now);
    } else {
      run.AddEvent("pipeline_error", Some(map["error" := PStr(outcome.message), "tb" := PStr(traceback)]), ts);
      app.FinishRun(None, Some(outcome.message), now);
    }
  }

  // ---------------------------------------------------------------------
  // The event stream
  // ---------------------------------------------------------------------

  /** What the stream sends: an event with its index, the end marker, or a heartbeat. */
  datatype Message = Sent(idx: int, payload: map<string, PyObj>) | StreamEnd(idx: int) | Heartbeat

  /** An event as the stream sends it: its fields sanitised, and its index under "_idx". */
  function Framed(e: Event, idx: int): map<string, PyObj>
  {
    SafeSerialize(PDict(map["event" := PStr(e.evt), "data" := PDict(e.data), "ts" := PFloat(e.ts)])).entries["_idx" := PInt(idx)]
  }

  /** The messages for a batch of events numbered from `start`. */
  function Batch(evs: seq<Event>, start: int): (r: seq<Message>)
    ensures |r| == |evs|
  {
    seq(|evs|, k requires 0 <= k < |evs| => Sent(start + k, Framed(evs[k], start + k)))
  }

  /** The inner loop of `generate`: each event is sent with the counter, which then advances. */
  method Enviar(evs: seq<Event>, start: int) returns (msgs: seq<Message>, idx: int)
    ensures msgs == Batch(evs, start) && idx == start + |evs|
  {
    msgs := [];
    idx := start;
    for k := 0 to |evs|
      invariant idx == start + k
      invariant msgs == Batch(evs[..k], start)
    {
      msgs := msgs + [Sent(idx, Framed(evs[k], idx))];
      idx := idx + 1;
    }
    assert evs[..|evs|] == evs;
  }

  /**
   * Every message of a batch read from index `i` carries the position of its
   * event in the run's log, and the next index is just past the last one sent.
   */
  lemma BatchIndices(evs: seq<Event>, i: nat)
    requires i <= |evs|
    ensures var (news, next) := Since(evs, i);
            var msgs := Batch(news, i);
            next == i + |msgs|
            && forall k :: 0 <= k < |msgs| ==>
                 i + k < |evs| && msgs[k] == Sent(i + k, Framed(evs[i + k], i + k))
  {
  }

  /**
   * One round of `generate` from `since`: the events not yet seen, numbered
   * from `since`; then a heartbeat while the run is still going, or (the
   * final re-read being empty) the end marker with the next index.
   */
  method Rodada(app: AppState, since: nat) returns (msgs: seq<Message>, more: bool)
    ensures var run := if app.currentRun != null then app.currentRun else app.lastCompletedRun;
            (run == null ==> msgs == [StreamEnd(0)] && !more)
            && (run != null && app.currentRun != null ==>
                  msgs == Batch(Since(run.events, since).0, since) + [Heartbeat] && more)
            && (run != null && app.currentRun == null ==>
                  msgs == Batch(Since(run.events, since).0, since) + [StreamEnd(Since(run.events, since).1)] && !more)
  {
    var idx: int := since;
    var events, newIdx, running, runId := app.GetRunEvents(idx);
    msgs, idx := Enviar(events, idx);
    idx := newIdx;
    if !running {
      var final, _, _, _ := app.GetRunEvents(idx);
      var tail;
      tail, idx := Enviar(final, idx);
      msgs := msgs + tail + [StreamEnd(idx)];
      return msgs, false;
    }
    msgs := msgs + [Heartbeat];
    more := true;
  }
}
