/** The backend and the monitoring hook together: what the frames one `/ingest`
    broadcasts do to the hook's telemetry, and what the hook's history reload gets
    back. Every frame is assumed delivered, in order, to the hook's socket. */
module System {
  import opened Common
  import opened Messages
  import opened Alerts
  import opened SessionStats
  import opened Monitoring
  import opened Windowing
  import opened Server

  function Frames(es: seq<Event>): (ms: seq<Message>)
    ensures |ms| == |es|
    ensures forall i :: 0 <= i < |es| ==> ms[i] == ToMessage(es[i])
  {
    if es == [] then [] else [ToMessage(es[0])] + Frames(es[1..])
  }

  /** The dispatch effect applied to frames in arrival order. */
  function DispatchAll(t: Telemetry, ms: seq<Message>): Telemetry
    decreases |ms|
  {
    if ms == [] then t else DispatchAll(Dispatch(t, ms[0]), ms[1..])
  }

  lemma DispatchShort(t: Telemetry, a: Message, b: Message)
    ensures DispatchAll(t, [a]) == Dispatch(t, a)
    ensures DispatchAll(t, [a, b]) == Dispatch(Dispatch(t, a), b)
  {
    assert [a][1..] == [];
    assert [a, b][1..] == [b];
    assert DispatchAll(t, [a, b]) == DispatchAll(Dispatch(t, a), [b]);
    assert DispatchAll(Dispatch(t, a), [b]) == Dispatch(Dispatch(t, a), b) by {
      assert [b][1..] == [];
    }
  }

  /** The hook shows exactly the session's history: the chart is the history and
      the statistics summarize it. */
  ghost predicate InSync(t: Telemetry, w: Window)
  {
    t.depthData == w.history && t.statistics == Summarize(w.history)
  }

  /** A reading that does not complete the session keeps the hook in step with
      the backend: the depth frame appends the reading to the chart and to the
      statistics exactly as the backend appends it to the history, and an inference
      frame touches neither. The buffer length shown is the one before
      consumption. */
  lemma IngestKeepsHookInSync(t: Telemetry, w: Window, sid: string, d: real, mode: Mode,
                              classify: seq<real> -> Scores)
    requires Inv(w) && InSync(t, w) && |w.history| < SessionLimit - 1
    ensures var s := Advance(w, d, mode);
      var u := DispatchAll(t, Frames(IngestEvents(sid, d, s, StepResult(s, classify))));
      InSync(u, s.after) && u.bufferLength == s.reportedLen &&
      (s.window.Some? ==> s.after.history != [])
  {
    var s := Advance(w, d, mode);
    var result := StepResult(s, classify);
    CompletionAt120(w, d, mode);
    assert s.completed.None? && s.after.history == w.history + [d];
    var depth := DepthData(d, s.reportedLen);
    DepthDispatch(t, w.history, d, s.reportedLen);
    var t1 := Dispatch(t, depth);
    assert InSync(t1, s.after);
    var es := IngestEvents(sid, d, s, result);
    if result.Some? {
      var inf := ToMessage(InferenceEvent(sid, result.value));
      assert es == [DepthEvent(sid, d, s.reportedLen, |s.after.history|), InferenceEvent(sid, result.value)];
      assert Frames(es) == [depth, inf];
      DispatchShort(t, depth, inf);
      assert Dispatch(t1, inf).depthData == t1.depthData;
    } else {
      assert es == [DepthEvent(sid, d, s.reportedLen, |s.after.history|)];
      assert Frames(es) == [depth];
      DispatchShort(t, depth, depth);
    }
  }

  /** The 120th reading leaves the two ends apart: the backend drops it together with
      the rest of the history, but the hook clears on the completion frame and then
      counts the same reading from the depth frame that follows, so its chart and
      statistics show one compression over an empty session. */
  lemma CompletionLeavesHookOneAhead(t: Telemetry, w: Window, sid: string, d: real, mode: Mode,
                                     classify: seq<real> -> Scores)
    requires Inv(w) && |w.history| == SessionLimit - 1
    ensures var s := Advance(w, d, mode);
      var u := DispatchAll(t, Frames(IngestEvents(sid, d, s, StepResult(s, classify))));
      s.after == Fresh &&
      u.depthData == [d] && u.statistics == Summarize([d]) && u.statistics.totalCompressions == 1 &&
      u.currentAlert == Some(Alert(Success, Server.CompleteText)) && u.bufferLength == 0
  {
    var s := Advance(w, d, mode);
    CompletionAt120(w, d, mode);
    assert s.completed == Some(SessionLimit) && s.after == Fresh && s.reportedLen == 0;
    var complete := SessionComplete(Some(Server.CompleteText));
    var depth := DepthData(d, 0);
    var es := IngestEvents(sid, d, s, StepResult(s, classify));
    assert es == [CompleteEvent(sid, SessionLimit), DepthEvent(sid, d, 0, 0)];
    assert Frames(es) == [complete, depth];
    DispatchShort(t, complete, depth);
    var t1 := Dispatch(t, complete);
    assert t1.statistics == Summarize([]) && t1.depthData == [];
    DepthDispatch(t1, [], d, 0);
    assert [] + [d] == [d];
  }

  /** The readings of a `/depth` reply, oldest first. */
  function Depths(r: DepthReply): (ds: seq<real>)
    ensures |ds| == |r.points|
    ensures forall i :: 0 <= i < |ds| ==> ds[i] == r.points[i].depth
  {
    seq(|r.points|, i requires 0 <= i < |r.points| => r.points[i].depth)
  }

  /** The hook's reload asks for 120 points, and a session never holds that many,
      so it receives the whole history; whenever the history is not empty (always
      after an inference) the reload puts the hook back in step with the backend. */
  lemma ReloadResyncs(b: Backend, sid: string, t: Telemetry)
    requires b.Valid()
    ensures var r := b.DepthData(sid, HistoryLimit as int);
      Depths(r) == b.WindowOf(sid).history && r.bufferLen == |b.WindowOf(sid).buffer| &&
      (b.WindowOf(sid).history != [] ==>
        InSync(LoadHistory(t, History(Depths(r), r.bufferLen)), b.WindowOf(sid)))
  {
    var w := b.WindowOf(sid);
    assert Inv(w);
    var r := b.DepthData(sid, HistoryLimit as int);
    assert |r.points| == |w.history|;
    assert Depths(r) == w.history;
  }

  /** The hook's last-result call applied to the backend's `/last` reply: the
      buffer length becomes the backend's, the prediction becomes the stored result
      when there is one and is kept otherwise, and chart and statistics are left as
      they were, so a hook in step with the backend stays in step. */
  lemma LastResyncs(b: Backend, sid: string, t: Telemetry)
    requires b.Valid()
    ensures var r := b.Last(sid);
      var u := LoadLast(t, LastResult(r.bufferLen, r.result));
      var w := b.WindowOf(sid);
      u.bufferLength == |w.buffer| &&
      (sid in b.lastResult ==> u.currentPrediction == Some(b.lastResult[sid])) &&
      (sid !in b.lastResult ==> u.currentPrediction == t.currentPrediction) &&
      u.currentAlert == t.currentAlert &&
      (InSync(t, w) ==> InSync(u, w))
  {
  }
}
