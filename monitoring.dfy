/** The monitoring hook (`useCPRMonitoring`): the telemetry a session shows
    (prediction, chart series, statistics, alert, buffer length) and the error text,
    changed by the message-dispatch effect, by the history reload and by the reset
    action. The pure functions say what each step does to a snapshot of that state;
    the class holds the state and its methods are tied to those functions. */
module Monitoring {
  import opened Common
  import opened Messages
  import opened Alerts
  import opened SessionStats
  import opened WebSocketHook

  /** The chart keeps at most this many points (`slice(-120)`). */
  const ChartWindow: nat := 120
  /** History points requested when reloading (`getDepthData(sessionId, 120)`). */
  const HistoryLimit: nat := 120
  const CompleteText: string := "120 kompresi tercapai! Sesi direset otomatis."
  const ResetText: string := "Sesi direset manual."
  const LoadFailedText: string := "Failed to load depth data"
  const LastFailedText: string := "Failed to get last result"
  const ResetFailedText: string := "Failed to reset session"

  /** The session state the hook exposes, minus identity, connection and error. */
  datatype Telemetry = Telemetry(
    currentPrediction: Option<Prediction>,
    depthData: seq<real>,
    statistics: Stats,
    currentAlert: Option<Alert>,
    bufferLength: int)

  /** The reply of the history call: the readings, oldest first, and the backend's
      inference-buffer length. */
  datatype History = History(depths: seq<real>, bufferLen: int)

  /** The reply of the last-result call: the backend's buffer length and its last
      prediction, if any. */
  datatype LastResult = LastResult(bufferLen: int, result: Option<Prediction>)

  /** An HTTP call the hook starts, by the session it names: `getLastResult`,
      `loadDepthData` and the reset call of `clearData`. */
  datatype Call = LastResultCall(session: string) | DepthCall(session: string) | ResetCall(session: string)

  /** `arr.slice(-n)`: the last `n` elements, or all of them when there are fewer.
      `slice(-0)` is `slice(0)`, the whole array. */
  function KeepLast<T>(s: seq<T>, n: nat): (r: seq<T>)
    ensures n == 0 ==> r == s
    ensures n > 0 ==> |r| == if |s| <= n then |s| else n
    ensures r == s[|s| - |r|..]
  {
    if n == 0 || |s| <= n then s else s[|s| - n..]
  }

  /** Success alert of a session event: the server's text unless missing or empty. */
  function SessionAlert(text: Option<string>, fallback: string): Alert
  {
    Alert(Success, OrElse(text, fallback))
  }

  /** The message-dispatch effect for one non-null `lastMessage`. */
  function Dispatch(t: Telemetry, m: Message): Telemetry
  {
    match m
    case Inference(_, _, _) =>
      var p := CompletePrediction(m);
      if p.Some? then
        t.(currentPrediction := p, currentAlert := Some(ModelAlert(p.value.classIndex)))
      else t
    case DepthData(d, len) =>
      t.(depthData := KeepLast(t.depthData + [d], ChartWindow),
         statistics := Record(t.statistics, d),
         bufferLength := len)
    case SessionComplete(text) =>
      t.(currentAlert := Some(SessionAlert(text, CompleteText)),
         depthData := [], statistics := Initial, bufferLength := 0)
    case SessionReset(text) =>
      t.(currentAlert := Some(SessionAlert(text, ResetText)),
         depthData := [], statistics := Initial, bufferLength := 0)
    case ModeChange(_, _) => t
    case Other(_) => t
  }

  /** Whether the effect also starts a history reload (`loadDepthData()`). */
  predicate ReloadsHistory(m: Message)
  {
    CompletePrediction(m).Some?
  }

  /** A successful history reload: the series and buffer length are replaced; the
      statistics are recomputed only when the history is not empty. */
  function LoadHistory(t: Telemetry, h: History): Telemetry
  {
    t.(depthData := h.depths,
       bufferLength := h.bufferLen,
       statistics := if |h.depths| > 0 then Summarize(h.depths) else t.statistics)
  }

  /** A successful last-result call: the buffer length is replaced, and the
      prediction too when the reply carries one. The alert is not touched. */
  function LoadLast(t: Telemetry, r: LastResult): Telemetry
  {
    t.(bufferLength := r.bufferLen,
       currentPrediction := if r.result.Some? then r.result else t.currentPrediction)
  }

  /** What `clearData` leaves after the reset call succeeds. */
  const Cleared: Telemetry := Telemetry(None, [], Initial, None, 0)

  /** An inference frame changes prediction and alert only when class index, label
      and probabilities are all present; the alert is the table's alert for the
      index; nothing else changes. */
  lemma InferenceDispatch(t: Telemetry, m: Message)
    requires m.Inference?
    ensures m.classIndex.None? || m.classLabel.None? || m.probs.None? ==> Dispatch(t, m) == t
    ensures m.classIndex.Some? && m.classLabel.Some? && m.probs.Some? ==>
      Dispatch(t, m) == t.(currentPrediction := Some(Prediction(m.classIndex.value, m.classLabel.value, m.probs.value)),
                           currentAlert := Some(ModelAlert(m.classIndex.value)))
  {
  }

  /** A depth frame appends to the chart, which keeps its newest 120 points, sets
      the buffer length to the frame's, and moves the statistics of readings `xs`
      to those of `xs` followed by the new reading. */
  lemma DepthDispatch(t: Telemetry, xs: seq<real>, d: real, len: int)
    requires t.statistics == Summarize(xs)
    ensures var u := Dispatch(t, DepthData(d, len));
      u.statistics == Summarize(xs + [d]) &&
      |u.depthData| <= ChartWindow && u.depthData[|u.depthData| - 1] == d &&
      (|t.depthData| < ChartWindow ==> u.depthData == t.depthData + [d]) &&
      u.bufferLength == len &&
      u.currentPrediction == t.currentPrediction && u.currentAlert == t.currentAlert
  {
    RecordMatchesSummarize(xs, d);
  }

  /** `session_complete` and `session_reset` raise a success alert, empty the
      series, zero the statistics and the buffer length, and keep the prediction. */
  lemma SessionEventDispatch(t: Telemetry, m: Message)
    requires m.SessionComplete? || m.SessionReset?
    ensures var u := Dispatch(t, m);
      u.currentAlert.Some? && u.currentAlert.value.severity == Success &&
      u.currentAlert.value.message ==
        OrElse(m.text, if m.SessionComplete? then CompleteText else ResetText) &&
      u.depthData == [] && u.statistics == Initial && u.bufferLength == 0 &&
      u.currentPrediction == t.currentPrediction
  {
  }

  /** A reload with an empty history keeps the statistics; a non-empty one sets them
      to the summary of the history. */
  lemma LoadHistoryStatistics(t: Telemetry, h: History)
    ensures h.depths == [] ==> LoadHistory(t, h).statistics == t.statistics
    ensures h.depths != [] ==> LoadHistory(t, h).statistics == Summarize(h.depths)
  {
  }

  class Monitor {
    /** The hook's own socket. */
    var ws: WebSocketClient
    var sessionId: string
    var currentPrediction: Option<Prediction>
    var depthData: seq<real>
    var statistics: Stats
    var currentAlert: Option<Alert>
    var bufferLength: int
    var error: Option<string>
    /** The readings the statistics summarize. */
    ghost var readings: seq<real>
    /** The calls started so far, oldest first; their completions are
        `GetLastResult`, `LoadDepthData` and `ClearData`. */
    var calls: seq<Call>

    ghost predicate Valid()
      reads this, ws
    {
      ws.Valid() && statistics == Summarize(readings)
    }

    function Snapshot(): Telemetry
      reads this
    {
      Telemetry(currentPrediction, depthData, statistics, currentAlert, bufferLength)
    }

    /** Mounting: cleared telemetry, a socket client with its connect timer
        pending, and the setup effect's last-result and history calls for the
        initial session. */
    constructor(initialSessionId: string)
      ensures Valid() && fresh(ws)
      ensures sessionId == initialSessionId && ws.sessionId == initialSessionId
      ensures Snapshot() == Cleared && error == None && readings == []
      ensures ws.connectPending && ws.socket == NoSocket && !ws.connected
      ensures ws.timers == map[] && ws.timerRef == None && ws.attempts == 0
      ensures ws.closing == [] && ws.orphans == [] && ws.lastMessage == None && ws.error == None
      ensures calls == [LastResultCall(initialSessionId), DepthCall(initialSessionId)]
    {
      ws := new WebSocketClient(initialSessionId);
      sessionId := initialSessionId;
      currentPrediction := None;
      depthData := [];
      statistics := Initial;
      currentAlert := None;
      bufferLength := 0;
      error := None;
      readings := [];
      calls := [LastResultCall(initialSessionId), DepthCall(initialSessionId)];
    }

    /** The dispatch effect for one message; returns whether it starts a reload,
        which is a history call for the current session. */
    method HandleMessage(m: Message) returns (reload: bool)
      requires Valid()
      modifies this`currentPrediction, this`depthData, this`statistics, this`currentAlert,
        this`bufferLength, this`readings, this`calls
      ensures Valid()
      ensures Snapshot() == Dispatch(old(Snapshot()), m)
      ensures reload == ReloadsHistory(m)
      ensures calls == old(calls) + if reload then [DepthCall(sessionId)] else []
    {
      reload := false;
      match m {
        case Inference(_, _, _) =>
          var p := CompletePrediction(m);
          if p.Some? {
            currentPrediction := p;
            currentAlert := Some(ModelAlert(p.value.classIndex));
            reload := true;
            calls := calls + [DepthCall(sessionId)];
          }
        case DepthData(d, len) =>
          depthData := KeepLast(depthData + [d], ChartWindow);
          RecordMatchesSummarize(readings, d);
          statistics := Record(statistics, d);
          readings := readings + [d];
          bufferLength := len;
        case SessionComplete(text) =>
          currentAlert := Some(SessionAlert(text, CompleteText));
          depthData := [];
          statistics := Initial;
          readings := [];
          bufferLength := 0;
        case SessionReset(text) =>
          currentAlert := Some(SessionAlert(text, ResetText));
          depthData := [];
          statistics := Initial;
          readings := [];
          bufferLength := 0;
        case ModeChange(_, _) =>
        case Other(_) =>
      }
    }

    /** A frame arrives on the hook's socket: a parsed frame becomes `lastMessage`
        and is dispatched; an unparseable one changes nothing. */
    method Receive(frame: Option<Message>) returns (reload: bool)
      requires Valid()
      modifies ws`lastMessage, this`currentPrediction, this`depthData, this`statistics,
        this`currentAlert, this`bufferLength, this`readings, this`calls
      ensures Valid()
      ensures ws.lastMessage == if frame.Some? then frame else old(ws.lastMessage)
      ensures Snapshot() == if frame.Some? then Dispatch(old(Snapshot()), frame.value) else old(Snapshot())
      ensures reload == (frame.Some? && ReloadsHistory(frame.value))
      ensures calls == old(calls) + if reload then [DepthCall(sessionId)] else []
    {
      ws.OnMessage(frame);
      reload := false;
      if frame.Some? {
        reload := HandleMessage(frame.value);
      }
    }

    /** Completion of `loadDepthData`. It is applied whatever the session is now. */
    method LoadDepthData(reply: Rpc<History>)
      requires Valid()
      modifies this`depthData, this`bufferLength, this`statistics, this`readings, this`error
      ensures Valid()
      ensures reply.Ok? ==> Snapshot() == LoadHistory(old(Snapshot()), reply.value) && error == None
      ensures reply.Failed? ==>
        Snapshot() == old(Snapshot()) && error == Some(ErrorText(reply.reason, LoadFailedText))
    {
      match reply {
        case Ok(h) =>
          depthData := h.depths;
          bufferLength := h.bufferLen;
          if |h.depths| > 0 {
            statistics := Summarize(h.depths);
            readings := h.depths;
          }
          error := None;
        case Failed(reason) =>
          error := Some(ErrorText(reason, LoadFailedText));
      }
    }

    /** Completion of `getLastResult`. It is applied whatever the session is now. */
    method GetLastResult(reply: Rpc<LastResult>)
      requires Valid()
      modifies this`bufferLength, this`currentPrediction, this`error
      ensures Valid()
      ensures reply.Ok? ==> Snapshot() == LoadLast(old(Snapshot()), reply.value) && error == None
      ensures reply.Failed? ==>
        Snapshot() == old(Snapshot()) && error == Some(ErrorText(reply.reason, LastFailedText))
    {
      match reply {
        case Ok(r) =>
          bufferLength := r.bufferLen;
          if r.result.Some? {
            currentPrediction := r.result;
          }
          error := None;
        case Failed(reason) =>
          error := Some(ErrorText(reason, LastFailedText));
      }
    }

    /** `clearData` starts: the reset call goes to the session the hook has now. */
    method StartClearData()
      modifies this`calls
      ensures calls == old(calls) + [ResetCall(sessionId)]
    {
      calls := calls + [ResetCall(sessionId)];
    }

    /** Completion of a reset call started by `StartClearData` or `SetSessionId`,
        applied whatever the session is now: the state is cleared only after the
        call succeeds; a failed call changes only the error. */
    method ClearData(reply: Rpc<nat>)
      requires Valid()
      modifies this`currentPrediction, this`depthData, this`statistics, this`currentAlert,
        this`bufferLength, this`readings, this`error
      ensures Valid()
      ensures reply.Ok? ==> Snapshot() == Cleared && error == None
      ensures reply.Failed? ==>
        Snapshot() == old(Snapshot()) && error == Some(ErrorText(reply.reason, ResetFailedText))
    {
      if reply.Ok? {
        depthData := [];
        statistics := Initial;
        readings := [];
        currentPrediction := None;
        currentAlert := None;
        bufferLength := 0;
        error := None;
      } else {
        error := Some(ErrorText(reply.reason, ResetFailedText));
      }
    }

    /** `setSessionId`: disconnect, start `clearData`, whose reset call goes to the
        PREVIOUS session, and adopt the new id (the socket effect then disconnects
        again and schedules a connect). The new id also re-runs the setup effect,
        which starts the last-result and history calls for the new session. All
        three completions are later steps; until then the telemetry is unchanged. */
    method SetSessionId(id: string) returns (resetTarget: string)
      requires Valid()
      modifies this, ws
      ensures Valid() && ws == old(ws)
      ensures resetTarget == old(sessionId)
      ensures calls == old(calls) + [ResetCall(resetTarget), LastResultCall(id), DepthCall(id)]
      ensures sessionId == id && ws.sessionId == id && ws.connectPending
      ensures ws.socket == NoSocket && !ws.connected && ws.lastMessage == None && ws.attempts == 0
      ensures ws.timerRef == None && ws.error == None
      ensures ws.timers ==
        if old(ws.timerRef).Some? then old(ws.timers) - {old(ws.timerRef).value} else old(ws.timers)
      ensures ws.closing ==
        old(ws.closing) + if old(ws.socket) != NoSocket then [old(ws.socket).session] else []
      ensures ws.orphans == old(ws.orphans)
      ensures Snapshot() == old(Snapshot()) && error == old(error) && readings == old(readings)
    {
      ws.Disconnect();
      resetTarget := sessionId;
      StartClearData();
      sessionId := id;
      ws.ChangeSession(id);
      calls := calls + [LastResultCall(id), DepthCall(id)];
    }

    /** The statistics the hook returns: their percentages are always within
        [0, 100] and never add up to more than 100. */
    method Statistics() returns (s: Stats)
      requires Valid()
      ensures s == statistics
      ensures 0.0 <= s.percentageShallow <= 100.0 && 0.0 <= s.percentageDeep <= 100.0
      ensures s.percentageShallow + s.percentageDeep <= 100.0
    {
      PercentagesBounded(readings);
      s := statistics;
    }
  }
}
