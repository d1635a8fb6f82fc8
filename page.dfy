/** The monitoring page (MonitoringPage.tsx): it runs the monitoring hook, opens a
    second websocket of its own for the message log and the mode notifications, and
    tracks the session's window mode. The mode is typed as one of two names, but
    values from the server are taken unchecked, so it is kept as a string. */
module Page {
  import opened Common
  import opened Messages
  import opened WebSocketHook
  import opened Monitoring
  import opened MessageLog
  import opened Windowing

  /** The session the page monitors. */
  const PageSession: string := "esp32-sesi-01"
  const InitialMode: string := "nonoverlap"

  /** The toggle's target: the other of the two modes, and "sliding" from anything
      that is not "sliding". */
  function FlipMode(m: string): (r: string)
    ensures r != m
    ensures r == "sliding" || r == "nonoverlap"
    ensures r == "nonoverlap" <==> m == "sliding"
  {
    if m == "sliding" then "nonoverlap" else "sliding"
  }

  /** Toggling twice returns to the start. */
  lemma FlipModeTwice(m: string)
    requires m == "sliding" || m == "nonoverlap"
    ensures FlipMode(FlipMode(m)) == m
  {
  }

  /** The toggle only ever requests a mode that the backend's `POST /mode` accepts,
      and the backend stores it as sent. */
  lemma ToggleRequestAccepted(m: string)
    ensures var r := FlipMode(m);
      Lower(r) == r && (Lower(r) == "sliding" || Lower(r) == "nonoverlap")
  {
    var mode := if FlipMode(m) == "sliding" then Sliding else NonOverlap;
    assert Name(mode) == FlipMode(m);
    NamesAreLowerCase(mode);
  }

  class MonitoringPage {
    var monitor: Monitor
    /** The page's own socket, next to the hook's. */
    var socket: WebSocketClient
    var log: WebSocketLog
    var windowMode: string

    /** Mounting: the hook with its socket, a second socket for the same session, an
        empty log and the non-overlap mode. */
    constructor()
      ensures fresh(monitor) && fresh(monitor.ws) && fresh(socket) && fresh(log)
      ensures socket != monitor.ws
      ensures monitor.Valid() && socket.Valid() && log.Valid()
      ensures monitor.sessionId == PageSession && socket.sessionId == PageSession
      ensures monitor.Snapshot() == Cleared && log.messages == []
      ensures windowMode == InitialMode
    {
      monitor := new Monitor(PageSession);
      socket := new WebSocketClient(PageSession);
      log := new WebSocketLog();
      windowMode := InitialMode;
    }

    /** `handleModeChange`: asks the backend for the other mode of the session and
        adopts it only when the call succeeds. */
    method HandleModeChange(succeeded: bool) returns (target: string, requested: string)
      modifies this`windowMode
      ensures target == monitor.sessionId && requested == FlipMode(old(windowMode))
      ensures windowMode == if succeeded then requested else old(windowMode)
    {
      target := monitor.sessionId;
      requested := FlipMode(windowMode);
      if succeeded {
        windowMode := requested;
      }
    }

    /** The `loadMode` effect: adopt the server's mode; a failed fetch changes
        nothing. */
    method LoadMode(reply: Rpc<string>)
      modifies this`windowMode
      ensures windowMode == if reply.Ok? then reply.value else old(windowMode)
    {
      if reply.Ok? {
        windowMode := reply.value;
      }
    }

    /** A frame on the page's socket: it becomes `lastMessage`, the log records it,
        and a `mode_change` sets the mode to its new mode. A frame that does not
        parse does none of these. */
    method Receive(frame: Option<Message>)
      requires log.Valid()
      modifies socket`lastMessage, log, this`windowMode
      ensures log.Valid()
      ensures socket.lastMessage == if frame.Some? then frame else old(socket.lastMessage)
      ensures log.messages ==
        if frame.Some? then Prepend(old(log.messages), EntryOf(frame.value)) else old(log.messages)
      ensures windowMode ==
        if frame.Some? && frame.value.ModeChange? then frame.value.newMode else old(windowMode)
    {
      socket.OnMessage(frame);
      log.Push(frame);
      if frame.Some? && frame.value.ModeChange? {
        windowMode := frame.value.newMode;
      }
    }
  }
}
