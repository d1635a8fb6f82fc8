/** The frontend's websocket hook (`useWebSocket`): one socket reference, a retry
    counter and a retry timer, driven by the socket's events and by the hook's own
    `connect`, `disconnect` and session-change effect. Every event handler is one
    atomic method. Transport details are abstract: a socket is only "connecting" or
    "open" for a session, and a timer is its delay and the session its callback will
    connect to. Clock time is not modelled; which pending timer fires is the caller's
    choice. */
module WebSocketHook {
  import opened Common
  import opened Messages

  const MaxReconnectAttempts: nat := 5
  const MaxDelay: nat := 10000
  const MaxAttemptsText: string := "Max reconnection attempts reached"
  const SocketErrorText: string := "WebSocket connection error"
  const CreateFailedText: string := "Failed to create WebSocket connection"

  /** What `wsRef.current` refers to: nothing, or a socket (for a session) whose
      `readyState` is CONNECTING or OPEN. */
  datatype SocketState = NoSocket | Connecting(session: string) | Open(session: string)

  /** A pending `setTimeout` retry: its delay in milliseconds and the session of the
      `connect` closure it will call. */
  datatype Timer = Timer(delay: nat, session: string)

  function Pow2(n: nat): (p: nat)
    ensures n < 4 ==> p == [1, 2, 4, 8][n]
    ensures n >= 4 ==> p >= 16
  {
    if n == 0 then 1 else 2 * Pow2(n - 1)
  }

  /** `Math.min(1000 * Math.pow(2, attempts), 10000)`. */
  function BackoffDelay(attempts: nat): (d: nat)
    ensures attempts < 4 ==> d == 1000 * [1, 2, 4, 8][attempts]
    ensures attempts >= 4 ==> d == MaxDelay
  {
    var raw := 1000 * Pow2(attempts);
    if raw < MaxDelay then raw else MaxDelay
  }

  class WebSocketClient {
    var sessionId: string
    var connected: bool
    var lastMessage: Option<Message>
    var error: Option<string>
    /** `wsRef.current`. */
    var socket: SocketState
    /** Sessions of sockets that `disconnect` closed and whose close event is still
        to come. */
    var closing: seq<string>
    /** Sockets still connecting or open that `wsRef` no longer refers to, because a
        close handler cleared the reference while they were live. Their handlers
        still act on this hook's state. */
    var orphans: seq<SocketState>
    /** `reconnectAttemptsRef.current`. */
    var attempts: nat
    /** Retry timers scheduled and neither fired nor cancelled, by timer id. */
    var timers: map<nat, Timer>
    /** `reconnectTimeoutRef.current`: the id of the last retry timer scheduled. */
    var timerRef: Option<nat>
    var nextTimer: nat
    /** The 100 ms timer of the session effect, which calls `connect`. */
    var connectPending: bool

    ghost predicate Valid()
      reads this
    {
      (forall id :: id in timers ==> id < nextTimer) &&
      (timerRef.Some? ==> timerRef.value < nextTimer) &&
      (forall k :: 0 <= k < |orphans| ==> orphans[k] != NoSocket)
    }

    /** Mounting the hook: nothing is open yet and the connect timer is pending. */
    constructor(sessionId: string)
      ensures Valid()
      ensures this.sessionId == sessionId && connectPending
      ensures !connected && lastMessage == None && error == None
      ensures socket == NoSocket && closing == [] && orphans == [] && attempts == 0
      ensures timers == map[] && timerRef == None
    {
      this.sessionId := sessionId;
      connected := false;
      lastMessage := None;
      error := None;
      socket := NoSocket;
      closing := [];
      orphans := [];
      attempts := 0;
      timers := map[];
      timerRef := None;
      nextTimer := 0;
      connectPending := true;
    }

    /** `connect` for the closure's session `sid`: a no-op while the current socket is
        connecting or open; otherwise a new socket, or, when creating it throws,
        the creation error. */
    method Connect(sid: string, created: bool)
      modifies this`socket, this`error, this`connected
      ensures old(socket) != NoSocket ==>
        socket == old(socket) && error == old(error) && connected == old(connected)
      ensures old(socket) == NoSocket && created ==>
        socket == Connecting(sid) && error == old(error) && connected == old(connected)
      ensures old(socket) == NoSocket && !created ==>
        socket == NoSocket && error == Some(CreateFailedText) && !connected
    {
      if socket.Connecting? || socket.Open? {
        return;
      }
      if created {
        socket := Connecting(sid);
      } else {
        error := Some(CreateFailedText);
        connected := false;
      }
    }

    /** `onopen` of the socket: connected, no error, and the retry counter back to 0. */
    method OnOpen()
      modifies this`socket, this`connected, this`error, this`attempts
      ensures socket == if old(socket).Connecting? then Open(old(socket).session) else old(socket)
      ensures connected && error == None && attempts == 0
    {
      if socket.Connecting? {
        socket := Open(socket.session);
      }
      connected := true;
      error := None;
      attempts := 0;
    }

    /** `onmessage` of any live socket, referred to or orphaned: `None` is a frame
        that does not parse, which changes nothing; a parsed frame replaces the last
        message wholesale. */
    method OnMessage(frame: Option<Message>)
      modifies this`lastMessage
      ensures lastMessage == if frame.Some? then frame else old(lastMessage)
    {
      if frame.Some? {
        lastMessage := frame;
      }
    }

    /** `onerror`. */
    method OnError()
      modifies this`error, this`connected
      ensures error == Some(SocketErrorText) && !connected
    {
      error := Some(SocketErrorText);
      connected := false;
    }

    /** The retry decision at the end of `onclose`: under the limit, exactly one new
        timer whose delay follows the backoff; at the limit, the terminal error and
        no timer. The counter itself is not touched here. */
    method ScheduleRetry(session: string)
      requires Valid()
      modifies this`timers, this`timerRef, this`nextTimer, this`error
      ensures Valid()
      ensures attempts < MaxReconnectAttempts ==>
        old(nextTimer) !in old(timers) &&
        timers == old(timers)[old(nextTimer) := Timer(BackoffDelay(attempts), session)] &&
        timerRef == Some(old(nextTimer)) && error == old(error)
      ensures attempts >= MaxReconnectAttempts ==>
        timers == old(timers) && timerRef == old(timerRef) && error == Some(MaxAttemptsText)
    {
      if attempts < MaxReconnectAttempts {
        timers := timers[nextTimer := Timer(BackoffDelay(attempts), session)];
        timerRef := Some(nextTimer);
        nextTimer := nextTimer + 1;
      } else {
        error := Some(MaxAttemptsText);
      }
    }

    /** `onclose` of the socket `wsRef` refers to. The close code is not read. */
    method OnClose()
      requires Valid() && socket != NoSocket
      modifies this`connected, this`socket, this`timers, this`timerRef, this`nextTimer, this`error
      ensures Valid()
      ensures !connected && socket == NoSocket
      ensures attempts < MaxReconnectAttempts ==>
        old(nextTimer) !in old(timers) &&
        timers == old(timers)[old(nextTimer) := Timer(BackoffDelay(attempts), old(socket).session)] &&
        timerRef == Some(old(nextTimer)) && error == old(error)
      ensures attempts >= MaxReconnectAttempts ==>
        timers == old(timers) && timerRef == old(timerRef) && error == Some(MaxAttemptsText)
    {
      var session := socket.session;
      connected := false;
      socket := NoSocket;
      ScheduleRetry(session);
    }

    /** `wsRef.current = null` in the close handler of a socket other than the one
        referred to: a socket still referred to is dropped from `wsRef` but stays
        alive, as an orphan. */
    method Detach()
      requires Valid()
      modifies this`socket, this`orphans
      ensures Valid()
      ensures socket == NoSocket
      ensures orphans == old(orphans) + if old(socket) != NoSocket then [old(socket)] else []
    {
      if socket != NoSocket {
        orphans := orphans + [socket];
        socket := NoSocket;
      }
    }

    /** `onclose` of a socket that `disconnect` closed earlier. The handler is the
        same: it drops whatever socket `wsRef` now holds and schedules a retry to
        the closed socket's session. */
    method OnCloseAfterDisconnect(i: nat)
      requires Valid() && i < |closing|
      modifies this`closing, this`connected, this`socket, this`orphans, this`timers,
        this`timerRef, this`nextTimer, this`error
      ensures Valid()
      ensures closing == old(closing[..i] + closing[i + 1..])
      ensures !connected && socket == NoSocket
      ensures orphans == old(orphans) + if old(socket) != NoSocket then [old(socket)] else []
      ensures attempts < MaxReconnectAttempts ==>
        old(nextTimer) !in old(timers) &&
        timers == old(timers)[old(nextTimer) := Timer(BackoffDelay(attempts), old(closing[i]))] &&
        timerRef == Some(old(nextTimer)) && error == old(error)
      ensures attempts >= MaxReconnectAttempts ==>
        timers == old(timers) && timerRef == old(timerRef) && error == Some(MaxAttemptsText)
    {
      var session := closing[i];
      closing := closing[..i] + closing[i + 1..];
      connected := false;
      Detach();
      ScheduleRetry(session);
    }

    /** `onopen` of an orphaned socket: the same handler, so the hook reports
        connected and resets its counter although `wsRef` holds another socket or
        none. */
    method OrphanOpen(i: nat)
      requires Valid() && i < |orphans| && orphans[i].Connecting?
      modifies this`orphans, this`connected, this`error, this`attempts
      ensures Valid()
      ensures orphans == old(orphans)[i := Open(old(orphans)[i].session)]
      ensures connected && error == None && attempts == 0
    {
      orphans := orphans[i := Open(orphans[i].session)];
      connected := true;
      error := None;
      attempts := 0;
    }

    /** `onclose` of an orphaned socket: it drops whatever `wsRef` holds (which then
        becomes an orphan in turn) and schedules a retry to the orphan's session. */
    method OrphanClose(i: nat)
      requires Valid() && i < |orphans|
      modifies this`orphans, this`connected, this`socket, this`timers, this`timerRef,
        this`nextTimer, this`error
      ensures Valid()
      ensures !connected && socket == NoSocket
      ensures orphans == old(orphans[..i] + orphans[i + 1..]) +
        if old(socket) != NoSocket then [old(socket)] else []
      ensures attempts < MaxReconnectAttempts ==>
        old(nextTimer) !in old(timers) &&
        timers == old(timers)[old(nextTimer) := Timer(BackoffDelay(attempts), old(orphans[i]).session)] &&
        timerRef == Some(old(nextTimer)) && error == old(error)
      ensures attempts >= MaxReconnectAttempts ==>
        timers == old(timers) && timerRef == old(timerRef) && error == Some(MaxAttemptsText)
    {
      var session := orphans[i].session;
      orphans := orphans[..i] + orphans[i + 1..];
      connected := false;
      Detach();
      ScheduleRetry(session);
    }

    /** A retry timer fires: the counter goes up by one and the timer's `connect`
        runs. */
    method FireRetry(id: nat, created: bool)
      requires Valid() && id in timers
      modifies this`timers, this`attempts, this`socket, this`error, this`connected
      ensures Valid()
      ensures timers == old(timers) - {id} && attempts == old(attempts) + 1
      ensures old(socket) != NoSocket ==>
        socket == old(socket) && error == old(error) && connected == old(connected)
      ensures old(socket) == NoSocket && created ==>
        socket == Connecting(old(timers)[id].session) && error == old(error) &&
        connected == old(connected)
      ensures old(socket) == NoSocket && !created ==>
        socket == NoSocket && error == Some(CreateFailedText) && !connected
    {
      var t := timers[id];
      timers := timers - {id};
      attempts := attempts + 1;
      Connect(t.session, created);
    }

    /** `disconnect`: cancel the tracked retry timer, close and forget the socket,
        and zero the rest. The closed socket's close event is still to come. */
    method Disconnect()
      requires Valid()
      modifies this`timers, this`timerRef, this`closing, this`socket, this`connected,
        this`lastMessage, this`error, this`attempts
      ensures Valid()
      ensures timers == (if old(timerRef).Some? then old(timers) - {old(timerRef).value} else old(timers))
      ensures timerRef == None && socket == NoSocket
      ensures closing == if old(socket) != NoSocket then old(closing) + [old(socket).session] else old(closing)
      ensures !connected && lastMessage == None && error == None && attempts == 0
    {
      if timerRef.Some? {
        timers := timers - {timerRef.value};
        timerRef := None;
      }
      if socket != NoSocket {
        closing := closing + [socket.session];
        socket := NoSocket;
      }
      connected := false;
      lastMessage := None;
      error := None;
      attempts := 0;
    }

    /** The session effect re-running for a new id: its cleanup cancels the pending
        connect timer and disconnects, then a fresh connect timer is scheduled. */
    method ChangeSession(id: string)
      requires Valid()
      modifies this`sessionId, this`connectPending, this`timers, this`timerRef, this`closing,
        this`socket, this`connected, this`lastMessage, this`error, this`attempts
      ensures Valid()
      ensures sessionId == id && connectPending
      ensures timers == (if old(timerRef).Some? then old(timers) - {old(timerRef).value} else old(timers))
      ensures timerRef == None && socket == NoSocket
      ensures closing == if old(socket) != NoSocket then old(closing) + [old(socket).session] else old(closing)
      ensures !connected && lastMessage == None && error == None && attempts == 0
    {
      connectPending := false;
      Disconnect();
      sessionId := id;
      connectPending := true;
    }

    /** The session effect's 100 ms timer fires and calls `connect`. */
    method FireConnectTimer(created: bool)
      requires connectPending
      modifies this`connectPending, this`socket, this`error, this`connected
      ensures !connectPending
      ensures old(socket) != NoSocket ==>
        socket == old(socket) && error == old(error) && connected == old(connected)
      ensures old(socket) == NoSocket && created ==>
        socket == Connecting(sessionId) && error == old(error) && connected == old(connected)
      ensures old(socket) == NoSocket && !created ==>
        socket == NoSocket && error == Some(CreateFailedText) && !connected
    {
      connectPending := false;
      Connect(sessionId, created);
    }
  }

  /** Closes that never reach `onopen`: each close under the limit schedules one
      timer, with delays 1000, 2000, 4000, 8000 and 10000 ms, and the sixth close
      reports the terminal error and schedules nothing. */
  method ConsecutiveCloses(session: string) returns (delays: seq<nat>, finalError: Option<string>, pending: nat)
    ensures delays == [1000, 2000, 4000, 8000, 10000]
    ensures finalError == Some(MaxAttemptsText) && pending == 0
  {
    var c := new WebSocketClient(session);
    c.FireConnectTimer(true);
    delays := [];
    var i := 0;
    while i < MaxReconnectAttempts
      invariant 0 <= i <= MaxReconnectAttempts
      invariant c.Valid() && c.attempts == i && c.socket == Connecting(session)
      invariant c.timers == map[]
      invariant |delays| == i && forall k :: 0 <= k < i ==> delays[k] == BackoffDelay(k)
    {
      c.OnClose();
      var id := c.timerRef.value;
      delays := delays + [c.timers[id].delay];
      c.FireRetry(id, true);
      i := i + 1;
    }
    c.OnClose();
    finalError := c.error;
    pending := |c.timers|;
  }

  /** `disconnect` closes the socket with code 1000, and because the close handler
      does not read the code, that close schedules a 1000 ms retry to the session. */
  method CloseAfterDisconnect(session: string) returns (retries: nat, delay: nat, target: string)
    ensures retries == 1 && delay == 1000 && target == session
  {
    var c := new WebSocketClient(session);
    c.FireConnectTimer(true);
    c.OnOpen();
    c.Disconnect();
    c.OnCloseAfterDisconnect(0);
    retries := |c.timers|;
    var t := c.timers[c.timerRef.value];
    delay, target := t.delay, t.session;
  }

  /** Switching from session `a` to `b`: if the old socket's close event arrives
      after the new socket was created, it drops the new socket from `wsRef` and
      its retry reconnects to `a`. The hook ends up holding a socket for `a` while
      its session is `b`, and the socket for `b` lives on untracked: two live
      streams. */
  method StaleCloseAfterSwitch(a: string, b: string) returns (current: string, socketFor: string, orphaned: seq<SocketState>)
    ensures current == b && socketFor == a
    ensures orphaned == [Connecting(b)]
  {
    var c := new WebSocketClient(a);
    c.FireConnectTimer(true);
    c.OnOpen();
    c.ChangeSession(b);
    c.FireConnectTimer(true);
    c.OnCloseAfterDisconnect(0);
    c.FireRetry(c.timerRef.value, true);
    current := c.sessionId;
    socketFor := c.socket.session;
    orphaned := c.orphans;
  }
}
