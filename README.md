# CPR telemetry monitor — a Dafny model

This project models the session telemetry of heart4edu, a CPR-training monitor. A
depth sensor posts one compression depth per reading to a FastAPI backend. The backend
keeps, per session, an inference buffer and a depth history. It runs a four-class
classifier over windows of ten readings, resets a session automatically at 120
readings, and broadcasts every event to the session's websockets. A React frontend
tracks the session over one of those websockets: statistics, an alert derived from
the last prediction, a chart series, a reconnecting socket, the window mode and a
message log.

The model has one module per part of the program:

| file | module | models |
|---|---|---|
| `common.dfy` | `Common` | optional values, RPC outcomes, ASCII case mapping, `str.replace` of one character |
| `stats.dfy` | `SessionStats` | `calculateSessionStatistics` and the incremental update of the dispatch effect |
| `alerts.dfy` | `Alerts` | `generateModelAlert` |
| `messages.dfy` | `Messages` | the `WebSocketMessage` frames |
| `websocket.dfy` | `WebSocketHook` | `useWebSocket`: connect, the socket handlers, backoff, disconnect, the session effect |
| `monitoring.dfy` | `Monitoring` | `useCPRMonitoring`: message dispatch, the setup effect, `loadDepthData`, `getLastResult`, `clearData`, `setSessionId` |
| `windowing.dfy` | `Windowing` | `/ingest`'s mode resolution and its per-session buffer/history step |
| `server.dfy` | `Server` | the backend's session dictionaries and endpoints, and `ConnectionManager` |
| `page.dfy` | `Page` | `MonitoringPage`: the second socket and `windowMode` |
| `log.dfy` | `MessageLog` | `WebSocketLog`: the capped log, titles and the badge |
| `system.dfy` | `System` | the backend's frames as the hook sees them, and the hook's reload |

Modelling choices:

- Depths are `real`, so the statistics are exact. The incremental update is proved
  equal to the bulk formula over the extended sequence.
- State the source overwrites in place is a `class` whose methods say what the new
  state is in terms of pure functions. `Monitor.HandleMessage` ends in
  `Dispatch(old(Snapshot()), m)`; `Backend.Ingest` ends in `Advance` on the session's
  old window. The properties are proved about those functions.
- The classifier (ONNX with softmax and argmax) is a function given to `Backend`'s
  constructor. It maps ten readings to a class index in 0..3 and probabilities.
- Broadcasts are appended to `Backend.outbox`. `Server.ToMessage` gives the frame the
  frontend receives for each of them.
- A retry timer is an entry of `WebSocketClient.timers`, holding its delay and the
  session its `connect` closure will use. The source's timer reference is
  `timerRef`, which `onclose` overwrites without cancelling the timer it held. A
  socket closed by `disconnect` stays in `closing` until its close event arrives.
  A live socket whose reference a close handler clears stays in `orphans`, with
  its own open and close events.
- Every event handler, effect or RPC completion is one atomic method. An RPC's
  outcome is a parameter (`Rpc<T>`: success, or a failure with an optional error
  message). A frame that does not parse is `None`.

Behaviours of the code that a reader may not expect, each proved as stated:

- The close handler ignores the close code (useWebSocket.ts:69-86), so the
  code-1000 close that `disconnect` starts also schedules a retry
  (`WebSocketHook.CloseAfterDisconnect`).
- The attempt counter is incremented when the retry timer fires, not when the
  retry is scheduled (useWebSocket.ts:79-81; `FireRetry`).
- After a session switch, a late close of the old socket clears the reference to
  the new one, which keeps running untracked, and the retry goes to the OLD
  session (`WebSocketHook.StaleCloseAfterSwitch`).
- The page opens a second socket next to the hook's (`Page.MonitoringPage.constructor`).
- No completion checks the session it was started for (useCPRMonitoring.ts:171-239).
  `setSessionId` runs a `clearData` whose reset call goes to the previous session
  (`Monitoring.Monitor.SetSessionId`), and `ClearData`, `LoadDepthData` and
  `GetLastResult` apply whatever arrives, in any order: an old session's reset
  reply arriving after the new session's history wipes that history.
- The `depth_data` broadcast reports the buffer length before the window is
  consumed (backend/app.py:280-287); the `/ingest` reply reports it after
  (backend/app.py:344). The hook therefore shows the length before consumption until
  its next reload.
- At the 120th reading the backend clears the history, but the hook counts that
  reading again from the `depth_data` frame that follows the completion frame. The
  hook then shows one compression over an empty session until the next reload
  (`System.CompletionLeavesHookOneAhead`).

## Model

| member | source | states |
|---|---|---|
| `Common.OrElse` | frontend/src/hooks/useCPRMonitoring.ts:300 | `text || default` with a non-empty default is never empty, so a session alert always has a message |
| `Common.Lower` | backend/app.py:249 | `str.lower()` keeps the length and lower-cases every character |
| `Common.Without` | backend/app.py:249 | `replace(c, "")` keeps every other character as many times as it occurs, removes every `c`, and never lengthens the string |
| `Common.WithoutConcat` | backend/app.py:249 | removal works piece by piece: removing from `a + b` is removing from `a` followed by removing from `b`, so the kept characters stay in order |
| `Common.LowerIdempotent` | backend/app.py:249 | lower-casing twice is lower-casing once |
| `Common.WithoutIdempotent` | backend/app.py:249 | removing a character twice is removing it once |
| `Common.WithoutAbsent` | backend/app.py:249 | removing a character that does not occur changes nothing |
| `SessionStats.ShallowCount` | frontend/src/hooks/useCPRMonitoring.ts:74 | readings under 5 cm are at most all readings |
| `SessionStats.DeepCount` | frontend/src/hooks/useCPRMonitoring.ts:75 | readings over 6 cm are at most all readings |
| `SessionStats.Summarize` | frontend/src/hooks/useCPRMonitoring.ts:46-85 | the count is the number of readings, and no readings give the all-zero record |
| `SessionStats.Record` | frontend/src/hooks/useCPRMonitoring.ts:277-290 | each `depth_data` frame adds exactly one compression |
| `SessionStats.RecordMatchesSummarize` | frontend/src/hooks/useCPRMonitoring.ts:67-85 | the incremental update of the statistics of `xs` equals the bulk statistics of `xs` followed by the reading |
| `SessionStats.ReplayMatchesSummarize` | frontend/src/hooks/useCPRMonitoring.ts:277-290 | applying the incremental update reading by reading from the initial record gives the bulk statistics |
| `SessionStats.CountsDisjoint` | frontend/src/hooks/useCPRMonitoring.ts:74-75 | no reading is both shallow and deep, so the two counts add up to at most the total |
| `SessionStats.PercentagesBounded` | frontend/src/hooks/useCPRMonitoring.ts:76-77 | both percentages lie in [0, 100] and their sum is at most 100 |
| `SessionStats.AverageWithinRange` | frontend/src/hooks/useCPRMonitoring.ts:73 | the mean of readings within [lo, hi] lies within [lo, hi] |
| `SessionStats.FourReadings` | frontend/src/hooks/useCPRMonitoring.ts:67-85 | 3, 5, 6 and 7 cm give 4 compressions, 25 % shallow, 25 % deep (5 and 6 are neither) and a mean of 5.25 |
| `Alerts.ModelAlert` | frontend/src/hooks/useCPRMonitoring.ts:119-156 | class 0 gives the only success alert and class 1 the only danger alert; every other index warns, and one outside 0..3 gives the waiting alert |
| `Alerts.ClassOf` | frontend/src/hooks/useCPRMonitoring.ts:119-156 | the class an alert of the table stands for lies in 0..3 |
| `Alerts.AlertIdentifiesClass` | frontend/src/hooks/useCPRMonitoring.ts:119-156 | the four alerts of the table differ, so the alert tells which class was predicted; every index outside 0..3 gets the same alert |
| `Messages.TypeName` | frontend/src/hooks/useWebSocket.ts:4-22 | the five known frames carry one of the five known type names |
| `Messages.TypeNameDecidesKind` | frontend/src/hooks/useWebSocket.ts:4-22 | for a well-formed frame the `type` field decides the variant, in both directions, so dispatching on it sees exactly the frames of each kind |
| `WebSocketHook.Pow2` | frontend/src/hooks/useWebSocket.ts:76 | the first powers of two, and at least 16 from the fourth on |
| `WebSocketHook.BackoffDelay` | frontend/src/hooks/useWebSocket.ts:76 | the delay is 1000, 2000, 4000, 8000 ms for 0 to 3 earlier attempts and 10000 ms from then on |
| `WebSocketHook.WebSocketClient.constructor` | frontend/src/hooks/useWebSocket.ts:32-39 | mounting starts disconnected, with no socket, no orphan, no message, no error, no timer, a zero counter and the connect timer pending |
| `WebSocketHook.WebSocketClient.Connect` | frontend/src/hooks/useWebSocket.ts:41-51 | a no-op while a socket is connecting or open; otherwise a new connecting socket, or, if creation throws, the creation error and not connected |
| `WebSocketHook.WebSocketClient.OnOpen` | frontend/src/hooks/useWebSocket.ts:53-58 | an open sets connected, clears the error and resets the attempt counter to 0 |
| `WebSocketHook.WebSocketClient.OnMessage` | frontend/src/hooks/useWebSocket.ts:60-67 | a parsed frame replaces the last message wholesale; an unparseable one leaves it unchanged |
| `WebSocketHook.WebSocketClient.OnError` | frontend/src/hooks/useWebSocket.ts:88-92 | an error event sets the connection error text and not connected |
| `WebSocketHook.WebSocketClient.ScheduleRetry` | frontend/src/hooks/useWebSocket.ts:74-85 | under 5 attempts exactly one new timer with the backoff delay becomes the tracked timer; at 5 the terminal error is set and nothing is scheduled; the counter is untouched |
| `WebSocketHook.WebSocketClient.OnClose` | frontend/src/hooks/useWebSocket.ts:69-86 | whatever the close code, the socket is forgotten, not connected, and the retry rule applies to the socket's session |
| `WebSocketHook.WebSocketClient.OnCloseAfterDisconnect` | frontend/src/hooks/useWebSocket.ts:69-86 | the close event of a socket `disconnect` closed also clears the current socket reference, which leaves a live current socket running as an orphan, and schedules a retry to the closed socket's session |
| `WebSocketHook.WebSocketClient.Detach` | frontend/src/hooks/useWebSocket.ts:72 | `wsRef.current = null` in another socket's close handler drops the reference only: the socket it held stays alive as an orphan |
| `WebSocketHook.WebSocketClient.OrphanOpen` | frontend/src/hooks/useWebSocket.ts:53-58 | an orphan's open runs the same handler: connected, no error, counter back to 0, whatever `wsRef` holds |
| `WebSocketHook.WebSocketClient.OrphanClose` | frontend/src/hooks/useWebSocket.ts:69-86 | an orphan's close drops the current socket in turn and, under the limit, schedules one retry to the orphan's session |
| `WebSocketHook.WebSocketClient.FireRetry` | frontend/src/hooks/useWebSocket.ts:79-82 | a retry timer firing increments the counter by one and runs `connect` for the timer's session |
| `WebSocketHook.WebSocketClient.Disconnect` | frontend/src/hooks/useWebSocket.ts:100-117 | cancels the tracked timer, closes and forgets the socket, and sets not connected, no message, no error and zero attempts |
| `WebSocketHook.WebSocketClient.ChangeSession` | frontend/src/hooks/useWebSocket.ts:120-132 | a new session id disconnects the old socket and schedules a fresh connect for the new id |
| `WebSocketHook.WebSocketClient.FireConnectTimer` | frontend/src/hooks/useWebSocket.ts:124-126 | the session effect's timer runs `connect` for the current session |
| `WebSocketHook.ConsecutiveCloses` | frontend/src/hooks/useWebSocket.ts:39-86 | closes with no open in between schedule delays 1000, 2000, 4000, 8000, 10000 ms; the sixth sets "Max reconnection attempts reached" and schedules nothing |
| `WebSocketHook.CloseAfterDisconnect` | frontend/src/hooks/useWebSocket.ts:100-117 | the close started by `disconnect` (code 1000) schedules one 1000 ms retry to the same session |
| `WebSocketHook.StaleCloseAfterSwitch` | frontend/src/hooks/useWebSocket.ts:69-82 | after a switch from `a` to `b`, a late close of `a`'s socket leaves the hook on session `b` holding a socket for `a`, while the socket for `b` lives on as an orphan: two live streams |
| `Monitoring.KeepLast` | frontend/src/hooks/useCPRMonitoring.ts:271 | `slice(-n)` keeps the last `min(n, length)` elements in order for `n > 0`, and the whole array for `slice(-0)` |
| `Monitoring.InferenceDispatch` | frontend/src/hooks/useCPRMonitoring.ts:243-259 | an inference frame with all three fields sets the prediction and the table's alert and nothing else; a frame missing one of them changes nothing |
| `Monitoring.DepthDispatch` | frontend/src/hooks/useCPRMonitoring.ts:262-294 | a depth frame appends to the chart (newest 120 kept), moves the statistics of `xs` to those of `xs` plus the reading, sets the buffer length to the frame's, and keeps prediction and alert |
| `Monitoring.SessionEventDispatch` | frontend/src/hooks/useCPRMonitoring.ts:296-322 | a session event sets a success alert with the server's text (or the default when missing or empty), empties the chart, zeroes statistics and buffer length, and keeps the prediction |
| `Monitoring.LoadHistoryStatistics` | frontend/src/hooks/useCPRMonitoring.ts:186-190 | an empty history keeps the statistics; a non-empty one replaces them with its summary |
| `Monitoring.Monitor.constructor` | frontend/src/hooks/useCPRMonitoring.ts:53-61 | the hook starts with cleared telemetry, no error, its own new socket client with only the connect timer pending, and the setup effect (lines 325-330) starts the last-result and history calls for the initial session |
| `Monitoring.Monitor.HandleMessage` | frontend/src/hooks/useCPRMonitoring.ts:242-323 | the state after a frame is `Dispatch` of the state before, the statistics still summarize the readings, and exactly a complete inference starts a history call for the current session |
| `Monitoring.Monitor.Receive` | frontend/src/hooks/useWebSocket.ts:60-67 | an arriving frame becomes the last message and is dispatched, with the same history call; an unparseable one changes nothing |
| `Monitoring.Monitor.LoadDepthData` | frontend/src/hooks/useCPRMonitoring.ts:171-199 | a successful reload replaces series and buffer length (statistics only for a non-empty history) and clears the error; a failure changes only the error |
| `Monitoring.Monitor.GetLastResult` | frontend/src/hooks/useCPRMonitoring.ts:202-213 | a successful call replaces the buffer length, and the prediction only when the reply has one, leaves the alert and clears the error; a failure changes only the error |
| `Monitoring.Monitor.ClearData` | frontend/src/hooks/useCPRMonitoring.ts:216-232 | the completion of a reset call, whichever session it went to: series, statistics, prediction, alert and buffer length are cleared only after the call succeeds; a failure changes only the error |
| `Monitoring.Monitor.StartClearData` | frontend/src/hooks/useCPRMonitoring.ts:216-220 | `clearData` starts a reset call to the session the hook has at that moment |
| `Monitoring.Monitor.SetSessionId` | frontend/src/hooks/useCPRMonitoring.ts:235-239 | disconnects (the tracked retry timer cancelled, a live socket waiting for its close, orphans untouched, the socket error cleared), adopts the new id with a connect pending, starts the reset call to the previous id, and, through the setup effect (lines 325-330), starts last-result and history calls for the new id; the telemetry is unchanged until those calls complete |
| `Monitoring.Monitor.Statistics` | frontend/src/hooks/useCPRMonitoring.ts:338-351 | the statistics the hook exposes have percentages in [0, 100] that add up to at most 100 |
| `Windowing.NamesAreLowerCase` | backend/app.py:249-255 | the two stored mode names are lower case |
| `Windowing.NameNormalized` | backend/app.py:249 | normalizing a stored mode name leaves it unchanged |
| `Windowing.LettersNormalized` | backend/app.py:249 | a string of lower-case letters only is left unchanged by the normalization |
| `Windowing.ParseName` | backend/app.py:249-255 | parsing a stored mode name gives the mode back |
| `Windowing.NameIsAlias` | backend/app.py:250 | of the two stored names, exactly the non-overlap one is in the alias set |
| `Windowing.StoredModeKept` | backend/app.py:249-258 | with no mode in query or body, the session keeps its stored mode |
| `Windowing.RequestPriority` | backend/app.py:249 | a non-empty query mode wins over the body, and a non-empty body mode over the stored mode |
| `Windowing.ParseIgnoresCase` | backend/app.py:249-255 | the mode a request selects does not depend on letter case |
| `Windowing.DropOldest` | backend/app.py:330-333 | the `popleft` loop leaves the newest `keep` readings (all when there are fewer), in order |
| `Windowing.AppendOnly` | backend/app.py:260-301 | a reading that neither completes the session nor fills the window is appended to buffer and history, and the broadcast buffer length counts it |
| `Windowing.WindowFilled` | backend/app.py:294-336 | the tenth buffered reading is appended to the history, is broadcast with buffer length 10, and leaves the newest 9 readings in sliding mode and none in non-overlap mode |
| `Windowing.AdvanceKeepsInv` | backend/app.py:260-336 | after every reading the buffer holds fewer than 10 readings and is a suffix of the history, which holds fewer than 120; the broadcast buffer length is at most 10 |
| `Windowing.CompletionAt120` | backend/app.py:267-277 | exactly the 120th reading completes the session: it reports 120, clears buffer and history and runs no inference |
| `Windowing.InferenceRule` | backend/app.py:294-336 | both modes infer exactly when the tenth buffered reading arrives in a session that is not completing, on the ten newest readings; sliding keeps 9 readings, non-overlap none |
| `Windowing.StepLengths` | backend/app.py:260-336 | one reading below the limit grows the history by one and infers exactly on the tenth buffered reading, leaving `10 - stride` readings then and one more otherwise; the 120th leaves a fresh session |
| `Windowing.CounterStep` | backend/app.py:267-277 | counting readings modulo 120 wraps exactly at the session limit |
| `Windowing.CountStep` | backend/app.py:260-336 | one reading moves the per-mode buffer length and inference count of `n` readings to those of `n + 1` |
| `Windowing.RunFromFresh` | backend/app.py:260-336 | after `n` readings in one mode a session holds `n mod 120` readings of history; a full session runs 11 inferences in non-overlap mode and 110 in sliding mode |
| `Server.ResultOf` | backend/app.py:319-324 | the broadcast result carries a class index in 0..3 |
| `Server.PyTail` | backend/app.py:364 | Python's `s[-limit:]`: the last `limit` elements, all of them for 0, and all but the first `-limit` for a negative limit |
| `Server.StepResult` | backend/app.py:303-325 | a result is produced, stored and broadcast exactly when the step picks a window |
| `Server.ApplyReading` | backend/app.py:260-336 | the deque work of one reading, including the `popleft` loop, is the `Advance` step |
| `Server.SessionsUpdate` | backend/app.py:260-265 | storing a pair that keeps the windowing invariant keeps both deque dictionaries valid and over the same sessions |
| `Server.Backend.constructor` | backend/app.py:89-96 | the backend starts with no sessions, results or broadcasts |
| `Server.Backend.Ingest` | backend/app.py:224-347 | the resolved mode is stored; buffer and history follow `Advance`; an inference stores its result; the broadcasts are completion, depth and inference in that order; the reply's buffer length is after consumption |
| `Server.Backend.IngestInMode` | backend/app.py:258-347 | for an already resolved mode: the mode is stored, buffer and history follow `Advance`, an inference stores its result, and the broadcasts and reply are those of `Ingest` |
| `Server.Backend.Commit` | backend/app.py:258-336 | once the step is known: the mode, buffer, history and last result of the session are stored, the other sessions are untouched, the broadcasts are appended in order, and the dictionaries stay valid |
| `Server.Backend.ResetSession` | backend/app.py:381-411 | reports the pre-reset history length, empties buffer and history without creating them for an unknown session, forgets the last result, keeps the mode and broadcasts the reset |
| `Server.Backend.UpdateMode` | backend/app.py:413-438 | any mode other than sliding or nonoverlap, in any letter case, is rejected with 400 before state changes; otherwise the lower-case mode is stored and the previous one (nonoverlap for an unseen session) returned and broadcast |
| `Server.Backend.GetMode` | backend/app.py:440-447 | returns the session's mode name, storing the default for an unseen session |
| `Server.ToMessage` | backend/app.py:269-326 | each broadcast reaches the frontend as a well-formed frame of a known kind whose `type` is the one the backend put in the dictionary |
| `Server.DepthOf` | backend/app.py:359-379 | the reply holds the newest `k` history readings in order with indices 0..k-1, a total count of k and the buffer's length; a limit of 0 or at least the history's length gives all of them, a positive smaller limit gives `limit`, a negative one drops `-limit` from the front |
| `Server.DefaultDepthReply` | backend/app.py:359-362 | a request without `limit` gets the newest 50 readings, or the whole history when it is shorter, numbered in order |
| `Server.Backend.DepthData` | backend/app.py:359-379 | the endpoint answers from the session's window; an unknown session gets an empty reply with buffer length 0 and nothing is created |
| `Server.Backend.Last` | backend/app.py:350-357 | the reported buffer length is under 10, and a result is present exactly when one was stored |
| `Server.RemoveFirst` | backend/app.py:74 | `list.remove` drops exactly the first occurrence and keeps the rest in order |
| `Server.FirstIndex` | backend/app.py:74 | the position `list.remove` uses holds `x`, and no earlier position does |
| `Server.RemoveFirstMultiset` | backend/app.py:74 | removal drops one copy of the element and keeps every other element as many times as before |
| `Server.ConnectionManager.constructor` | backend/app.py:65-66 | the registry starts empty |
| `Server.ConnectionManager.Connect` | backend/app.py:68-70 | appends the socket to its session's list |
| `Server.ConnectionManager.Disconnect` | backend/app.py:72-76 | removes the socket and drops the session once its list is empty, so no session maps to an empty list; an unknown socket raises and changes nothing |
| `MessageLog.LogKind` | frontend/src/components/monitoring/WebSocketLog.tsx:26 | a frame without a type is logged as "unknown"; any other keeps its type |
| `MessageLog.Prepend` | frontend/src/components/monitoring/WebSocketLog.tsx:31-34 | the new entry comes first, the older entries follow in order, and at most 50 are kept |
| `MessageLog.Reverse` | frontend/src/components/monitoring/WebSocketLog.tsx:32 | newest-first order is the arrival order reversed |
| `MessageLog.Entries` | frontend/src/components/monitoring/WebSocketLog.tsx:25-29 | one entry per frame, in order |
| `MessageLog.ReceivedIsNewest` | frontend/src/components/monitoring/WebSocketLog.tsx:23-36 | from an empty log, the log is always the 50 newest frames, newest first |
| `MessageLog.ReceivedBounded` | frontend/src/components/monitoring/WebSocketLog.tsx:21-34 | the log never exceeds 50 entries and its head is the newest frame |
| `MessageLog.Capitalize` | frontend/src/components/monitoring/WebSocketLog.tsx:52 | only the first character is upper-cased; the rest is unchanged |
| `MessageLog.CapitalizeKeepsLetters` | frontend/src/components/monitoring/WebSocketLog.tsx:52 | capitalizing changes only letter case |
| `MessageLog.Title` | frontend/src/components/monitoring/WebSocketLog.tsx:42-56 | an inference is titled "Model Prediction"; any other type is titled by its type with only the letter case changed |
| `MessageLog.Badge` | frontend/src/components/monitoring/WebSocketLog.tsx:65-67 | no badge for an empty log, "9+" above nine entries, otherwise the count as one digit |
| `MessageLog.WebSocketLog.Push` | frontend/src/components/monitoring/WebSocketLog.tsx:23-36 | each frame prepends exactly one entry, at most 50 are kept, and a missing frame adds nothing |
| `MessageLog.WebSocketLog.Clear` | frontend/src/components/monitoring/WebSocketLog.tsx:38-40 | `clearMessages` empties the log |
| `Page.FlipMode` | frontend/src/pages/MonitoringPage.tsx:19 | the toggle target is always the other of the two modes |
| `Page.FlipModeTwice` | frontend/src/pages/MonitoringPage.tsx:19 | toggling twice returns to the starting mode |
| `Page.ToggleRequestAccepted` | backend/app.py:416-420 | every mode the toggle requests is accepted by `POST /mode` and stored as sent |
| `Page.MonitoringPage.constructor` | frontend/src/pages/MonitoringPage.tsx:15-43 | the page starts in non-overlap mode with an empty log and opens a second socket, distinct from the hook's, for the same session |
| `Page.MonitoringPage.HandleModeChange` | frontend/src/pages/MonitoringPage.tsx:18-26 | requests the other mode for the hook's session and adopts it only when the call succeeds |
| `Page.MonitoringPage.LoadMode` | frontend/src/pages/MonitoringPage.tsx:60-70 | adopts the server's mode; a failed fetch leaves the mode unchanged |
| `Page.MonitoringPage.Receive` | frontend/src/pages/MonitoringPage.tsx:72-77 | a frame on the page's socket is logged, and only a `mode_change` sets the mode, to its new mode whatever it was |
| `System.Frames` | backend/app.py:78-84 | each broadcast reaches the hook as its frame, in order |
| `System.DispatchShort` | frontend/src/hooks/useCPRMonitoring.ts:242-323 | the dispatch effect applied to one or two frames in arrival order |
| `System.IngestKeepsHookInSync` | backend/app.py:260-336 | a reading that does not complete the session keeps the hook's chart and statistics equal to the backend's history and its summary |
| `System.CompletionLeavesHookOneAhead` | backend/app.py:267-287 | after the 120th reading the backend's session is empty, but the hook shows that one reading in its chart and statistics under the completion alert |
| `System.Depths` | backend/app.py:363-372 | the depths of a history reply, in order |
| `System.ReloadResyncs` | frontend/src/hooks/useCPRMonitoring.ts:171-190 | the hook's reload with a limit of 120 receives the whole history; when it is not empty the hook is back in step with the backend |
| `System.LastResyncs` | frontend/src/hooks/useCPRMonitoring.ts:202-213 | the hook's last-result call on the backend's `/last` reply takes the backend's buffer length and its stored result when there is one, leaves chart, statistics and alert, and so keeps a hook in step with the backend |

## Left out

- The classifier: ONNX loading, `to_model_input`, `normalize_windows`, `softmax` and
  `postprocess` are a function from ten readings to a class index in 0..3 and
  probabilities. A model output of the wrong shape (the 500 error) is not modelled.
- `/predict`, `/predict/batch`, `/health`, `/ui`, `get_local_ip` and the startup hook
  are outside the modelled core. The websocket receive loop of `ws_endpoint` is
  only present through `ConnectionManager.Connect`/`Disconnect`.
- `ConnectionManager.broadcast` and its swallowed send errors are not modelled.
  Broadcasts are appended to `Backend.outbox`, and `System` assumes each one is
  delivered in order.
- Timestamps and clocks are left out: `loop.time()`, `time.time()`, `Date`, the
  100 ms connect delay's value, the 1 s page clock and the 30 s health check.
  Which pending timer fires is the caller's choice.
- `checkHealth`, `isHealthy` and the 30 s health interval are not modelled.
- `Monitoring.Monitor.constructor`: the setup effect's calls are recorded in `calls`
  but their completions are separate steps (`GetLastResult`, `LoadDepthData`), in
  any order the caller chooses; the same holds for the calls `SetSessionId` and
  `StartClearData` start, whose reset completion is `ClearData`. Which reply
  answers which recorded call is not checked, as the code does not check it.
- `useMetronome` is not part of this model.
- JSON parsing is not modelled: a frame that does not parse is `None`. A
  `mode_change` frame without `new_mode` is not represented.
- Floating point is not modelled: depths and statistics are exact reals, and
  `round(6)` of the probabilities is left out.
- Case mapping is ASCII only. Python's `str.lower` and JavaScript's `toUpperCase`
  also map non-ASCII letters. This affects `Common.Lower`, `Windowing.Normalize`,
  `Windowing.ParseMode`, `Server.Backend.UpdateMode`, `MessageLog.Capitalize` and
  `MessageLog.Title`.
- `WebSocketHook.WebSocketClient`: a socket the server is closing (CLOSING, before
  its close event) is still counted as open by `Connect`; the code treats it as
  neither open nor connecting and would create a second socket. A timer firing in
  that gap is not modelled.
- `Server.Backend.Ingest`: one `/ingest` request is one atomic step. The handler
  awaits at its broadcasts and at the classifier call (backend/app.py:269, 280,
  314, 325), after appending the reading and before consuming the buffer, so two
  overlapping requests of one session can interleave there. In non-overlap mode
  that can leave eleven readings in the buffer, a state `Windowing.Inv` excludes
  and in which `len(buf) == WINDOW_SIZE` never holds again until the reset at 120.
- React render scheduling is not modelled. Each handler, effect or completion is
  one atomic step. An effect that re-runs only on a new `lastMessage` object is a
  call made for each arriving frame.
- The log's arrival times, the panel's open/closed state and every rendered
  string other than the title and the badge are not modelled.
- `Server.Backend.UpdateMode`: the 400 rejection carries only the status, not the
  detail text.
- `WebSocketHook.WebSocketClient.OnClose`: the close event's code and reason are
  not inputs, because the handler does not use them.
