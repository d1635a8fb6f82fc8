/** The backend's session state (backend/app.py): the module-level dictionaries of
    inference buffers, depth histories, modes and last results, mutated by `/ingest`,
    `/reset`, `/mode` and read by `/depth`, `/last` and `GET /mode`; and the
    per-session websocket registry. Broadcasts are appended to an outgoing-event log
    instead of being sent. The ONNX classifier is the constructor's `classify`
    parameter, a function from ten readings to a class index in 0..3 and
    probabilities. */
module Server {
  import opened Common
  import opened Messages
  import opened Windowing

  type ClassIndex = i: int | 0 <= i < 4

  /** What the classifier returns for one window. */
  datatype Scores = Scores(classIndex: ClassIndex, probs: seq<real>)

  /** `CLASS_MAP`. */
  function ClassLabel(c: ClassIndex): string
  {
    match c
    case 0 => "stabil"
    case 1 => "ga stabil"
    case 2 => "cenderung atas"
    case 3 => "cenderung bawah"
  }

  /** The `result` dictionary of an inference. */
  function ResultOf(s: Scores): (p: Prediction)
    ensures 0 <= p.classIndex < 4
  {
    Prediction(s.classIndex, ClassLabel(s.classIndex), s.probs)
  }

  const CompleteText: string := "120 kompresi tercapai! Sesi direset otomatis."
  const ResetText: string := "Sesi direset manual oleh pengguna."

  /** A broadcast to a session's sockets (timestamps left out). */
  datatype Event =
    | CompleteEvent(session: string, totalCompressions: nat)
    | DepthEvent(session: string, depthCm: real, bufferLen: nat, totalCompressions: nat)
    | InferenceEvent(session: string, result: Prediction)
    | ResetEvent(session: string, totalBeforeReset: nat)
    | ModeEvent(session: string, oldMode: string, newMode: string)

  /** The `"type"` field of the dictionary the backend broadcasts for an event. */
  function EventType(e: Event): string
  {
    match e
    case CompleteEvent(_, _) => "session_complete"
    case DepthEvent(_, _, _, _) => "depth_data"
    case InferenceEvent(_, _) => "inference"
    case ResetEvent(_, _) => "session_reset"
    case ModeEvent(_, _, _) => "mode_change"
  }

  /** The frame a frontend socket of the session receives for an event: a
      well-formed frame whose `type` is the one the backend sent. */
  function ToMessage(e: Event): (m: Message)
    ensures WellFormed(m) && !m.Other?
    ensures TypeName(m) == EventType(e)
  {
    match e
    case CompleteEvent(_, _) => SessionComplete(Some(CompleteText))
    case DepthEvent(_, d, len, _) => DepthData(d, len)
    case InferenceEvent(_, p) => Inference(Some(p.classIndex), Some(p.classLabel), Some(p.probs))
    case ResetEvent(_, _) => SessionReset(Some(ResetText))
    case ModeEvent(_, o, n) => ModeChange(o, n)
  }

  /** The reply of `/ingest`. */
  datatype IngestReply = IngestReply(
    mode: Mode, windowSize: nat, stride: nat, session: string,
    bufferLen: nat, inferred: bool, result: Option<Prediction>)

  /** The reply of `POST /mode`, or the 400 rejection. */
  datatype ModeReply = ModeUpdated(oldMode: string, newMode: string) | BadRequest(status: nat)

  /** One point of `/depth`: the reading and its position in the reply. */
  datatype DepthPoint = DepthPoint(depth: real, index: nat)

  /** The `limit` of `/depth` when the request gives none. */
  const DefaultDepthLimit: int := 50

  /** The reply of `/depth`. */
  datatype DepthReply = DepthReply(session: string, bufferLen: nat, points: seq<DepthPoint>, totalCount: nat)

  /** The reply of `/last`. */
  datatype LastReply = LastReply(session: string, bufferLen: nat, result: Option<Prediction>)

  /** Python's `s[-limit:]`. */
  function PyTail<T>(s: seq<T>, limit: int): (r: seq<T>)
    ensures |r| <= |s| && r == s[|s| - |r|..]
    ensures limit > 0 ==> |r| == (if limit < |s| then limit else |s|)
    ensures limit == 0 ==> r == s
    ensures limit < 0 ==> |r| == (if -limit < |s| then |s| + limit else 0)
  {
    var start := -limit;
    var from := if start < 0 then (if start + |s| < 0 then 0 else start + |s|)
                else (if start > |s| then |s| else start);
    s[from..]
  }

  /** `ps` are the last `|ps|` readings of `h`, numbered from 0 in order. */
  predicate NumberedSuffix(ps: seq<DepthPoint>, h: seq<real>)
  {
    |ps| <= |h| && forall i :: 0 <= i < |ps| ==> ps[i] == DepthPoint(h[|h| - |ps| + i], i)
  }

  /** How many readings `h[-limit:]` keeps: all of them for a limit of 0. */
  predicate TailLength(k: int, n: int, limit: int)
  {
    (limit == 0 || limit >= n ==> k == n) &&
    (0 < limit < n ==> k == limit) &&
    (limit < 0 ==> k == Max(n + limit, 0))
  }

  /** How many readings `h[-limit:]` keeps, and their numbering. */
  lemma NumberedTail(h: seq<real>, limit: int)
    ensures NumberedSuffix(Numbered(PyTail(h, limit)), h)
    ensures TailLength(|PyTail(h, limit)|, |h|, limit)
  {
  }

  /** The readings of a `/depth` reply numbered from 0, in order. */
  function Numbered(ds: seq<real>): (ps: seq<DepthPoint>)
    ensures |ps| == |ds|
    ensures forall i :: 0 <= i < |ds| ==> ps[i] == DepthPoint(ds[i], i)
  {
    seq(|ds|, i requires 0 <= i < |ds| => DepthPoint(ds[i], i))
  }

  /** The `/depth` reply for a session's window: the last `limit` history readings
      numbered from 0 (the whole history for a limit of 0), with the buffer
      length. */
  function DepthOf(sid: string, w: Window, limit: int): (r: DepthReply)
    ensures r.totalCount == |r.points| && r.bufferLen == |w.buffer|
    ensures NumberedSuffix(r.points, w.history)
    ensures TailLength(|r.points|, |w.history|, limit)
  {
    NumberedTail(w.history, limit);
    DepthReply(sid, |w.buffer|, Numbered(PyTail(w.history, limit)), |PyTail(w.history, limit)|)
  }

  /** A `/depth` request without a `limit` gets the newest 50 readings, or the
      whole history when it is shorter. */
  lemma DefaultDepthReply(sid: string, w: Window)
    ensures var r := DepthOf(sid, w, DefaultDepthLimit);
      |r.points| == Min(|w.history|, DefaultDepthLimit) && NumberedSuffix(r.points, w.history)
  {
  }

  /** The result an ingest step stores and broadcasts, for a given classifier. */
  function StepResult(s: Step, classify: seq<real> -> Scores): (p: Option<Prediction>)
    ensures p.Some? <==> s.window.Some?
  {
    if s.window.Some? then Some(ResultOf(classify(s.window.value))) else None
  }

  /** The broadcasts of one `/ingest`, in order. */
  function IngestEvents(sid: string, d: real, s: Step, result: Option<Prediction>): seq<Event>
  {
    (if s.completed.Some? then [CompleteEvent(sid, s.completed.value)] else []) +
    [DepthEvent(sid, d, s.reportedLen, |s.after.history|)] +
    (if result.Some? then [InferenceEvent(sid, result.value)] else [])
  }

  /** The deque work of one `/ingest` on a session's pair: append to both, clear
      both at the session limit, pick the window when due, then consume it (the
      `popleft` loop in sliding mode, `clear` in non-overlap mode). */
  method ApplyReading(w: Window, d: real, mode: Mode) returns (s: Step)
    ensures s == Advance(w, d, mode)
  {
    var buf := w.buffer + [d];
    var hist := w.history + [d];
    var completed: Option<nat> := None;
    if |hist| >= SessionLimit {
      completed := Some(|hist|);
      hist := [];
      buf := [];
    }
    var reported := |buf|;
    var window: Option<seq<real>> := None;
    var shouldInfer := if mode == Sliding then |buf| >= WindowSize else |buf| == WindowSize;
    if shouldInfer {
      window := Some(buf[|buf| - WindowSize..]);
      if mode == Sliding {
        var stride := Stride(mode);
        ghost var full := buf;
        while |buf| > WindowSize - stride
          invariant IsSuffix(buf, full) && |buf| >= WindowSize - stride
          decreases |buf|
        {
          buf := buf[1..];
        }
      } else {
        buf := [];
      }
    }
    s := Step(Window(buf, hist), completed, reported, window);
  }

  /** The two deque dictionaries have the same sessions, and each session's pair
      satisfies the windowing invariant. */
  ghost predicate SessionsValid(buffers: map<string, seq<real>>, history: map<string, seq<real>>)
  {
    buffers.Keys == history.Keys &&
    forall sid :: sid in buffers ==> sid in history && Inv(Window(buffers[sid], history[sid]))
  }

  /** Storing a pair that satisfies the invariant keeps the dictionaries valid. */
  lemma SessionsUpdate(buffers: map<string, seq<real>>, history: map<string, seq<real>>, sid: string, w: Window)
    requires SessionsValid(buffers, history) && Inv(w)
    ensures SessionsValid(buffers[sid := w.buffer], history[sid := w.history])
  {
    var b, h := buffers[sid := w.buffer], history[sid := w.history];
    forall k | k in b
      ensures k in h && Inv(Window(b[k], h[k]))
    {
      if k != sid {
        assert k in buffers;
      }
    }
  }

  class Backend {
    const classify: seq<real> -> Scores
    var buffers: map<string, seq<real>>
    var history: map<string, seq<real>>
    var modes: map<string, Mode>
    var lastResult: map<string, Prediction>
    /** Every broadcast so far, oldest first. */
    var outbox: seq<Event>

    ghost predicate Valid()
      reads this
    {
      SessionsValid(buffers, history)
    }

    function WindowOf(sid: string): Window
      reads this
    {
      if sid in buffers && sid in history then Window(buffers[sid], history[sid]) else Fresh
    }

    /** `session_modes[sid]` without the side effect of the default dictionary. */
    function ModeOf(sid: string): Mode
      reads this
    {
      if sid in modes then modes[sid] else DefaultMode
    }

    constructor(classify: seq<real> -> Scores)
      ensures Valid() && this.classify == classify
      ensures buffers == map[] && history == map[] && modes == map[] && lastResult == map[]
      ensures outbox == []
    {
      this.classify := classify;
      buffers := map[];
      history := map[];
      modes := map[];
      lastResult := map[];
      outbox := [];
    }

    /** `/ingest`: resolve the mode from the query parameter, the body and the
        stored mode, then apply the reading in that mode. */
    method Ingest(sid: string, depth: real, query: Option<string>, bodyMode: Option<string>)
      returns (r: IngestReply)
      requires Valid()
      modifies this`buffers, this`history, this`modes, this`lastResult, this`outbox
      ensures Valid()
      ensures modes == old(modes)[sid := ResolveMode(query, bodyMode, old(ModeOf(sid)))]
      ensures var s := Advance(old(WindowOf(sid)), depth, modes[sid]);
        buffers == old(buffers)[sid := s.after.buffer] &&
        history == old(history)[sid := s.after.history]
      ensures var s := Advance(old(WindowOf(sid)), depth, modes[sid]);
        var result := StepResult(s, classify);
        lastResult == (if result.Some? then old(lastResult)[sid := result.value] else old(lastResult)) &&
        outbox == old(outbox) + IngestEvents(sid, depth, s, result) &&
        r == IngestReply(modes[sid], WindowSize, Stride(modes[sid]), sid, |s.after.buffer|, result.Some?, result)
    {
      var mode := ResolveMode(query, bodyMode, ModeOf(sid));
      r := IngestInMode(sid, depth, mode);
    }

    /** The rest of `/ingest` once the mode is resolved: store it, apply the reading
        to the session's deques, store the result of an inference, and broadcast. */
    method IngestInMode(sid: string, depth: real, mode: Mode) returns (r: IngestReply)
      requires Valid()
      modifies this`buffers, this`history, this`modes, this`lastResult, this`outbox
      ensures Valid()
      ensures modes == old(modes)[sid := mode]
      ensures var s := Advance(old(WindowOf(sid)), depth, mode);
        buffers == old(buffers)[sid := s.after.buffer] &&
        history == old(history)[sid := s.after.history]
      ensures var s := Advance(old(WindowOf(sid)), depth, mode);
        var result := StepResult(s, classify);
        lastResult == (if result.Some? then old(lastResult)[sid := result.value] else old(lastResult)) &&
        outbox == old(outbox) + IngestEvents(sid, depth, s, result) &&
        r == IngestReply(mode, WindowSize, Stride(mode), sid, |s.after.buffer|, result.Some?, result)
    {
      var w := WindowOf(sid);
      assert Inv(w);
      AdvanceKeepsInv(w, depth, mode);
      var s := ApplyReading(w, depth, mode);
      var result := StepResult(s, classify);
      Commit(sid, depth, mode, s, result);
      r := IngestReply(mode, WindowSize, Stride(mode), sid, |s.after.buffer|, result.Some?, result);
    }

    /** The state changes of one `/ingest` once its step is known. */
    method Commit(sid: string, depth: real, mode: Mode, s: Step, result: Option<Prediction>)
      requires Valid() && Inv(s.after)
      modifies this`buffers, this`history, this`modes, this`lastResult, this`outbox
      ensures Valid()
      ensures modes == old(modes)[sid := mode]
      ensures buffers == old(buffers)[sid := s.after.buffer] && history == old(history)[sid := s.after.history]
      ensures lastResult == (if result.Some? then old(lastResult)[sid := result.value] else old(lastResult))
      ensures outbox == old(outbox) + IngestEvents(sid, depth, s, result)
    {
      modes := modes[sid := mode];
      if result.Some? {
        lastResult := lastResult[sid := result.value];
      }
      SessionsUpdate(buffers, history, sid, s.after);
      buffers := buffers[sid := s.after.buffer];
      history := history[sid := s.after.history];
      outbox := outbox + IngestEvents(sid, depth, s, result);
    }

    /** `/reset/{sid}`: report the history length, empty both deques (without
        creating them for an unknown session) and forget the last result. The
        mode is kept. */
    method ResetSession(sid: string) returns (totalBeforeReset: nat)
      requires Valid()
      modifies this`buffers, this`history, this`lastResult, this`outbox
      ensures Valid()
      ensures totalBeforeReset == |old(WindowOf(sid)).history|
      ensures sid in old(buffers) ==> buffers == old(buffers)[sid := []] && history == old(history)[sid := []]
      ensures sid !in old(buffers) ==> buffers == old(buffers) && history == old(history)
      ensures lastResult == old(lastResult) - {sid}
      ensures outbox == old(outbox) + [ResetEvent(sid, totalBeforeReset)]
    {
      totalBeforeReset := if sid in history then |history[sid]| else 0;
      if sid in buffers {
        buffers := buffers[sid := []];
      }
      if sid in history {
        history := history[sid := []];
      }
      lastResult := lastResult - {sid};
      outbox := outbox + [ResetEvent(sid, totalBeforeReset)];
    }

    /** `POST /mode/{sid}`: anything but "sliding" or "nonoverlap" in any letter
        case is rejected with 400 before any state changes; otherwise the mode is
        stored and the previous one returned. */
    method UpdateMode(sid: string, mode: string) returns (r: ModeReply)
      requires Valid()
      modifies this`modes, this`outbox
      ensures Valid()
      ensures Lower(mode) != "sliding" && Lower(mode) != "nonoverlap" ==>
        r == BadRequest(400) && modes == old(modes) && outbox == old(outbox)
      ensures Lower(mode) == "sliding" || Lower(mode) == "nonoverlap" ==>
        var m := if Lower(mode) == "sliding" then Sliding else NonOverlap;
        Name(m) == Lower(mode) &&
        r == ModeUpdated(Name(old(ModeOf(sid))), Lower(mode)) &&
        modes == old(modes)[sid := m] &&
        outbox == old(outbox) + [ModeEvent(sid, Name(old(ModeOf(sid))), Lower(mode))]
    {
      var lowered := Lower(mode);
      if lowered != "sliding" && lowered != "nonoverlap" {
        return BadRequest(400);
      }
      var previous := Name(ModeOf(sid));
      modes := modes[sid := if lowered == "sliding" then Sliding else NonOverlap];
      outbox := outbox + [ModeEvent(sid, previous, lowered)];
      r := ModeUpdated(previous, lowered);
    }

    /** `GET /mode/{sid}`: the session's mode; the default dictionary stores the
        default for a session it had not seen. */
    method GetMode(sid: string) returns (name: string)
      modifies this`modes
      ensures modes == old(modes)[sid := old(ModeOf(sid))]
      ensures name == Name(old(ModeOf(sid)))
      ensures name == "sliding" || name == "nonoverlap"
    {
      var m := ModeOf(sid);
      modes := modes[sid := m];
      name := Name(m);
    }

    /** `/depth/{sid}?limit=` on the backend's dictionaries. Reading an unknown
        session creates nothing. */
    function DepthData(sid: string, limit: int): (r: DepthReply)
      reads this
      ensures r == DepthOf(sid, WindowOf(sid), limit)
      ensures sid !in buffers ==> r.points == [] && r.bufferLen == 0
    {
      DepthOf(sid, WindowOf(sid), limit)
    }

    /** `/last/{sid}`: the buffer length and the last result, if any. */
    function Last(sid: string): (r: LastReply)
      reads this
      requires Valid()
      ensures r.bufferLen < WindowSize
      ensures r.result.Some? <==> sid in lastResult
    {
      LastReply(sid, |WindowOf(sid).buffer|, if sid in lastResult then Some(lastResult[sid]) else None)
    }
  }

  /** `list.index(x)`: the position of the first occurrence of `x`. */
  function FirstIndex<T(==)>(s: seq<T>, x: T): (i: nat)
    requires x in s
    ensures i < |s| && s[i] == x && x !in s[..i]
  {
    if s[0] == x then 0
    else
      var j := FirstIndex(s[1..], x);
      assert s[..j + 1] == [s[0]] + s[1..][..j];
      j + 1
  }

  /** `list.remove(x)`: the first occurrence of `x` removed, the rest kept in
      order. */
  function RemoveFirst<T(==)>(s: seq<T>, x: T): (r: seq<T>)
    requires x in s
    ensures var i := FirstIndex(s, x); r == s[..i] + s[i + 1..]
    ensures |r| == |s| - 1
  {
    if s[0] == x then
      assert s[..0] + s[1..] == s[1..];
      s[1..]
    else
      var rest := s[1..];
      var j := FirstIndex(rest, x);
      assert FirstIndex(s, x) == j + 1;
      var r := [s[0]] + RemoveFirst(rest, x);
      SplitAfterHead(s, j);
      r
  }

  lemma SplitAfterHead<T>(s: seq<T>, j: nat)
    requires j + 1 < |s|
    ensures [s[0]] + (s[1..][..j] + s[1..][j + 1..]) == s[..j + 1] + s[j + 2..]
  {
    assert s[..j + 1] == [s[0]] + s[1..][..j];
    assert s[j + 2..] == s[1..][j + 1..];
  }

  /** Removal drops exactly one copy of `x` and keeps every other element. */
  lemma RemoveFirstMultiset<T>(s: seq<T>, x: T)
    requires x in s
    ensures multiset(RemoveFirst(s, x)) == multiset(s) - multiset{x}
  {
    var i := FirstIndex(s, x);
    assert s == s[..i] + [x] + s[i + 1..];
  }

  /** The per-session websocket registry (`ConnectionManager`), sockets by id. */
  class ConnectionManager {
    var active: map<string, seq<nat>>

    /** No session maps to an empty list. */
    ghost predicate Valid()
      reads this
    {
      forall sid :: sid in active ==> active[sid] != []
    }

    constructor()
      ensures Valid() && active == map[]
    {
      active := map[];
    }

    /** Sockets that a broadcast to the session reaches. */
    function Subscribers(sid: string): seq<nat>
      reads this
    {
      if sid in active then active[sid] else []
    }

    /** `connect`: append the socket to its session's list. */
    method Connect(sid: string, ws: nat)
      requires Valid()
      modifies this
      ensures Valid()
      ensures active == old(active)[sid := old(Subscribers(sid)) + [ws]]
    {
      active := active[sid := Subscribers(sid) + [ws]];
    }

    /** `disconnect`: remove the socket (the first occurrence), and the session once
        its list is empty. `list.remove` raises for a socket that is not in the list;
        `ok` is false then and nothing changes. */
    method Disconnect(sid: string, ws: nat) returns (ok: bool)
      requires Valid()
      modifies this
      ensures Valid()
      ensures ok <==> sid !in old(active) || ws in old(active)[sid]
      ensures !ok || sid !in old(active) ==> active == old(active)
      ensures ok && sid in old(active) ==>
        var rest := RemoveFirst(old(active)[sid], ws);
        active == if rest == [] then old(active) - {sid} else old(active)[sid := rest]
    {
      if sid !in active {
        return true;
      }
      if ws !in active[sid] {
        return false;
      }
      var rest := RemoveFirst(active[sid], ws);
      if rest == [] {
        active := active - {sid};
      } else {
        active := active[sid := rest];
      }
      ok := true;
    }
  }
}
