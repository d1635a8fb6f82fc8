/** The backend's windowing rules (`/ingest` in backend/app.py), as pure functions
    over one session: how the requested mode is resolved, and what one reading does
    to the session's inference buffer and depth history. The classifier itself is
    outside this module: a step only says which ten readings it is given. */
module Windowing {
  import opened Common

  const WindowSize: nat := 10
  /** Readings per session before the automatic reset. */
  const SessionLimit: nat := 120

  datatype Mode = Sliding | NonOverlap

  /** `DEFAULT_MODE`. */
  const DefaultMode: Mode := NonOverlap

  function Name(m: Mode): string
  {
    match m
    case Sliding => "sliding"
    case NonOverlap => "nonoverlap"
  }

  /** Readings the window advances per inference. */
  function Stride(m: Mode): nat
  {
    match m
    case Sliding => 1
    case NonOverlap => WindowSize
  }

  const NonOverlapAliases: set<string> := {"nonoverlap", "nonoverlapping", "block", "batch"}

  /** `.lower().replace("-", "").replace("_", "")`. */
  function Normalize(raw: string): string
  {
    Without(Without(Lower(raw), '-'), '_')
  }

  /** Any spelling of the non-overlap aliases selects it; everything else, even an
      unknown word, selects sliding. */
  function ParseMode(raw: string): Mode
  {
    if Normalize(raw) in NonOverlapAliases then NonOverlap else Sliding
  }

  /** `mode or payload.mode or session_modes[sid]`: the first non-empty of the query
      parameter, the body field and the stored mode. */
  function Requested(query: Option<string>, body: Option<string>, stored: Mode): string
  {
    OrElse(query, OrElse(body, Name(stored)))
  }

  function ResolveMode(query: Option<string>, body: Option<string>, stored: Mode): Mode
  {
    ParseMode(Requested(query, body, stored))
  }

  lemma NamesAreLowerCase(m: Mode)
    ensures Lower(Name(m)) == Name(m)
  {
    var n := Name(m);
    assert forall i :: 0 <= i < |n| ==> LowerChar(n[i]) == n[i];
  }

  /** A string of lower-case letters only is already normalized. */
  lemma LettersNormalized(s: string)
    requires forall i :: 0 <= i < |s| ==> IsLower(s[i])
    ensures Normalize(s) == s
  {
    assert Lower(s) == s;
    assert '-' !in s && '_' !in s;
    WithoutAbsent(s, '-');
    WithoutAbsent(s, '_');
  }

  /** A mode's name is already normalized. */
  lemma NameNormalized(m: Mode)
    ensures Normalize(Name(m)) == Name(m)
  {
    var n := Name(m);
    assert forall i :: 0 <= i < |n| ==> IsLower(n[i]);
    LettersNormalized(n);
  }

  /** Parsing a mode's name gives the mode back. */
  lemma ParseName(m: Mode)
    ensures ParseMode(Name(m)) == m
  {
    NameNormalized(m);
    NameIsAlias(m);
  }

  /** Of the two names, only the non-overlap one is a non-overlap alias. */
  lemma NameIsAlias(m: Mode)
    ensures Name(m) in NonOverlapAliases <==> m == NonOverlap
  {
    if m == Sliding {
      assert Name(m) != "nonoverlap" && Name(m) != "nonoverlapping";
      assert Name(m) != "block" && Name(m) != "batch";
    }
  }

  /** A stored mode resolves to itself, so a reading without a requested mode keeps
      the session's mode. */
  lemma StoredModeKept(stored: Mode)
    ensures ResolveMode(None, None, stored) == stored
  {
    assert Requested(None, None, stored) == Name(stored);
    ParseName(stored);
  }

  /** A non-empty query parameter wins over the body, and a non-empty body over the
      stored mode. */
  lemma RequestPriority(query: Option<string>, body: Option<string>, stored: Mode)
    ensures query.Some? && query.value != [] ==> ResolveMode(query, body, stored) == ParseMode(query.value)
    ensures (query.None? || query.value == []) && body.Some? && body.value != [] ==>
      ResolveMode(query, body, stored) == ParseMode(body.value)
  {
  }

  /** Parsing ignores letter case. */
  lemma ParseIgnoresCase(raw: string)
    ensures ParseMode(Lower(raw)) == ParseMode(raw)
  {
    LowerIdempotent(raw);
  }

  /** One session's deques: `buffers[sid]` and `depth_history[sid]`. */
  datatype Window = Window(buffer: seq<real>, history: seq<real>)

  const Fresh: Window := Window([], [])

  predicate IsSuffix<T(==)>(a: seq<T>, b: seq<T>)
  {
    |a| <= |b| && a == b[|b| - |a|..]
  }

  /** What holds between requests: the buffer is shorter than a window and is the
      tail of the history, which is shorter than the session limit. */
  predicate Inv(w: Window)
  {
    |w.buffer| < WindowSize && |w.history| < SessionLimit && IsSuffix(w.buffer, w.history)
  }

  /** The `popleft` loop of sliding mode: drop the oldest readings until at most
      `keep` are left. */
  function DropOldest(buf: seq<real>, keep: nat): (r: seq<real>)
    ensures |r| == if |buf| <= keep then |buf| else keep
    ensures IsSuffix(r, buf)
  {
    if |buf| <= keep then buf else buf[|buf| - keep..]
  }

  /** One reading: the new state, the total reported by a `session_complete`
      broadcast if the limit was reached, the `buffer_len` of the `depth_data`
      broadcast (before consumption), and the ten readings sent to the classifier
      if an inference ran. */
  datatype Step = Step(after: Window, completed: Option<nat>, reportedLen: nat, window: Option<seq<real>>)

  function Advance(w: Window, d: real, mode: Mode): Step
  {
    var buf := w.buffer + [d];
    var hist := w.history + [d];
    var complete := |hist| >= SessionLimit;
    var buf1 := if complete then [] else buf;
    var hist1 := if complete then [] else hist;
    var infer := if mode == Sliding then |buf1| >= WindowSize else |buf1| == WindowSize;
    var buf2 :=
      if !infer then buf1
      else if mode == Sliding then DropOldest(buf1, WindowSize - Stride(mode))
      else [];
    Step(Window(buf2, hist1),
         if complete then Some(|hist|) else None,
         |buf1|,
         if infer then Some(buf1[|buf1| - WindowSize..]) else None)
  }

  /** Appending the same element to both keeps a suffix a suffix. */
  lemma SuffixSnoc<T>(a: seq<T>, b: seq<T>, x: T)
    requires IsSuffix(a, b)
    ensures IsSuffix(a + [x], b + [x])
  {
    var a1, b1 := a + [x], b + [x];
    assert b1[|b1| - |a1|..] == b[|b| - |a|..] + [x];
  }

  lemma SuffixTrans<T>(a: seq<T>, b: seq<T>, c: seq<T>)
    requires IsSuffix(a, b) && IsSuffix(b, c)
    ensures IsSuffix(a, c)
  {
    forall i | 0 <= i < |a|
      ensures a[i] == c[|c| - |a| + i]
    {
      assert a[i] == b[|b| - |a| + i];
    }
  }

  /** A reading that neither completes the session nor fills the window is only
      appended. */
  lemma AppendOnly(w: Window, d: real, mode: Mode)
    requires Inv(w) && |w.history| < SessionLimit - 1 && |w.buffer| < WindowSize - 1
    ensures var s := Advance(w, d, mode);
      s.after == Window(w.buffer + [d], w.history + [d]) && s.reportedLen == |w.buffer| + 1
  {
  }

  /** The tenth buffered reading of a session that is not completing: the history
      grows by it and the buffer keeps the newest `WindowSize - Stride(mode)`. */
  lemma WindowFilled(w: Window, d: real, mode: Mode)
    requires Inv(w) && |w.history| < SessionLimit - 1 && |w.buffer| == WindowSize - 1
    ensures var s := Advance(w, d, mode);
      s.after.history == w.history + [d] && s.reportedLen == WindowSize &&
      s.after.buffer == if mode == Sliding then DropOldest(w.buffer + [d], WindowSize - 1) else []
  {
  }

  /** Every reading keeps the invariant, so after every request the buffer holds
      fewer than ten readings and the history fewer than 120; the `depth_data`
      broadcast reports at most ten. */
  lemma AdvanceKeepsInv(w: Window, d: real, mode: Mode)
    requires Inv(w)
    ensures var s := Advance(w, d, mode);
      Inv(s.after) && s.reportedLen <= WindowSize
  {
    var s := Advance(w, d, mode);
    var buf, hist := w.buffer + [d], w.history + [d];
    SuffixSnoc(w.buffer, w.history, d);
    if |w.history| == SessionLimit - 1 {
      assert s.after == Fresh && s.reportedLen == 0;
    } else if |w.buffer| < WindowSize - 1 {
      AppendOnly(w, d, mode);
    } else {
      WindowFilled(w, d, mode);
      if mode == Sliding {
        SuffixTrans(s.after.buffer, buf, hist);
      } else {
        assert hist[|hist|..] == [];
      }
    }
  }

  /** The 120th reading completes the session: it reports a total of 120, clears
      both deques and runs no inference. No other reading completes it. */
  lemma CompletionAt120(w: Window, d: real, mode: Mode)
    requires Inv(w)
    ensures var s := Advance(w, d, mode);
      (s.completed.Some? <==> |w.history| == SessionLimit - 1) &&
      (s.completed.Some? ==> s.completed.value == SessionLimit && s.after == Fresh && s.window.None?)
  {
  }

  /** An inference runs exactly when the tenth buffered reading arrives (in both
      modes, since the buffer never holds ten between requests) and the session is
      not completing; it sees the ten most recent readings of the session. The modes
      differ in what is kept afterwards: nine readings or none. */
  lemma InferenceRule(w: Window, d: real, mode: Mode)
    requires Inv(w)
    ensures var s := Advance(w, d, mode);
      (s.window.Some? <==> |w.buffer| == WindowSize - 1 && |w.history| < SessionLimit - 1) &&
      (s.window.Some? ==>
        var hist := w.history + [d];
        s.window.value == hist[|hist| - WindowSize..] &&
        |s.after.buffer| == WindowSize - Stride(mode))
  {
    var buf, hist := w.buffer + [d], w.history + [d];
    var s := Advance(w, d, mode);
    if |hist| >= SessionLimit {
      assert s.window.None?;
    } else if |w.buffer| == WindowSize - 1 {
      assert |buf| == WindowSize;
      assert s.window == Some(buf[|buf| - WindowSize..]);
      assert buf[|buf| - WindowSize..] == buf;
      assert buf == hist[|hist| - WindowSize..] by {
        assert hist[|hist| - |buf|..] == w.history[|w.history| - |w.buffer|..] + [d];
      }
    } else {
      assert |buf| < WindowSize;
      assert s.window.None?;
    }
  }

  /** Readings fed one by one to a session in a fixed mode. */
  function Run(w: Window, xs: seq<real>, mode: Mode): Window
  {
    if xs == [] then w else Advance(Run(w, xs[..|xs| - 1], mode), xs[|xs| - 1], mode).after
  }

  /** How many of those readings ran an inference. */
  function Inferences(w: Window, xs: seq<real>, mode: Mode): nat
  {
    if xs == [] then 0
    else
      var last := Advance(Run(w, xs[..|xs| - 1], mode), xs[|xs| - 1], mode);
      Inferences(w, xs[..|xs| - 1], mode) + (if last.window.Some? then 1 else 0)
  }


  lemma CounterStep(n: nat)
    ensures (n + 1) % SessionLimit == if n % SessionLimit == SessionLimit - 1 then 0 else n % SessionLimit + 1
    ensures (n + 1) / SessionLimit == if n % SessionLimit == SessionLimit - 1 then n / SessionLimit + 1 else n / SessionLimit
  {
    var q, r := n / SessionLimit, n % SessionLimit;
    assert n == SessionLimit * q + r;
    if r == SessionLimit - 1 {
      assert n + 1 == SessionLimit * (q + 1);
    } else {
      assert n + 1 == SessionLimit * q + (r + 1);
    }
  }

  /** Buffer length after `n` readings from a fresh session in one mode. */
  function BufferAfter(n: nat, mode: Mode): nat
  {
    if mode == NonOverlap then n % SessionLimit % WindowSize else Min(n % SessionLimit, WindowSize - 1)
  }

  /** Inferences run by `n` readings from a fresh session in one mode. */
  function InferencesAfter(n: nat, mode: Mode): nat
  {
    if mode == NonOverlap then n / SessionLimit * 11 + n % SessionLimit / WindowSize
    else n / SessionLimit * 110 + Max(n % SessionLimit - (WindowSize - 1), 0)
  }

  /** The lengths one reading leaves, read off the rules above. */
  lemma StepLengths(w: Window, d: real, mode: Mode)
    requires Inv(w)
    ensures var s := Advance(w, d, mode);
      Inv(s.after) &&
      (|w.history| == SessionLimit - 1 ==> s.after == Fresh && s.window.None?) &&
      (|w.history| < SessionLimit - 1 ==>
        |s.after.history| == |w.history| + 1 &&
        (s.window.Some? <==> |w.buffer| == WindowSize - 1) &&
        |s.after.buffer| == if |w.buffer| == WindowSize - 1 then WindowSize - Stride(mode) else |w.buffer| + 1)
  {
    AdvanceKeepsInv(w, d, mode);
    CompletionAt120(w, d, mode);
    InferenceRule(w, d, mode);
  }

  /** How the non-overlap counts move with one more reading. */
  lemma NonOverlapArith(n: nat)
    ensures var r := n % SessionLimit; var b := BufferAfter(n, NonOverlap);
      b < WindowSize &&
      (r == SessionLimit - 1 ==>
        BufferAfter(n + 1, NonOverlap) == 0 && InferencesAfter(n + 1, NonOverlap) == InferencesAfter(n, NonOverlap)) &&
      (r < SessionLimit - 1 ==>
        BufferAfter(n + 1, NonOverlap) == (if b == WindowSize - 1 then 0 else b + 1) &&
        InferencesAfter(n + 1, NonOverlap) == InferencesAfter(n, NonOverlap) + (if b == WindowSize - 1 then 1 else 0))
  {
    CounterStep(n);
    var r := n % SessionLimit;
    if r < SessionLimit - 1 {
      assert (n + 1) % SessionLimit == r + 1;
      assert (r + 1) % WindowSize == if r % WindowSize == WindowSize - 1 then 0 else r % WindowSize + 1;
      assert (r + 1) / WindowSize == if r % WindowSize == WindowSize - 1 then r / WindowSize + 1 else r / WindowSize;
    }
  }

  /** How the sliding counts move with one more reading. */
  lemma SlidingArith(n: nat)
    ensures var r := n % SessionLimit; var b := BufferAfter(n, Sliding);
      b < WindowSize &&
      (r == SessionLimit - 1 ==>
        BufferAfter(n + 1, Sliding) == 0 && InferencesAfter(n + 1, Sliding) == InferencesAfter(n, Sliding)) &&
      (r < SessionLimit - 1 ==>
        BufferAfter(n + 1, Sliding) == (if b == WindowSize - 1 then b else b + 1) &&
        InferencesAfter(n + 1, Sliding) == InferencesAfter(n, Sliding) + (if b == WindowSize - 1 then 1 else 0))
  {
    CounterStep(n);
  }

  lemma {:induction false} CountStep(w: Window, d: real, mode: Mode, n: nat)
    requires Inv(w) && |w.history| == n % SessionLimit && |w.buffer| == BufferAfter(n, mode)
    ensures var s := Advance(w, d, mode);
      Inv(s.after) && |s.after.history| == (n + 1) % SessionLimit &&
      |s.after.buffer| == BufferAfter(n + 1, mode) &&
      InferencesAfter(n, mode) + (if s.window.Some? then 1 else 0) == InferencesAfter(n + 1, mode)
  {
    StepLengths(w, d, mode);
    CounterStep(n);
    if mode == NonOverlap {
      NonOverlapArith(n);
    } else {
      SlidingArith(n);
    }
  }

  /** From a fresh session, `n` readings in one mode leave `n mod 120` readings of
      history; the buffer holds the readings since the last inference in
      non-overlap mode and the last nine (or all, if fewer) in sliding mode. Each
      full session runs 11 inferences in non-overlap mode (at readings 10, 20, ...,
      110, never at 120) and 110 in sliding mode (readings 10 to 119). */
  lemma {:induction false} RunFromFresh(xs: seq<real>, mode: Mode)
    ensures var w := Run(Fresh, xs, mode);
      Inv(w) && |w.history| == |xs| % SessionLimit && |w.buffer| == BufferAfter(|xs|, mode) &&
      Inferences(Fresh, xs, mode) == InferencesAfter(|xs|, mode)
  {
    if xs != [] {
      var init := xs[..|xs| - 1];
      var w := Run(Fresh, init, mode);
      var s := Advance(w, xs[|xs| - 1], mode);
      RunFromFresh(init, mode);
      CountStep(w, xs[|xs| - 1], mode, |init|);
      assert Run(Fresh, xs, mode) == s.after;
      assert Inferences(Fresh, xs, mode) == Inferences(Fresh, init, mode) + (if s.window.Some? then 1 else 0);
    }
  }
}
