/** The monitoring page's message log (WebSocketLog.tsx): every frame the page's
    socket delivers is prepended, and only the 50 newest are kept. The pure part says
    what the list is after a run of frames; the class holds the list. */
module MessageLog {
  import opened Common
  import opened Messages

  /** `maxMessages`. */
  const MaxMessages: nat := 50

  /** A logged frame: its type (or "unknown") and the frame itself. The arrival time
      is left out. */
  datatype Entry = Entry(kind: string, data: Message)

  /** `lastMessage.type || 'unknown'`. */
  function LogKind(m: Message): (k: string)
    ensures k != []
    ensures TypeName(m) != [] ==> k == TypeName(m)
    ensures TypeName(m) == [] ==> k == "unknown"
  {
    if TypeName(m) == [] then "unknown" else TypeName(m)
  }

  function EntryOf(m: Message): Entry
  {
    Entry(LogKind(m), m)
  }

  /** `[newMessage, ...prev].slice(0, maxMessages)`. */
  function Prepend(log: seq<Entry>, e: Entry): (r: seq<Entry>)
    ensures |r| == Min(|log| + 1, MaxMessages)
    ensures r[0] == e && r[1..] == log[..|r| - 1]
  {
    ([e] + log)[..Min(|log| + 1, MaxMessages)]
  }

  function Reverse<T>(s: seq<T>): (r: seq<T>)
    ensures |r| == |s|
    ensures forall i :: 0 <= i < |s| ==> r[i] == s[|s| - 1 - i]
  {
    if s == [] then [] else [s[|s| - 1]] + Reverse(s[..|s| - 1])
  }

  /** The log after the frames `ms` arrive, oldest first, on top of `log`. */
  function Received(log: seq<Entry>, ms: seq<Message>): seq<Entry>
  {
    if ms == [] then log else Prepend(Received(log, ms[..|ms| - 1]), EntryOf(ms[|ms| - 1]))
  }

  function Entries(ms: seq<Message>): (es: seq<Entry>)
    ensures |es| == |ms|
    ensures forall i :: 0 <= i < |ms| ==> es[i] == EntryOf(ms[i])
  {
    if ms == [] then [] else Entries(ms[..|ms| - 1]) + [EntryOf(ms[|ms| - 1])]
  }

  /** The newest entries first, at most 50 of them. */
  function Newest(ms: seq<Message>): (r: seq<Entry>)
  {
    var all := Reverse(Entries(ms));
    all[..Min(|all|, MaxMessages)]
  }

  /** Starting from an empty log, the log is always the 50 newest frames, newest
      first: one entry per frame, none dropped but the oldest, none reordered. */
  lemma {:induction false} ReceivedIsNewest(ms: seq<Message>)
    ensures Received([], ms) == Newest(ms)
  {
    if ms != [] {
      var init, last := ms[..|ms| - 1], ms[|ms| - 1];
      ReceivedIsNewest(init);
      var r := Newest(ms);
      var p := Prepend(Newest(init), EntryOf(last));
      assert |r| == |p|;
      forall i | 0 <= i < |r|
        ensures r[i] == p[i]
      {
        if i > 0 {
          assert p[i] == Newest(init)[i - 1];
        }
      }
    }
  }

  /** The log never holds more than 50 entries, whatever arrives. */
  lemma {:induction false} ReceivedBounded(log: seq<Entry>, ms: seq<Message>)
    requires |log| <= MaxMessages
    ensures |Received(log, ms)| <= MaxMessages
    ensures ms != [] ==> Received(log, ms)[0] == EntryOf(ms[|ms| - 1])
  {
    if ms != [] {
      ReceivedBounded(log, ms[..|ms| - 1]);
    }
  }

  /** `s.charAt(0).toUpperCase() + s.slice(1)`. */
  function Capitalize(s: string): (r: string)
    ensures |r| == |s|
    ensures s != [] ==> r[0] == UpperChar(s[0]) && r[1..] == s[1..]
  {
    if s == [] then [] else [UpperChar(s[0])] + s[1..]
  }

  /** Capitalizing changes no letter other than its case. */
  lemma CapitalizeKeepsLetters(s: string)
    ensures Lower(Capitalize(s)) == Lower(s)
  {
    var r := Capitalize(s);
    if s != [] {
      assert LowerChar(UpperChar(s[0])) == LowerChar(s[0]);
      assert forall i :: 0 <= i < |s| ==> LowerChar(r[i]) == LowerChar(s[i]);
    }
  }

  /** The heading of a logged frame. */
  function Title(e: Entry): (t: string)
    ensures e.kind == "inference" ==> t == "Model Prediction"
    ensures e.kind != "inference" ==> |t| == |e.kind| && Lower(t) == Lower(e.kind)
  {
    CapitalizeKeepsLetters(e.kind);
    if e.kind == "inference" then "Model Prediction" else Capitalize(e.kind)
  }

  /** The unread-count badge: hidden for an empty log, "9+" above nine, else the
      count as one digit. */
  function Badge(n: nat): (b: Option<string>)
    ensures b.None? <==> n == 0
    ensures n > 9 ==> b == Some("9+")
    ensures 0 < n <= 9 ==> |b.value| == 1 && b.value[0] as int - '0' as int == n
  {
    if n == 0 then None
    else if n > 9 then Some("9+")
    else Some([('0' as int + n) as char])
  }

  class WebSocketLog {
    var messages: seq<Entry>

    ghost predicate Valid()
      reads this
    {
      |messages| <= MaxMessages
    }

    constructor()
      ensures Valid() && messages == []
    {
      messages := [];
    }

    /** The effect on a new `lastMessage`: a missing frame adds nothing. */
    method Push(frame: Option<Message>)
      requires Valid()
      modifies this
      ensures Valid()
      ensures messages == if frame.Some? then Prepend(old(messages), EntryOf(frame.value)) else old(messages)
    {
      if frame.Some? {
        var updated := [EntryOf(frame.value)] + messages;
        messages := updated[..Min(|updated|, MaxMessages)];
      }
    }

    /** `clearMessages`. */
    method Clear()
      modifies this
      ensures Valid() && messages == []
    {
      messages := [];
    }
  }
}
