/** Small shared vocabulary: optional values, the outcome of a remote call, and the
    ASCII text helpers that the backend's mode parsing and the log's titles rely on. */
module Common {

  datatype Option<T> = None | Some(value: T)

  /** Outcome of one HTTP call made through the frontend's API client. A rejected
      promise carries the thrown error's message when it is an `Error`, and nothing
      otherwise. */
  datatype Rpc<T> = Ok(value: T) | Failed(reason: Option<string>)

  /** The text a hook stores in its `error` field when a call fails:
      `err instanceof Error ? err.message : fallback`. */
  function ErrorText(reason: Option<string>, fallback: string): string
  {
    match reason
    case Some(m) => m
    case None => fallback
  }

  /** JavaScript's `a || b` and Python's `a or b` on optional strings: the first
      operand unless it is missing or empty. With a non-empty default the result is
      never empty. */
  function OrElse(s: Option<string>, fallback: string): (t: string)
    ensures fallback != [] ==> t != []
  {
    if s.Some? && s.value != [] then s.value else fallback
  }

  function Min(a: int, b: int): int { if a <= b then a else b }
  function Max(a: int, b: int): int { if a >= b then a else b }

  predicate IsUpper(c: char) { 'A' <= c <= 'Z' }
  predicate IsLower(c: char) { 'a' <= c <= 'z' }

  function LowerChar(c: char): (d: char)
    ensures !IsUpper(d)
    ensures IsUpper(c) ==> d as int == c as int + 32
    ensures !IsUpper(c) ==> d == c
  {
    if IsUpper(c) then (c as int + 32) as char else c
  }

  function UpperChar(c: char): (d: char)
    ensures !IsLower(d)
    ensures IsLower(c) ==> d as int == c as int - 32
    ensures !IsLower(c) ==> d == c
  {
    if IsLower(c) then (c as int - 32) as char else c
  }

  /** `str.lower()` restricted to ASCII letters. */
  function Lower(s: string): (r: string)
    ensures |r| == |s|
    ensures forall i :: 0 <= i < |s| ==> r[i] == LowerChar(s[i])
  {
    if s == [] then [] else [LowerChar(s[0])] + Lower(s[1..])
  }

  /** `str.replace(c, "")`: every occurrence of `c` removed, the rest kept in order. */
  function Without(s: string, c: char): (r: string)
    ensures |r| <= |s|
    ensures multiset(r) == multiset(s)[c := 0]
    ensures forall x :: x in r <==> x in s && x != c
  {
    if s == [] then []
    else
      assert s == [s[0]] + s[1..];
      if s[0] == c then Without(s[1..], c)
      else [s[0]] + Without(s[1..], c)
  }

  /** Removal works piece by piece, so what is kept stays in order. */
  lemma {:induction false} WithoutConcat(a: string, b: string, c: char)
    ensures Without(a + b, c) == Without(a, c) + Without(b, c)
  {
    if a == [] {
      assert a + b == b;
    } else {
      assert (a + b)[0] == a[0] && (a + b)[1..] == a[1..] + b;
      WithoutConcat(a[1..], b, c);
    }
  }

  lemma {:induction false} LowerIdempotent(s: string)
    ensures Lower(Lower(s)) == Lower(s)
  {
    var r := Lower(s);
    assert forall i :: 0 <= i < |s| ==> Lower(r)[i] == LowerChar(LowerChar(s[i])) == r[i];
  }

  lemma {:induction false} WithoutIdempotent(s: string, c: char)
    ensures Without(Without(s, c), c) == Without(s, c)
  {
    if s != [] {
      WithoutIdempotent(s[1..], c);
      if s[0] != c {
        assert Without(s, c) == [s[0]] + Without(s[1..], c);
        assert ([s[0]] + Without(s[1..], c))[1..] == Without(s[1..], c);
      }
    }
  }

  /** Removing a character that is absent changes nothing. */
  lemma {:induction false} WithoutAbsent(s: string, c: char)
    requires c !in s
    ensures Without(s, c) == s
  {
    if s != [] {
      WithoutAbsent(s[1..], c);
    }
  }
}
