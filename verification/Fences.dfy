/**
  * Taking white space and one surrounding code fence off a text, as str.strip, str.removeprefix and
  * str.removesuffix do (code_auditor/utils.py:19-23).
  */
module Fences {
  /** The characters that str.strip removes. */
  predicate IsSpace(c: char) {
    || '\t' <= c <= '\r' || '\U{1C}' <= c <= ' ' || c == '\U{85}' || c == '\U{A0}' || c == '\U{1680}'
    || '\U{2000}' <= c <= '\U{200A}' || c == '\U{2028}' || c == '\U{2029}' || c == '\U{202F}'
    || c == '\U{205F}' || c == '\U{3000}'
  }

  function Strip(s: string): (r: string)
    ensures r != [] ==> !IsSpace(r[0]) && !IsSpace(r[|r| - 1])
    decreases |s|
  {
    if s == [] then []
    else if IsSpace(s[0]) then Strip(s[1..])
    else if IsSpace(s[|s| - 1]) then Strip(s[..|s| - 1])
    else s
  }

  function RemoveSuffix(s: string, suffix: string): string {
    if |suffix| <= |s| && s[|s| - |suffix|..] == suffix then s[..|s| - |suffix|] else s
  }

  /** The text that is searched: stripped, and without one surrounding code fence. */
  function Unfenced(text: string): (r: string)
    ensures r != [] ==> !IsSpace(r[0]) && !IsSpace(r[|r| - 1])
  {
    var stripped := Strip(text);
    if "```json" <= stripped then Strip(RemoveSuffix(stripped[7..], "```"))
    else if "```" <= stripped then Strip(RemoveSuffix(stripped[3..], "```"))
    else stripped
  }

  // ----- what that means --------------------------------------------------

  predicate AreSpaces(s: string) {
    forall i :: 0 <= i < |s| ==> IsSpace(s[i])
  }

  predicate IsTrimmed(s: string) {
    s != [] ==> !IsSpace(s[0]) && !IsSpace(s[|s| - 1])
  }

  /** White space around a text goes, and nothing else. */
  lemma {:induction false} StripPieces(a: string, t: string, b: string)
    requires AreSpaces(a) && AreSpaces(b) && IsTrimmed(t)
    ensures Strip(a + t + b) == t
    decreases |a| + |b|
  {
    var s := a + t + b;
    if a != [] {
      StripPieces(a[1..], t, b);
      assert s[1..] == a[1..] + t + b;
    } else if b != [] {
      var most := b[..|b| - 1];
      StripPieces(a, t, most);
      if t == [] {
        StripPieces(a, t, b[1..]);
        assert s[1..] == a + t + b[1..];
      } else {
        assert s[..|s| - 1] == a + t + most;
      }
    } else {
      assert s == t;
    }
  }

  lemma {:induction false} Regrouped(x: string, a: string, t: string, b: string, y: string)
    ensures x + (a + t + b) == (x + a) + t + b
    ensures (a + t + b) + y == a + t + (b + y)
  {
  }

  lemma {:induction false} StripIsPiece(s: string) returns (a: string, b: string)
    ensures AreSpaces(a) && AreSpaces(b) && s == a + Strip(s) + b
    decreases |s|
  {
    if s != [] && IsSpace(s[0]) {
      var a', b' := StripIsPiece(s[1..]);
      a, b := [s[0]] + a', b';
      Regrouped([s[0]], a', Strip(s[1..]), b', []);
      assert s == [s[0]] + s[1..];
    } else if s != [] && IsSpace(s[|s| - 1]) {
      var a', b' := StripIsPiece(s[..|s| - 1]);
      a, b := a', b' + [s[|s| - 1]];
      Regrouped([], a', Strip(s[..|s| - 1]), b', [s[|s| - 1]]);
      assert s == s[..|s| - 1] + [s[|s| - 1]];
    } else {
      a, b := [], [];
    }
  }

  const FENCE := "```"
  const JSON_FENCE := "```json"

  /** A text that does not start with a fence is only stripped. */
  lemma {:induction false} PlainIsStripped(a: string, t: string, b: string)
    requires AreSpaces(a) && AreSpaces(b) && IsTrimmed(t) && !(FENCE <= t)
    ensures Unfenced(a + t + b) == t
  {
    StripPieces(a, t, b);
    assert JSON_FENCE[..3] == FENCE;
  }

  /** An opening fence: a bare one is not followed by the name of the other. */
  predicate Opens(fence: string, rest: string) {
    fence == JSON_FENCE || (fence == FENCE && !("json" <= rest))
  }

  lemma {:induction false} FenceIsCut(fence: string, rest: string)
    requires Opens(fence, rest)
    ensures JSON_FENCE <= fence + rest <==> fence == JSON_FENCE
    ensures FENCE <= fence + rest && (fence + rest)[|fence|..] == rest
  {
    assert JSON_FENCE == FENCE + "json";
    assert |rest| >= 4 ==> (FENCE + rest)[3..7] == rest[..4];
  }

  lemma {:induction false} FencedCore(fence: string, rest: string)
    requires Opens(fence, rest) && IsTrimmed(fence + rest)
    ensures Unfenced(fence + rest) == Strip(RemoveSuffix(rest, FENCE))
  {
    StripPieces([], fence + rest, []);
    assert [] + (fence + rest) + [] == fence + rest;
    FenceIsCut(fence, rest);
  }

  lemma {:induction false} AroundIsStripped(a: string, t: string, b: string)
    requires AreSpaces(a) && AreSpaces(b) && IsTrimmed(t)
    ensures Unfenced(a + t + b) == Unfenced(t)
  {
    StripPieces(a, t, b);
    StripPieces([], t, []);
    assert [] + t + [] == t;
  }

  /** Inside a fence the white space around the text goes, too. */
  lemma {:induction false} FencedIsInner(a: string, fence: string, b: string, t: string, c: string, d: string)
    requires AreSpaces(a) && AreSpaces(b) && AreSpaces(c) && AreSpaces(d) && IsTrimmed(t)
    requires Opens(fence, b + t + c + FENCE)
    ensures Unfenced(a + (fence + (b + t + c + FENCE)) + d) == t
  {
    var inner := b + t + c;
    AroundIsStripped(a, fence + (inner + FENCE), d);
    FencedCore(fence, inner + FENCE);
    assert (inner + FENCE)[|inner|..] == FENCE && (inner + FENCE)[..|inner|] == inner;
    StripPieces(b, t, c);
  }

  /** The closing fence may be missing. */
  lemma {:induction false} UnclosedIsInner(a: string, fence: string, b: string, t: string, d: string)
    requires AreSpaces(a) && AreSpaces(b) && AreSpaces(d) && IsTrimmed(t) && t != []
    requires Opens(fence, b + t) && (|t| >= 3 ==> t[|t| - 3..] != FENCE)
    ensures Unfenced(a + (fence + (b + t)) + d) == t
  {
    AroundIsStripped(a, fence + (b + t), d);
    FencedCore(fence, b + t);
    NoFenceAtEnd(b, t);
    StripPieces(b, t, []);
    assert b + t + [] == b + t;
  }

  lemma {:induction false} NoFenceAtEnd(b: string, t: string)
    requires AreSpaces(b) && t != [] && (|t| >= 3 ==> t[|t| - 3..] != FENCE)
    ensures RemoveSuffix(b + t, FENCE) == b + t
  {
    var s := b + t;
    if |s| >= 3 {
      if |t| >= 3 {
        assert s[|s| - 3..] == t[|t| - 3..];
      } else {
        assert IsSpace(s[|s| - 3..][2 - |t|]);
        assert FENCE[2 - |t|] == '`';
      }
    }
  }
}
