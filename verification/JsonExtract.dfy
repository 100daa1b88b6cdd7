/**
  * Finding the first JSON object in an agent's answer (code_auditor/utils.py).
  * The decoder itself is a parameter: it may refuse any text, but it accepts
  * only texts of the grammar.
  */
module JsonExtract {
  import opened Wrappers
  import opened JsonGrammar
  import opened Fences

  /** What json.loads does with a text: an exception, a dict, or some other value. */
  datatype Parsed = Invalid | Dict | Other

  type Decoder = string -> Parsed

  ghost predicate DecodesOnlyJson(loads: Decoder) {
    forall t :: DecodesAsJson(loads, t)
  }

  ghost predicate DecodesAsJson(loads: Decoder, t: string) {
    && (loads(t) == Dict ==> IsObjectText(t))
    && (loads(t) == Other ==> IsOtherText(t))
  }

  // ----- the brace scanner ------------------------------------------------

  datatype Scan = Scan(depth: int, inString: bool, escaped: bool)

  const START := Scan(0, false, false)

  function Step(st: Scan, c: char): Scan {
    if st.inString then
      if st.escaped then st.(escaped := false)
      else if c == '\\' then st.(escaped := true)
      else if c == '"' then st.(inString := false)
      else st
    else if c == '"' then st.(inString := true)
    else if c == '{' then st.(depth := st.depth + 1)
    else if c == '}' then st.(depth := st.depth - 1)
    else st
  }

  function Run(st: Scan, s: string): Scan {
    if s == [] then st else Step(Run(st, s[..|s| - 1]), s[|s| - 1])
  }

  /** Reading c in state st brings the depth back to zero. */
  predicate Closes(st: Scan, c: char) {
    !st.inString && c == '}' && st.depth == 1
  }

  ghost predicate NeverCloses(st: Scan, s: string) {
    forall k :: 0 <= k < |s| ==> !Closes(Run(st, s[..k]), s[k])
  }

  lemma {:induction false} RunConcat(st: Scan, a: string, b: string)
    ensures Run(st, a + b) == Run(Run(st, a), b)
    decreases |b|
  {
    if b == [] {
      assert a + b == a;
    } else {
      var b' := b[..|b| - 1];
      assert (a + b)[..|a + b| - 1] == a + b';
      RunConcat(st, a, b');
    }
  }

  lemma {:induction false} NeverClosesConcat(st: Scan, a: string, b: string)
    requires NeverCloses(st, a) && NeverCloses(Run(st, a), b)
    ensures NeverCloses(st, a + b)
  {
    forall k | 0 <= k < |a + b|
      ensures !Closes(Run(st, (a + b)[..k]), (a + b)[k])
    {
      if k < |a| {
        assert (a + b)[..k] == a[..k];
      } else {
        assert (a + b)[..k] == a + b[..k - |a|];
        RunConcat(st, a, b[..k - |a|]);
      }
    }
  }

  // ----- what the scanner does on the grammar -----------------------------

  /** At any depth of one or more the scanner passes over s and is back where it was. */
  ghost predicate PassesOver(s: string) {
    forall d: int :: d >= 1 ==> PassesOverAt(d, s)
  }

  ghost predicate PassesOverAt(d: int, s: string) {
    Run(Scan(d, false, false), s) == Scan(d, false, false) && NeverCloses(Scan(d, false, false), s)
  }

  lemma {:induction false} PassConcat(a: string, b: string)
    requires PassesOver(a) && PassesOver(b)
    ensures PassesOver(a + b)
  {
    forall d: int | d >= 1
      ensures PassesOverAt(d, a + b)
    {
      assert PassesOverAt(d, a) && PassesOverAt(d, b);
      RunConcat(Scan(d, false, false), a, b);
      NeverClosesConcat(Scan(d, false, false), a, b);
    }
  }

  predicate IsNeutral(c: char) {
    c != '"' && c != '{' && c != '}'
  }

  lemma {:induction false} PassNeutral(s: string)
    requires forall c :: c in s ==> IsNeutral(c)
    ensures PassesOver(s)
    decreases |s|
  {
    if s == [] {
      assert PassesOver(s);
    } else {
      var s', c := s[..|s| - 1], s[|s| - 1];
      PassNeutral(s');
      assert IsNeutral(c);
      forall d: int | d >= 1
        ensures PassesOverAt(d, [c])
      {
        assert [c][..0] == [];
        assert Run(Scan(d, false, false), [c]) == Step(Scan(d, false, false), c);
      }
      PassConcat(s', [c]);
      assert s == s' + [c];
    }
  }

  lemma {:induction false} InsideText(d: int, ts: seq<TextChar>)
    ensures Run(Scan(d, true, false), RenderChars(ts)) == Scan(d, true, false)
    ensures NeverCloses(Scan(d, true, false), RenderChars(ts))
    decreases |ts|
  {
    if ts != [] {
      var st := Scan(d, true, false);
      InsideChar(d, ts[0]);
      InsideText(d, ts[1..]);
      RunConcat(st, RenderChar(ts[0]), RenderChars(ts[1..]));
      NeverClosesConcat(st, RenderChar(ts[0]), RenderChars(ts[1..]));
    }
  }

  lemma {:induction false} InsideChar(d: int, t: TextChar)
    ensures Run(Scan(d, true, false), RenderChar(t)) == Scan(d, true, false)
    ensures NeverCloses(Scan(d, true, false), RenderChar(t))
  {
    var s := RenderChar(t);
    var st := Scan(d, true, false);
    match t
    case Plain(c) =>
      assert s[..0] == [];
    case Escape(e) =>
      assert s == ['\\'] + [e];
      RunTwo(st, '\\', e);
    case Unicode(h0, h1, h2, h3) =>
      assert s == ['\\', 'u'] + [h0, h1, h2, h3];
      RunTwo(st, '\\', 'u');
      RunPlain(st, [h0, h1, h2, h3]);
      RunConcat(st, ['\\', 'u'], [h0, h1, h2, h3]);
      NeverClosesConcat(st, ['\\', 'u'], [h0, h1, h2, h3]);
  }

  lemma {:induction false} RunTwo(st: Scan, a: char, b: char)
    requires st.inString && !st.escaped && a == '\\'
    ensures Run(st, [a, b]) == st && NeverCloses(st, [a, b])
  {
    assert [a, b][..1] == [a] && [a, b][..0] == [] && [a][..0] == [];
    assert Run(st, [a]) == st.(escaped := true);
  }

  lemma {:induction false} RunPlain(st: Scan, s: string)
    requires st.inString && !st.escaped && '\\' !in s && '"' !in s
    ensures Run(st, s) == st && NeverCloses(st, s)
    decreases |s|
  {
    if s != [] {
      RunPlain(st, s[..|s| - 1]);
      forall k | 0 <= k < |s|
        ensures !Closes(Run(st, s[..k]), s[k])
      {
        if k < |s| - 1 {
          assert s[..|s| - 1][..k] == s[..k];
        }
      }
    }
  }

  /** A text in three parts, scanned part by part without closing. */
  lemma {:induction false} ScanThree(st: Scan, a: string, b: string, c: string, s1: Scan, s2: Scan, s3: Scan)
    requires Run(st, a) == s1 && Run(s1, b) == s2 && Run(s2, c) == s3
    requires NeverCloses(st, a) && NeverCloses(s1, b) && NeverCloses(s2, c)
    ensures Run(st, a + b + c) == s3 && NeverCloses(st, a + b + c)
  {
    RunConcat(st, a, b);
    NeverClosesConcat(st, a, b);
    RunConcat(st, a + b, c);
    NeverClosesConcat(st, a + b, c);
  }

  lemma {:induction false} ScanOne(st: Scan, c: char)
    requires !Closes(st, c)
    ensures Run(st, [c]) == Step(st, c) && NeverCloses(st, [c])
  {
    assert [c][..0] == [];
  }

  lemma {:induction false} PassText(ts: seq<TextChar>)
    ensures PassesOver(RenderText(ts))
  {
    forall d: int | d >= 1
      ensures PassesOverAt(d, RenderText(ts))
    {
      var out, in_ := Scan(d, false, false), Scan(d, true, false);
      InsideText(d, ts);
      ScanOne(out, '"');
      ScanOne(in_, '"');
      ScanThree(out, "\"", RenderChars(ts), "\"", in_, in_, out);
    }
  }

  lemma {:induction false} PassBraces(s: string)
    requires PassesOver(s)
    ensures PassesOver("{" + s + "}")
  {
    forall d: int | d >= 1
      ensures PassesOverAt(d, "{" + s + "}")
    {
      var out, in_ := Scan(d, false, false), Scan(d + 1, false, false);
      assert PassesOverAt(d + 1, s);
      ScanOne(out, '{');
      ScanOne(in_, '}');
      ScanThree(out, "{", s, "}", in_, in_, out);
    }
  }

  predicate AllNeutral(s: string) {
    forall i :: 0 <= i < |s| ==> IsNeutral(s[i])
  }

  lemma {:induction false} NeutralTogether(a: string, b: string)
    requires AllNeutral(a) && AllNeutral(b)
    ensures AllNeutral(a + b)
  {
  }

  lemma {:induction false} DigitsAreNeutral(ds: Digits)
    ensures AllNeutral(ds)
  {
  }

  lemma {:induction false} ExponentIsNeutral(e: Exponent)
    ensures AllNeutral((if e.upper then "E" else "e") + e.sign + e.digits)
  {
    DigitsAreNeutral(e.digits);
    NeutralTogether(if e.upper then "E" else "e", e.sign);
    NeutralTogether((if e.upper then "E" else "e") + e.sign, e.digits);
  }

  lemma {:induction false} PassNumeral(
      negative: bool, whole: Whole, fraction: Option<Digits>, exponent: Option<Exponent>)
    ensures PassesOver(RenderNumber(negative, whole, fraction, exponent))
  {
    var first := (if negative then "-" else "") + whole;
    DigitsAreNeutral(whole);
    NeutralTogether(if negative then "-" else "", whole);
    var second := match fraction case None => "" case Some(ds) => "." + ds;
    if fraction.Some? {
      DigitsAreNeutral(fraction.value);
      NeutralTogether(".", fraction.value);
    }
    NeutralTogether(first, second);
    var third := match exponent case None => "" case Some(e) => (if e.upper then "E" else "e") + e.sign + e.digits;
    if exponent.Some? {
      ExponentIsNeutral(exponent.value);
    }
    NeutralTogether(first + second, third);
    PassNeutral(RenderNumber(negative, whole, fraction, exponent));
  }

  lemma {:induction false} PassNumber(j: Json)
    requires j.Number?
    ensures PassesOver(Render(j))
  {
    PassNumeral(j.negative, j.whole, j.fraction, j.exponent);
  }

  /** The scanner passes over every JSON value. */
  lemma {:induction false} PassValue(j: Json)
    ensures PassesOver(Render(j))
    decreases j
  {
    match j
    case Constant(word) => PassNeutral(word);
    case Number(_, _, _, _) => PassNumber(j);
    case Text(chars) => PassText(chars);
    case EmptyArray(gap) => PassNeutral(Render(j));
    case Array(elements) =>
      PassElements(elements);
      PassNeutral("[");
      PassNeutral("]");
      PassConcat("[", RenderElements(elements));
      PassConcat("[" + RenderElements(elements), "]");
    case EmptyObject(gap) =>
      PassNeutral(gap);
      PassBraces(gap);
    case Object(members) =>
      PassMembers(members);
      PassBraces(RenderMembers(members));
  }

  lemma {:induction false} PassElements(es: Elements)
    ensures PassesOver(RenderElements(es))
    decreases es
  {
    PassNeutral(es.before);
    PassNeutral(es.after);
    PassValue(es.value);
    PassConcat(es.before, Render(es.value));
    var head := es.before + Render(es.value) + es.after;
    PassConcat(es.before + Render(es.value), es.after);
    if es.Element? {
      PassElements(es.rest);
      PassNeutral(",");
      PassConcat(head, ",");
      PassConcat(head + ",", RenderElements(es.rest));
    }
  }

  lemma {:induction false} PassMembers(ms: Members)
    ensures PassesOver(RenderMembers(ms))
    decreases ms
  {
    PassNeutral(ms.before);
    PassNeutral(ms.gap);
    PassNeutral(":");
    PassNeutral(ms.lead);
    PassNeutral(ms.after);
    PassText(ms.name);
    PassValue(ms.value);
    var a := ms.before + RenderText(ms.name);
    PassConcat(ms.before, RenderText(ms.name));
    PassConcat(a, ms.gap);
    PassConcat(a + ms.gap, ":");
    PassConcat(a + ms.gap + ":", ms.lead);
    var b := a + ms.gap + ":" + ms.lead + Render(ms.value);
    PassConcat(a + ms.gap + ":" + ms.lead, Render(ms.value));
    PassConcat(b, ms.after);
    if ms.Member? {
      PassMembers(ms.rest);
      PassNeutral(",");
      PassConcat(b + ms.after, ",");
      PassConcat(b + ms.after + ",", RenderMembers(ms.rest));
    }
  }

  /** The body between the outer braces of an object. */
  function Body(j: Json): string
    requires j.IsObject()
    ensures Render(j) == "{" + Body(j) + "}"
  {
    if j.EmptyObject? then j.gap else RenderMembers(j.members)
  }

  /** k is the first index at which the scan that starts at i returns to depth zero. */
  ghost predicate FirstClose(s: string, i: nat, k: int) {
    && i <= k < |s|
    && Closes(Run(START, s[i..k]), s[k])
    && forall m :: i <= m < k ==> !Closes(Run(START, s[i..m]), s[m])
  }

  /** The scan of an object first returns to depth zero at its closing brace. */
  lemma {:induction false} ObjectClosesAtItsEnd(j: Json)
    requires j.IsObject()
    ensures FirstClose(Render(j), 0, |Render(j)| - 1)
  {
    var t, body := Render(j), Body(j);
    if j.EmptyObject? { PassNeutral(body); } else { PassMembers(j.members); }
    var open := Scan(1, false, false);
    assert PassesOverAt(1, body);
    assert "{"[..0] == [];
    assert Run(START, "{") == open;
    RunConcat(START, "{", body);
    NeverClosesConcat(START, "{", body);
    assert t[0..|t| - 1] == "{" + body;
    forall m | 0 <= m < |t| - 1
      ensures !Closes(Run(START, t[0..m]), t[m])
    {
      assert ("{" + body)[..m] == t[0..m];
    }
  }

  // ----- the extraction ---------------------------------------------------

  /** An object, as the decoder reads it, stretches from the brace at i to the brace before j. */
  predicate ObjectAt(loads: Decoder, s: string, i: int, j: int) {
    0 <= i < j <= |s| && s[i] == '{' && s[j - 1] == '}' && loads(s[i..j]) == Dict
  }

  lemma {:induction false} NoBlanksAround(t: string, before: Blanks, middle: string, after: Blanks)
    requires t == before + middle + after && t != [] && !IsBlank(t[0]) && !IsBlank(t[|t| - 1])
    ensures t == middle
  {
    BlankEnds(before);
    BlankEnds(after);
  }

  lemma {:induction false} BlankEnds(b: Blanks)
    ensures b != [] ==> IsBlank(b[0]) && IsBlank(b[|b| - 1])
  {
    assert b != [] ==> b[0] in b && b[|b| - 1] in b;
  }

  /** A decoded object without outer white space is exactly one rendered object. */
  lemma {:induction false} DictIsOneObject(loads: Decoder, t: string) returns (j: Json)
    requires DecodesOnlyJson(loads) && loads(t) == Dict
    requires t != [] && !IsBlank(t[0]) && !IsBlank(t[|t| - 1])
    ensures j.IsObject() && t == Render(j)
  {
    assert DecodesAsJson(loads, t);
    var before: Blanks, j': Json, after: Blanks :| j'.IsObject() && IsTextOf(t, before, j', after);
    j := j';
    NoBlanksAround(t, before, Render(j), after);
  }

  /** Only an object starts with an opening brace. */
  lemma {:induction false} FirstCharacter(j: Json)
    requires !j.IsObject()
    ensures Render(j) != [] && Render(j)[0] != '{'
  {
    if j.Number? && !j.negative {
      assert IsDigit(j.whole[0]) by {
        assert j.whole[0] in j.whole;
      }
    }
  }

  lemma {:induction false} OtherDoesNotOpen(loads: Decoder, t: string)
    requires DecodesOnlyJson(loads) && loads(t) == Other && t != []
    ensures t[0] != '{'
  {
    assert DecodesAsJson(loads, t);
    var before: Blanks, j: Json, after: Blanks :| !j.IsObject() && IsTextOf(t, before, j, after);
    FirstCharacter(j);
    FirstOfConcat(before, Render(j), after);
    BlankEnds(before);
  }

  lemma {:induction false} FirstOfConcat(a: string, b: string, c: string)
    requires b != []
    ensures (a + b + c)[0] == if a == [] then b[0] else a[0]
  {
  }

  /** Whatever the decoder reads as an object ends exactly where the scan first closes. */
  lemma {:induction false} ObjectEndsAtFirstClose(loads: Decoder, s: string, i: nat, j: nat)
    requires DecodesOnlyJson(loads) && ObjectAt(loads, s, i, j)
    ensures FirstClose(s, i, j - 1)
  {
    var t := s[i..j];
    var tree := DictIsOneObject(loads, t);
    ObjectClosesAtItsEnd(tree);
    assert s[i..j - 1] == t[0..|t| - 1];
    forall m | i <= m < j - 1
      ensures !Closes(Run(START, s[i..m]), s[m])
    {
      assert s[i..m] == t[0..m - i];
    }
  }

  // ----- searching a text -------------------------------------------------

  /** str.find of one character, from a given index. */
  method Find(s: string, c: char, from: nat) returns (i: int)
    requires from <= |s|
    ensures i == -1 ==> c !in s[from..]
    ensures i != -1 ==> from <= i < |s| && s[i] == c && c !in s[from..i]
  {
    i := from;
    while i < |s|
      invariant from <= i <= |s| && c !in s[from..i]
    {
      if s[i] == c {
        return;
      }
      i := i + 1;
    }
    return -1;
  }

  lemma {:induction false} OneMoreChar(s: string, start: nat, index: nat)
    requires start <= index < |s|
    ensures Run(START, s[start..index + 1]) == Step(Run(START, s[start..index]), s[index])
  {
    assert s[start..index + 1][..index - start] == s[start..index];
  }

  /** The scan from one opening brace: where it first returns to depth zero, or -1. */
  method FindClose(s: string, start: nat) returns (k: int)
    requires start < |s| && s[start] == '{'
    ensures k == -1 ==> forall j :: !FirstClose(s, start, j)
    ensures k != -1 ==> FirstClose(s, start, k)
  {
    var depth, inString, escaped := 0, false, false;
    var index := start;
    while index < |s|
      invariant start <= index <= |s|
      invariant Scan(depth, inString, escaped) == Run(START, s[start..index])
      invariant forall m :: start <= m < index ==> !Closes(Run(START, s[start..m]), s[m])
    {
      var c := s[index];
      ghost var before := Scan(depth, inString, escaped);
      OneMoreChar(s, start, index);
      if inString {
        if escaped {
          escaped := false;
        } else if c == '\\' {
          escaped := true;
        } else if c == '"' {
          inString := false;
        }
      } else if c == '"' {
        inString := true;
      } else if c == '{' {
        depth := depth + 1;
      } else if c == '}' {
        depth := depth - 1;
        if depth == 0 {
          return index;
        }
      }
      assert Scan(depth, inString, escaped) == Step(before, c);
      index := index + 1;
    }
    return -1;
  }

  ghost predicate NoObject(loads: Decoder, s: string) {
    forall i, j :: !ObjectAt(loads, s, i, j)
  }

  ghost predicate NoObjectBefore(loads: Decoder, s: string, from: int) {
    forall i, j :: ObjectAt(loads, s, i, j) ==> from <= i
  }

  /** s[i..j] is the only object that starts at i, and none starts earlier. */
  ghost predicate FirstObject(loads: Decoder, s: string, i: int, j: int) {
    ObjectAt(loads, s, i, j) && forall i', j' :: ObjectAt(loads, s, i', j') ==> i < i' || (i == i' && j == j')
  }

  /** The answer is the first object of a text, or there is no object in it. */
  ghost predicate IsFirstOf(loads: Decoder, s: string, r: Option<string>) {
    match r
    case None => NoObject(loads, s)
    case Some(found) => exists i, j :: FirstObject(loads, s, i, j) && found == s[i..j]
  }

  /** After white space, the text starts with a code fence. */
  predicate StartsWithFence(text: string) {
    exists k :: 0 <= k && k + 3 <= |text| && AreSpaces(text[..k]) && text[k..k + 3] == FENCE
  }

  /** A text with nothing but white space and perhaps a code fence around it. */
  ghost predicate IsAlone(text: string, t: string) {
    || (exists a, b :: IsSurrounded(text, a, t, b))
    || (exists a, fence, b, c, d :: IsInFence(text, a, fence, b, t, c, d))
  }

  predicate IsSurrounded(text: string, a: string, t: string, b: string) {
    AreSpaces(a) && AreSpaces(b) && text == a + t + b
  }

  predicate IsInFence(text: string, a: string, fence: string, b: string, t: string, c: string, d: string) {
    && AreSpaces(a) && AreSpaces(b) && AreSpaces(c) && AreSpaces(d) && (fence == FENCE || fence == JSON_FENCE)
    && text == a + (fence + (b + t + c + FENCE)) + d
  }

  /**
    * The first JSON object of a text: the result is the object that starts at the earliest
    * opening brace from which any object starts, and there is a result exactly when some
    * object starts somewhere. An object that stands alone, fenced or not, is found as it is.
    */
  method ExtractJsonObject(text: string, loads: Decoder) returns (r: Option<string>)
    requires DecodesOnlyJson(loads)
    ensures IsFirstOf(loads, Unfenced(text), r)
    ensures !StartsWithFence(text) ==> IsFirstOf(loads, text, r)
    ensures DecodesAllJson(loads) ==>
              forall tree: Json :: tree.IsObject() && IsAlone(text, Render(tree)) ==> r == Some(Render(tree))
  {
    r := ExtractUnfenced(Unfenced(text), loads);
    if !StartsWithFence(text) {
      FirstOfStripped(loads, text, r);
    }
    if DecodesAllJson(loads) {
      forall tree: Json | tree.IsObject() && IsAlone(text, Render(tree))
        ensures r == Some(Render(tree))
      {
        LoneObjectIsFound(loads, text, tree, r);
      }
    }
  }

  method ExtractUnfenced(stripped: string, loads: Decoder) returns (r: Option<string>)
    requires DecodesOnlyJson(loads)
    requires stripped != [] ==> !IsSpace(stripped[0]) && !IsSpace(stripped[|stripped| - 1])
    ensures IsFirstOf(loads, stripped, r)
  {
    if loads(stripped) == Dict {
      WholeTextIsTheObject(loads, stripped);
      return Some(stripped);
    }
    var start := Find(stripped, '{', 0);
    NextBrace(loads, stripped, 0, start);
    if start == -1 {
      return None;
    }
    while start != -1
      invariant start == -1 || (0 <= start < |stripped| && stripped[start] == '{')
      invariant if start == -1 then NoObject(loads, stripped) else NoObjectBefore(loads, stripped, start)
      decreases if start == -1 then 0 else |stripped| + 1 - start
    {
      var close := FindClose(stripped, start);
      ObjectsFrom(loads, stripped, start, close);
      if close != -1 {
        var candidate := stripped[start..close + 1];
        if loads(candidate) != Invalid {
          ClosedCandidate(loads, stripped, start, close);
          return Some(candidate);
        }
      }
      assert NoObjectBefore(loads, stripped, start + 1);
      var next := Find(stripped, '{', start + 1);
      NextBrace(loads, stripped, start + 1, next);
      start := next;
    }
    return None;
  }

  /** A decodable candidate is an object: nothing else starts with an opening brace. */
  lemma {:induction false} ClosedCandidate(loads: Decoder, s: string, start: nat, close: int)
    requires DecodesOnlyJson(loads) && FirstClose(s, start, close) && s[start] == '{'
    requires loads(s[start..close + 1]) != Invalid
    ensures ObjectAt(loads, s, start, close + 1)
  {
    if loads(s[start..close + 1]) == Other {
      OtherDoesNotOpen(loads, s[start..close + 1]);
    }
  }

  /** When no object starts before from, every object starts at the next brace or later. */
  lemma {:induction false} NextBrace(loads: Decoder, s: string, from: nat, next: int)
    requires from <= |s| && NoObjectBefore(loads, s, from)
    requires next == -1 ==> '{' !in s[from..]
    requires next != -1 ==> from <= next < |s| && '{' !in s[from..next]
    ensures if next == -1 then NoObject(loads, s) else NoObjectBefore(loads, s, next)
  {
    var end := if next == -1 then |s| else next;
    assert s[from..|s|] == s[from..];
    forall i, j | ObjectAt(loads, s, i, j)
      ensures end <= i
    {
      if i < end {
        AbsentBetween(s, '{', from, end, i);
      }
    }
  }

  lemma {:induction false} AbsentBetween(s: string, c: char, from: nat, to: nat, i: nat)
    requires from <= i < to <= |s| && c !in s[from..to]
    ensures s[i] != c
  {
    assert s[i] == s[from..to][i - from];
  }

  lemma {:induction false} DictIsNotEmpty(loads: Decoder, t: string)
    requires DecodesOnlyJson(loads) && loads(t) == Dict
    ensures t != []
  {
    assert DecodesAsJson(loads, t);
    var before: Blanks, j: Json, after: Blanks :| j.IsObject() && IsTextOf(t, before, j, after);
    ObjectEnds(j);
  }

  lemma {:induction false} ObjectEnds(j: Json)
    requires j.IsObject()
    ensures |Render(j)| >= 2 && Render(j)[0] == '{' && Render(j)[|Render(j)| - 1] == '}'
  {
    assert Render(j) == "{" + Body(j) + "}";
  }

  lemma {:induction false} WholeTextIsTheObject(loads: Decoder, s: string)
    requires DecodesOnlyJson(loads) && loads(s) == Dict
    requires s != [] ==> !IsSpace(s[0]) && !IsSpace(s[|s| - 1])
    ensures FirstObject(loads, s, 0, |s|) && s[0..|s|] == s
  {
    assert s[0..|s|] == s;
    DictIsNotEmpty(loads, s);
    var tree := DictIsOneObject(loads, s);
    ObjectEnds(tree);
    ObjectsFrom(loads, s, 0, |s| - 1) by {
      ObjectEndsAtFirstClose(loads, s, 0, |s|);
    }
  }

  /** From one opening brace, an object can only end where FindClose stops. */
  lemma {:induction false} ObjectsFrom(loads: Decoder, s: string, start: nat, close: int)
    requires DecodesOnlyJson(loads)
    requires close == -1 ==> forall j :: !FirstClose(s, start, j)
    requires close != -1 ==> FirstClose(s, start, close)
    ensures forall j :: ObjectAt(loads, s, start, j) ==> j == close + 1 && close != -1
  {
    forall j | ObjectAt(loads, s, start, j)
      ensures j == close + 1 && close != -1
    {
      ObjectEndsAtFirstClose(loads, s, start, j);
    }
  }

  /** A decoder that accepts every JSON text, as RFC 8259 asks of one. */
  ghost predicate DecodesAllJson(loads: Decoder) {
    DecodesOnlyJson(loads) && forall t :: IsObjectText(t) ==> loads(t) == Dict
  }

  lemma {:induction false} RenderingIsObject(loads: Decoder, s: string, i: nat, j: nat, tree: Json)
    requires DecodesAllJson(loads) && i < j <= |s| && tree.IsObject() && s[i..j] == Render(tree)
    ensures ObjectAt(loads, s, i, j)
  {
    assert s[i..j] == [] + Render(tree) + [];
    assert IsTextOf(s[i..j], [], tree, []);
    ObjectEnds(tree);
    assert s[i] == s[i..j][0] && s[j - 1] == s[i..j][j - i - 1];
  }

  /** For a complete decoder the objects of a text are exactly the rendered object trees in it. */
  lemma {:induction false} ObjectsAreRenderings(loads: Decoder, s: string, i: nat, j: nat)
    requires DecodesAllJson(loads) && i < j <= |s|
    ensures ObjectAt(loads, s, i, j) <==> exists tree: Json :: tree.IsObject() && s[i..j] == Render(tree)
  {
    if ObjectAt(loads, s, i, j) {
      var tree := DictIsOneObject(loads, s[i..j]);
    }
    if exists tree: Json :: tree.IsObject() && s[i..j] == Render(tree) {
      var tree: Json :| tree.IsObject() && s[i..j] == Render(tree);
      RenderingIsObject(loads, s, i, j, tree);
    }
  }

  // ----- white space and fences hide no object ----------------------------------------------

  lemma {:induction false} PieceObjects(loads: Decoder, a: string, t: string, b: string, i: int, j: int)
    requires 0 <= i < j <= |t|
    ensures ObjectAt(loads, a + t + b, |a| + i, |a| + j) <==> ObjectAt(loads, t, i, j)
  {
    assert (a + t + b)[|a| + i..|a| + j] == t[i..j];
  }

  lemma {:induction false} SpacesAround(a: string, t: string, b: string, k: nat)
    requires AreSpaces(a) && AreSpaces(b) && k < |a + t + b|
    ensures k < |a| || k >= |a| + |t| ==> IsSpace((a + t + b)[k])
  {
    assert k >= |a| + |t| ==> (a + t + b)[k] == b[k - |a| - |t|];
  }

  lemma {:induction false} ObjectsLieInPiece(loads: Decoder, a: string, t: string, b: string, i: int, j: int)
    requires AreSpaces(a) && AreSpaces(b) && ObjectAt(loads, a + t + b, i, j)
    ensures |a| <= i < j <= |a| + |t|
  {
    SpacesAround(a, t, b, i);
    SpacesAround(a, t, b, j - 1);
  }

  /** The first object of a piece is the first of the whole, when all objects of the whole lie in the piece. */
  lemma {:induction false} FirstInPiece(loads: Decoder, s: string, t: string, n: nat, i: int, j: int)
    requires FirstObject(loads, t, i, j) && ObjectAt(loads, s, n + i, n + j)
    requires forall i', j' :: ObjectAt(loads, s, i', j') ==> ObjectAt(loads, t, i' - n, j' - n)
    ensures FirstObject(loads, s, n + i, n + j)
  {
    forall i', j' | ObjectAt(loads, s, i', j')
      ensures n + i < i' || (n + i == i' && n + j == j')
    {
      assert ObjectAt(loads, t, i' - n, j' - n);
    }
  }

  lemma {:induction false} FirstOfPiece(loads: Decoder, a: string, t: string, b: string, r: Option<string>)
    requires AreSpaces(a) && AreSpaces(b) && IsFirstOf(loads, t, r)
    ensures IsFirstOf(loads, a + t + b, r)
  {
    var s := a + t + b;
    forall i, j | ObjectAt(loads, s, i, j)
      ensures ObjectAt(loads, t, i - |a|, j - |a|)
    {
      ObjectsLieInPiece(loads, a, t, b, i, j);
      PieceObjects(loads, a, t, b, i - |a|, j - |a|);
    }
    if r.Some? {
      var i, j :| FirstObject(loads, t, i, j) && r.value == t[i..j];
      PieceObjects(loads, a, t, b, i, j);
      FirstInPiece(loads, s, t, |a|, i, j);
      assert s[|a| + i..|a| + j] == t[i..j];
    }
  }

  lemma {:induction false} FenceAfterSpaces(a: string, t: string, b: string)
    requires AreSpaces(a)
    ensures FENCE <= t ==> StartsWithFence(a + t + b)
  {
    var text := a + t + b;
    if FENCE <= t {
      assert text[..|a|] == a && text[|a|..|a| + 3] == t[..3];
    }
  }

  /** Without a fence the answer is the first object of the text as it came. */
  lemma {:induction false} FirstOfStripped(loads: Decoder, text: string, r: Option<string>)
    requires !StartsWithFence(text) && IsFirstOf(loads, Unfenced(text), r)
    ensures IsFirstOf(loads, text, r)
  {
    var a, b := StripIsPiece(text);
    var t := Strip(text);
    FenceAfterSpaces(a, t, b);
    PlainIsStripped(a, t, b);
    FirstOfPiece(loads, a, t, b, r);
  }

  lemma {:induction false} AloneIsUnfenced(text: string, t: string)
    requires IsAlone(text, t) && t != [] && t[0] == '{' && t[|t| - 1] == '}'
    ensures Unfenced(text) == t
  {
    if a, b :| IsSurrounded(text, a, t, b) {
      PlainIsStripped(a, t, b);
    } else {
      var a, fence, b, c, d :| IsInFence(text, a, fence, b, t, c, d);
      var rest := b + t + c + FENCE;
      assert rest[0] == if b != [] then b[0] else t[0];
      assert !("json" <= rest);
      FencedIsInner(a, fence, b, t, c, d);
    }
  }

  lemma {:induction false} LoneObjectIsFound(loads: Decoder, text: string, tree: Json, r: Option<string>)
    requires DecodesAllJson(loads) && tree.IsObject() && IsAlone(text, Render(tree))
    requires IsFirstOf(loads, Unfenced(text), r)
    ensures r == Some(Render(tree))
  {
    var t := Render(tree);
    ObjectEnds(tree);
    AloneIsUnfenced(text, t);
    assert t[0..|t|] == t;
    RenderingIsObject(loads, t, 0, |t|, tree);
    WholeTextIsTheObject(loads, t);
    var i, j :| FirstObject(loads, t, i, j) && r.value == t[i..j];
  }
}
