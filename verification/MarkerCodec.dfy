/**
  * Marker names for checkpointed tasks (code_auditor/checkpoint.py): UTF-8 (section 3 of RFC 3629),
  * percent-encoding (section 2.1 of RFC 3986), the reversible name scheme on top of them, and the
  * older lossy scheme. Strings are sequences of Unicode scalar values.
  */
module MarkerCodec {
  import opened Wrappers

  type Byte = b: int | 0 <= b < 256

  // ----- UTF-8 --------------------------------------------------------------

  const REPLACEMENT: char := '\U{FFFD}'

  function EncodeChar(c: char): seq<Byte> {
    var n := c as int;
    if n < 0x80 then [n]
    else if n < 0x800 then [0xC0 + n / 64, 0x80 + n % 64]
    else if n < 0x10000 then [0xE0 + n / 64 / 64, 0x80 + n / 64 % 64, 0x80 + n % 64]
    else [0xF0 + n / 64 / 64 / 64, 0x80 + n / 64 / 64 % 64, 0x80 + n / 64 % 64, 0x80 + n % 64]
  }

  function EncodeUtf8(s: string): seq<Byte> {
    if s == [] then [] else EncodeChar(s[0]) + EncodeUtf8(s[1..])
  }

  predicate IsTail(bs: seq<Byte>, i: nat) {
    i < |bs| && 0x80 <= bs[i] <= 0xBF
  }

  predicate Within(bs: seq<Byte>, i: nat, low: int, high: int) {
    i < |bs| && low <= bs[i] <= high
  }

  /** The six bits that a continuation byte carries. */
  function Bits(b: Byte): int {
    b - 0x80
  }

  /** One character, and how many bytes it takes; a broken sequence gives one replacement character. */
  function DecodeChar(bs: seq<Byte>): (r: (char, nat))
    requires bs != []
    ensures 1 <= r.1 <= |bs|
  {
    var b: int := bs[0];
    if b < 0x80 then (b as char, 1)
    else if b < 0xC2 || b > 0xF4 then (REPLACEMENT, 1)
    else if b < 0xE0 then
      if IsTail(bs, 1) then (((b - 0xC0) * 64 + Bits(bs[1])) as char, 2) else (REPLACEMENT, 1)
    else if b < 0xF0 then
      if !Within(bs, 1, if b == 0xE0 then 0xA0 else 0x80, if b == 0xED then 0x9F else 0xBF) then (REPLACEMENT, 1)
      else if !IsTail(bs, 2) then (REPLACEMENT, 2)
      else (((b - 0xE0) * 4096 + Bits(bs[1]) * 64 + Bits(bs[2])) as char, 3)
    else
      if !Within(bs, 1, if b == 0xF0 then 0x90 else 0x80, if b == 0xF4 then 0x8F else 0xBF) then (REPLACEMENT, 1)
      else if !IsTail(bs, 2) then (REPLACEMENT, 2)
      else if !IsTail(bs, 3) then (REPLACEMENT, 3)
      else (((b - 0xF0) * 262144 + Bits(bs[1]) * 4096 + Bits(bs[2]) * 64 + Bits(bs[3])) as char, 4)
  }

  function DecodeUtf8(bs: seq<Byte>): string
    decreases |bs|
  {
    if bs == [] then [] else
      var (c, n) := DecodeChar(bs);
      [c] + DecodeUtf8(bs[n..])
  }

  lemma {:induction false} DecodeEncodedChar(c: char, rest: seq<Byte>)
    ensures DecodeChar(EncodeChar(c) + rest) == (c, |EncodeChar(c)|)
  {
    var n := c as int;
    var a, b := n / 64, n / 64 / 64;
    var bs := EncodeChar(c) + rest;
    if 0x80 <= n < 0x800 {
      assert bs[0] == 0xC0 + a && bs[1] == 0x80 + n % 64;
    } else if 0x800 <= n < 0x10000 {
      assert bs[0] == 0xE0 + b && bs[1] == 0x80 + a % 64 && bs[2] == 0x80 + n % 64;
    } else if 0x10000 <= n {
      assert bs[0] == 0xF0 + b / 64 && bs[1] == 0x80 + b % 64 && bs[2] == 0x80 + a % 64 && bs[3] == 0x80 + n % 64;
    }
  }

  lemma {:induction false} Utf8RoundTrip(s: string)
    ensures DecodeUtf8(EncodeUtf8(s)) == s
  {
    if s != [] {
      var head, rest := EncodeChar(s[0]), EncodeUtf8(s[1..]);
      DecodeEncodedChar(s[0], rest);
      assert (head + rest)[|head|..] == rest;
      Utf8RoundTrip(s[1..]);
    }
  }

  // ----- percent-encoding -----------------------------------------------------

  predicate IsDigit(c: char) {
    '0' <= c <= '9'
  }

  predicate IsLetterOrDigit(c: char) {
    'A' <= c <= 'Z' || 'a' <= c <= 'z' || IsDigit(c)
  }

  /** The characters that quote leaves alone: its own safe set and the source's three. */
  predicate IsUnreserved(c: char) {
    IsLetterOrDigit(c) || c == '-' || c == '.' || c == '_' || c == '~'
  }

  function HexDigit(n: int): char
    requires 0 <= n < 16
  {
    if n < 10 then ('0' as int + n) as char else ('A' as int + n - 10) as char
  }

  function HexValue(c: char): Option<int>
    ensures HexValue(c).Some? ==> 0 <= HexValue(c).value < 16
  {
    if IsDigit(c) then Some(c as int - '0' as int)
    else if 'A' <= c <= 'F' then Some(c as int - 'A' as int + 10)
    else if 'a' <= c <= 'f' then Some(c as int - 'a' as int + 10)
    else None
  }

  function QuoteByte(b: Byte): string {
    if b < 0x80 && IsUnreserved(b as char) then [b as char] else ['%', HexDigit(b / 16), HexDigit(b % 16)]
  }

  function QuoteBytes(bs: seq<Byte>): string {
    if bs == [] then [] else QuoteByte(bs[0]) + QuoteBytes(bs[1..])
  }

  function Quote(s: string): string {
    QuoteBytes(EncodeUtf8(s))
  }

  predicate IsAscii(c: char) {
    c < '\U{80}'
  }

  type Ascii = s: string | forall c :: c in s ==> IsAscii(c)

  /** The bytes of an ASCII run: a percent sign with two hexadecimal digits is one byte. */
  function UnquoteBytes(s: Ascii): seq<Byte>
    decreases |s|
  {
    if s == [] then []
    else if s[0] == '%' && |s| >= 3 && HexValue(s[1]).Some? && HexValue(s[2]).Some? then
      [HexValue(s[1]).value * 16 + HexValue(s[2]).value] + UnquoteBytes(s[3..])
    else [s[0] as int] + UnquoteBytes(s[1..])
  }

  function AsciiPrefix(s: string): (n: nat)
    ensures n <= |s|
    ensures forall i :: 0 <= i < n ==> IsAscii(s[i])
    ensures n < |s| ==> !IsAscii(s[n])
  {
    if s == [] || !IsAscii(s[0]) then 0 else 1 + AsciiPrefix(s[1..])
  }

  /** urllib's unquote: ASCII runs are unquoted and decoded, every other character stays. */
  function Unquote(s: string): string
    decreases |s|
  {
    if '%' !in s then s else
      var n := AsciiPrefix(s);
      DecodeUtf8(UnquoteBytes(s[..n])) + (if n < |s| then [s[n]] + Unquote(s[n + 1..]) else [])
  }

  predicate IsNameChar(c: char) {
    IsUnreserved(c) || c == '%'
  }

  lemma {:induction false} QuotedIsAscii(bs: seq<Byte>)
    ensures forall c :: c in QuoteBytes(bs) ==> IsNameChar(c)
  {
    if bs != [] {
      QuotedIsAscii(bs[1..]);
    }
  }

  lemma {:induction false} UnquoteQuoted(bs: seq<Byte>)
    ensures forall c :: c in QuoteBytes(bs) ==> IsAscii(c)
    ensures UnquoteBytes(QuoteBytes(bs)) == bs
  {
    QuotedIsAscii(bs);
    if bs != [] {
      var head, rest := QuoteByte(bs[0]), QuoteBytes(bs[1..]);
      UnquoteQuoted(bs[1..]);
      assert (head + rest)[|head|..] == rest;
    }
  }

  lemma {:induction false} AsciiBytes(s: Ascii)
    requires '%' !in s
    ensures DecodeUtf8(UnquoteBytes(s)) == s
    decreases |s|
  {
    if s != [] {
      AsciiBytes(s[1..]);
    }
  }

  /** Percent-encoding is undone by unquote, on every string of Unicode scalar values. */
  lemma {:induction false} QuoteRoundTrip(s: string)
    ensures Unquote(Quote(s)) == s
  {
    var q := Quote(s);
    UnquoteQuoted(EncodeUtf8(s));
    Utf8RoundTrip(s);
    var n := AsciiPrefix(q);
    assert n == |q|;
    assert q[..n] == q;
    if '%' !in q {
      AsciiBytes(q);
    }
  }

  // ----- marker names -----------------------------------------------------------

  const MAX_MARKER_NAME := 200

  /** stage[0-9]{1,2} */
  predicate IsStage(s: string) {
    |s| in {6, 7} && s[..5] == "stage" && IsDigit(s[5]) && (|s| == 7 ==> IsDigit(s[6]))
  }

  /** str.find of one character, with the length for "absent". */
  function IndexOf(s: string, c: char): (i: nat)
    ensures i <= |s| && forall j :: 0 <= j < i ==> s[j] != c
    ensures i < |s| ==> s[i] == c
  {
    if s == [] || s[0] == c then 0 else 1 + IndexOf(s[1..], c)
  }

  /** str.find of the separator "--", with the length for "absent". */
  function SeparatorAt(s: string): (i: nat)
    ensures i <= |s|
    ensures i < |s| ==> i + 1 < |s| && s[i] == '-' && s[i + 1] == '-'
    ensures forall j :: 0 <= j < i && j + 1 < |s| ==> !(s[j] == '-' && s[j + 1] == '-')
  {
    if |s| < 2 then |s| else if s[0] == '-' && s[1] == '-' then 0 else
      1 + SeparatorAt(s[1..])
  }

  /** stage[0-9]{1,2}(?::[\s\S]*)? : a stage, alone or before the first colon. */
  predicate IsTaskKey(key: string) {
    IsStage(key[..IndexOf(key, ':')])
  }

  function EncodeTaskKey(key: string): Option<string> {
    if !IsTaskKey(key) then None else
      var colon := IndexOf(key, ':');
      if colon == |key| then Some(key) else
        var name := key[..colon] + "--" + Quote(key[colon + 1..]);
        if |name| > MAX_MARKER_NAME then None else Some(name)
  }

  function DecodeMarkerName(name: string): Option<string> {
    var i := SeparatorAt(name);
    if i == |name| then if IsStage(name) then Some(name) else None
    else if !IsStage(name[..i]) then None
    else Some(name[..i] + ":" + Unquote(name[i + 2..]))
  }

  predicate IsSafeChar(c: char) {
    IsLetterOrDigit(c) || c == '.' || c == '_' || c == '-'
  }

  predicate IsSafeComponent(s: string) {
    s != [] && forall c :: c in s ==> IsSafeChar(c)
  }

  function Count(s: string, c: char): nat {
    if s == [] then 0 else (if s[0] == c then 1 else 0) + Count(s[1..], c)
  }

  function Replace(s: string, from: char, to: char): (r: string)
    ensures |r| == |s| && forall i :: 0 <= i < |s| ==> r[i] == if s[i] == from then to else s[i]
  {
    if s == [] then [] else [if s[0] == from then to else s[0]] + Replace(s[1..], from, to)
  }

  function LegacyMarkerName(key: string): Option<string> {
    if Count(key, ':') != 1 then None else
      var name := Replace(key, ':', '-');
      if SeparatorAt(name) < |name| || !IsSafeComponent(name) then None else Some(name)
  }

  lemma {:induction false} StageHasNoDash(s: string)
    requires IsStage(s)
    ensures forall i :: 0 <= i < |s| ==> s[i] != '-' && s[i] != ':' && s[i] != '/' && s[i] != '\0'
    ensures s != "." && s != ".." && s != ""
  {
    assert s[..5] == "stage";
    assert s[0] == 's' && s[1] == 't' && s[2] == 'a' && s[3] == 'g' && s[4] == 'e' by {
      assert s[..5][0] == 's' && s[..5][1] == 't' && s[..5][2] == 'a' && s[..5][3] == 'g' && s[..5][4] == 'e';
    }
  }

  /** The first separator of an encoded name is the one after the stage, whatever the suffix starts with. */
  lemma {:induction false} SeparatorAfterStage(stage: string, rest: string)
    requires IsStage(stage)
    ensures SeparatorAt(stage + "--" + rest) == |stage|
  {
    StageHasNoDash(stage);
    var name := stage + "--" + rest;
    assert name[|stage|] == '-' && name[|stage| + 1] == '-';
    assert forall i :: 0 <= i < |stage| ==> name[i] == stage[i];
  }

  lemma {:induction false} StageHasNoSeparator(s: string)
    requires IsStage(s)
    ensures SeparatorAt(s) == |s|
  {
    StageHasNoDash(s);
  }

  /** Decoding undoes encoding for every trackable task key. */
  lemma {:induction false} MarkerRoundTrip(key: string)
    requires EncodeTaskKey(key).Some?
    ensures DecodeMarkerName(EncodeTaskKey(key).value) == Some(key)
  {
    var colon := IndexOf(key, ':');
    if colon == |key| {
      assert key[..colon] == key;
      StageHasNoSeparator(key);
    } else {
      var stage, suffix := key[..colon], key[colon + 1..];
      SuffixedRoundTrip(stage, suffix);
      assert key == stage + ":" + suffix;
    }
  }

  lemma {:induction false} SuffixedRoundTrip(stage: string, suffix: string)
    requires IsStage(stage)
    ensures DecodeMarkerName(stage + "--" + Quote(suffix)) == Some(stage + ":" + suffix)
  {
    var name := stage + "--" + Quote(suffix);
    SeparatorAfterStage(stage, Quote(suffix));
    assert name[..|stage|] == stage && name[|stage| + 2..] == Quote(suffix);
    QuoteRoundTrip(suffix);
  }

  lemma {:induction false} EncodingIsInjective(k1: string, k2: string)
    requires EncodeTaskKey(k1).Some? && EncodeTaskKey(k1) == EncodeTaskKey(k2)
    ensures k1 == k2
  {
    MarkerRoundTrip(k1);
    MarkerRoundTrip(k2);
  }

  /** One file name: it cannot walk out of the marker directory and fits every file system. */
  predicate IsPathComponent(name: string) {
    name !in {"", ".", ".."} && '/' !in name && '\0' !in name && |name| <= MAX_MARKER_NAME
  }

  lemma {:induction false} MarkerIsPathComponent(key: string)
    requires EncodeTaskKey(key).Some?
    ensures IsPathComponent(EncodeTaskKey(key).value)
  {
    var colon := IndexOf(key, ':');
    var stage := key[..colon];
    StageHasNoDash(stage);
    if colon == |key| {
      assert key[..colon] == key;
    } else {
      QuotedIsAscii(EncodeUtf8(key[colon + 1..]));
    }
  }

  // ----- the two schemes side by side --------------------------------------------

  lemma {:induction false} CountConcat(a: string, b: string, c: char)
    ensures Count(a + b, c) == Count(a, c) + Count(b, c)
  {
    if a == [] {
      assert a + b == b;
    } else {
      assert (a + b)[1..] == a[1..] + b;
      CountConcat(a[1..], b, c);
    }
  }

  lemma {:induction false} CountAbsent(s: string, c: char)
    ensures Count(s, c) == 0 <==> c !in s
  {
    if s != [] {
      CountAbsent(s[1..], c);
    }
  }

  lemma {:induction false} OneColon(stage: string, suffix: string)
    requires Count(stage + ":" + suffix, ':') == 1
    ensures ':' !in suffix
  {
    assert stage + ":" + suffix == stage + (":" + suffix);
    CountConcat(stage, ":" + suffix, ':');
    assert (":" + suffix)[1..] == suffix;
    CountAbsent(suffix, ':');
  }

  /** A legacy name of a stage key is the stage, one dash, and the suffix. */
  lemma {:induction false} LegacyShape(key: string) returns (stage: string, suffix: string)
    requires IsTaskKey(key) && LegacyMarkerName(key).Some?
    ensures IsStage(stage) && key == stage + ":" + suffix
    ensures LegacyMarkerName(key).value == stage + "-" + suffix
  {
    var colon := IndexOf(key, ':');
    CountAbsent(key, ':');
    assert colon < |key|;
    stage, suffix := key[..colon], key[colon + 1..];
    assert key == stage + ":" + suffix;
    OneColon(stage, suffix);
    var name := Replace(key, ':', '-');
    forall i | 0 <= i < |name|
      ensures name[i] == (stage + "-" + suffix)[i]
    {
      if i > colon {
        assert key[i] == suffix[i - colon - 1];
      } else if i < colon {
        assert key[i] == stage[i];
      }
    }
  }

  lemma {:induction false} DashAfterStage(stage: string, rest: string)
    requires IsStage(stage)
    ensures IndexOf(stage + "-" + rest, '-') == |stage|
  {
    StageHasNoDash(stage);
    var name := stage + "-" + rest;
    assert name[|stage|] == '-';
    assert forall i :: 0 <= i < |stage| ==> name[i] == stage[i];
  }

  lemma {:induction false} LegacyIsInjective(k1: string, k2: string)
    requires IsTaskKey(k1) && IsTaskKey(k2)
    requires LegacyMarkerName(k1).Some? && LegacyMarkerName(k1) == LegacyMarkerName(k2)
    ensures k1 == k2
  {
    var s1, x1 := LegacyShape(k1);
    var s2, x2 := LegacyShape(k2);
    DashAfterStage(s1, x1);
    DashAfterStage(s2, x2);
    var n := LegacyMarkerName(k1).value;
    assert s1 == n[..|s1|] && s2 == n[..|s2|];
    assert x1 == n[|s1| + 1..] && x2 == n[|s2| + 1..];
  }

  /** A legacy name of a stage key is not a name of the reversible scheme. */
  lemma {:induction false} LegacyDoesNotDecode(key: string)
    requires IsTaskKey(key) && LegacyMarkerName(key).Some?
    ensures DecodeMarkerName(LegacyMarkerName(key).value) == None
  {
    var stage, suffix := LegacyShape(key);
    var legacy := LegacyMarkerName(key).value;
    assert legacy[|stage|] == '-';
    if IsStage(legacy) {
      StageHasNoDash(legacy);
    }
  }

  /** So the two schemes never share a name, for the same key or for two keys. */
  lemma {:induction false} SchemesAreDisjoint(k1: string, k2: string)
    requires IsTaskKey(k1) && LegacyMarkerName(k1).Some? && EncodeTaskKey(k2).Some?
    ensures LegacyMarkerName(k1).value != EncodeTaskKey(k2).value
  {
    LegacyDoesNotDecode(k1);
    MarkerRoundTrip(k2);
  }

  // ----- which names there are ----------------------------------------------------------------

  /** How long one character is when it is quoted: letters, digits and four signs stay as they are. */
  function QuotedCharLength(c: char): nat {
    if 'A' <= c <= 'Z' || 'a' <= c <= 'z' || '0' <= c <= '9' || c in "-._~" then 1
    else if c < '\U{80}' then 3 else if c < '\U{800}' then 6 else if c < '\U{10000}' then 9 else 12
  }

  function QuotedLength(s: string): nat {
    if s == [] then 0 else QuotedCharLength(s[0]) + QuotedLength(s[1..])
  }

  lemma {:induction false} QuotedTogether(a: seq<Byte>, b: seq<Byte>)
    ensures QuoteBytes(a + b) == QuoteBytes(a) + QuoteBytes(b)
  {
    if a == [] {
      assert a + b == b;
    } else {
      QuotedTogether(a[1..], b);
      assert (a + b)[1..] == a[1..] + b;
    }
  }

  lemma {:induction false} HighBytesQuoted(bs: seq<Byte>)
    requires forall i :: 0 <= i < |bs| ==> bs[i] >= 0x80
    ensures |QuoteBytes(bs)| == 3 * |bs|
  {
    if bs != [] {
      HighBytesQuoted(bs[1..]);
    }
  }

  lemma {:induction false} CharQuoted(c: char)
    ensures |QuoteBytes(EncodeChar(c))| == QuotedCharLength(c)
    ensures QuotedCharLength(c) == 1 ==> QuoteBytes(EncodeChar(c)) == [c]
  {
    var n := c as int;
    if n < 0x80 {
      assert EncodeChar(c)[1..] == [];
      assert c in "-._~" <==> c == '-' || c == '.' || c == '_' || c == '~';
    } else {
      HighBytesQuoted(EncodeChar(c));
    }
  }

  lemma {:induction false} QuotedIsLong(s: string)
    ensures |Quote(s)| == QuotedLength(s)
  {
    if s != [] {
      QuotedTogether(EncodeChar(s[0]), EncodeUtf8(s[1..]));
      CharQuoted(s[0]);
      QuotedIsLong(s[1..]);
    }
  }

  lemma {:induction false} PlainStays(s: string)
    requires forall i :: 0 <= i < |s| ==> QuotedCharLength(s[i]) == 1
    ensures Quote(s) == s
  {
    if s != [] {
      QuotedTogether(EncodeChar(s[0]), EncodeUtf8(s[1..]));
      CharQuoted(s[0]);
      PlainStays(s[1..]);
    }
  }

  lemma {:induction false} FirstColon(stage: string, suffix: string)
    requires IsStage(stage)
    ensures var key := stage + ":" + suffix;
            IndexOf(key, ':') == |stage| && key[..|stage|] == stage && key[|stage| + 1..] == suffix
  {
    StageHasNoDash(stage);
    var key := stage + ":" + suffix;
    assert key[|stage|] == ':';
    assert forall i :: 0 <= i < |stage| ==> key[i] == stage[i];
  }

  /** The name of a key is its stage, a separator and the quoted suffix, if that fits. */
  lemma {:induction false} EncodedExactly(stage: string, suffix: string)
    requires IsStage(stage)
    ensures EncodeTaskKey(stage + ":" + suffix) ==
            if |stage| + 2 + QuotedLength(suffix) <= 200 then Some(stage + "--" + Quote(suffix)) else None
  {
    FirstColon(stage, suffix);
    QuotedIsLong(suffix);
  }

  /** A suffix that the older scheme could write. */
  predicate IsLegacySuffix(suffix: string) {
    && (forall i :: 0 <= i < |suffix| ==> QuotedCharLength(suffix[i]) == 1 && suffix[i] != '~')
    && (suffix != "" ==> suffix[0] != '-')
    && (forall i :: 0 < i < |suffix| ==> !(suffix[i - 1] == '-' && suffix[i] == '-'))
  }

  lemma {:induction false} ColonsOf(stage: string, suffix: string)
    requires IsStage(stage)
    ensures Count(stage + ":" + suffix, ':') == 1 <==> ':' !in suffix
  {
    StageHasNoDash(stage);
    CountAbsent(stage, ':');
    CountAbsent(suffix, ':');
    CountConcat(stage, ":" + suffix, ':');
    assert stage + ":" + suffix == stage + (":" + suffix) && (":" + suffix)[1..] == suffix;
  }

  lemma {:induction false} DashesOf(stage: string, suffix: string)
    requires IsStage(stage)
    ensures SeparatorAt(stage + "-" + suffix) < |stage + "-" + suffix| <==>
            (suffix != "" && suffix[0] == '-') ||
            exists i :: 0 < i < |suffix| && suffix[i - 1] == '-' && suffix[i] == '-'
  {
    StageHasNoDash(stage);
    var name, n := stage + "-" + suffix, |stage|;
    assert name[n] == '-' && forall i :: 0 <= i < n ==> name[i] == stage[i];
    assert forall i :: 0 <= i < |suffix| ==> name[n + 1 + i] == suffix[i];
    var at := SeparatorAt(name);
    if at < |name| {
      assert at >= n;
      if at > n {
        assert suffix[at - n - 1] == '-' && suffix[at - n] == '-';
      }
    }
    if i :| 0 < i < |suffix| && suffix[i - 1] == '-' && suffix[i] == '-' {
      assert name[n + i] == '-' && name[n + i + 1] == '-';
    }
  }

  lemma {:induction false} SafeCharsOf(stage: string, suffix: string)
    requires IsStage(stage)
    ensures IsSafeComponent(stage + "-" + suffix) <==>
            forall i :: 0 <= i < |suffix| ==> QuotedCharLength(suffix[i]) == 1 && suffix[i] != '~'
  {
    StageChars(stage);
    var name, n := stage + "-" + suffix, |stage|;
    assert forall i :: 0 <= i < |suffix| ==> name[n + 1 + i] == suffix[i];
    assert forall c :: IsSafeChar(c) <==> QuotedCharLength(c) == 1 && c != '~';
    forall c | c in name && c !in suffix
      ensures IsSafeChar(c)
    {
      assert c in stage || c == '-';
    }
    assert forall i :: 0 <= i < |suffix| ==> suffix[i] in name;
  }

  lemma {:induction false} StageChars(stage: string)
    requires IsStage(stage)
    ensures forall c :: c in stage ==> IsSafeChar(c)
  {
    forall i | 0 <= i < |stage|
      ensures IsSafeChar(stage[i])
    {
      if i < 5 {
        assert stage[i] == stage[..5][i] == "stage"[i];
      }
    }
  }

  /** The older scheme has a name for a key exactly when nothing in it is ambiguous. */
  lemma {:induction false} LegacyExactly(stage: string, suffix: string)
    requires IsStage(stage)
    ensures LegacyMarkerName(stage + ":" + suffix) ==
            if IsLegacySuffix(suffix) then Some(stage + "-" + suffix) else None
  {
    var key := stage + ":" + suffix;
    ColonsOf(stage, suffix);
    DashesOf(stage, suffix);
    SafeCharsOf(stage, suffix);
    FirstColon(stage, suffix);
    if ':' !in suffix {
      LegacyReplaced(stage, suffix);
    } else {
      var i :| 0 <= i < |suffix| && suffix[i] == ':';
      assert QuotedCharLength(suffix[i]) != 1;
    }
  }

  lemma {:induction false} LegacyReplaced(stage: string, suffix: string)
    requires IsStage(stage) && ':' !in suffix
    ensures Replace(stage + ":" + suffix, ':', '-') == stage + "-" + suffix
  {
    StageHasNoDash(stage);
    var key := stage + ":" + suffix;
    forall i | 0 <= i < |key|
      ensures Replace(key, ':', '-')[i] == (stage + "-" + suffix)[i]
    {
      if i > |stage| {
        assert key[i] == suffix[i - |stage| - 1];
      } else if i < |stage| {
        assert key[i] == stage[i];
      }
    }
  }
}
