/**
  * Vulnerability ids such as C-07 (code_auditor/stages/stage4.py): how they are written and read back.
  */
module FindingIds {
  import opened Wrappers
  import Fences

  datatype Severity = Critical | High | Medium | Low

  function Prefix(s: Severity): char {
    match s
    case Critical => 'C'
    case High => 'H'
    case Medium => 'M'
    case Low => 'L'
  }

  predicate IsDigit(c: char) {
    '0' <= c <= '9'
  }

  function DigitValue(c: char): nat
    requires IsDigit(c)
  {
    c as int - '0' as int
  }

  function Digit(d: nat): (c: char)
    requires d < 10
    ensures IsDigit(c) && DigitValue(c) == d
  {
    ('0' as int + d) as char
  }

  predicate AreDigits(s: string) {
    forall i :: 0 <= i < |s| ==> IsDigit(s[i])
  }

  // ----- writing ------------------------------------------------------------------------------

  function Decimal(n: nat): (s: string)
    ensures s != "" && AreDigits(s)
  {
    if n < 10 then [Digit(n)] else Decimal(n / 10) + [Digit(n % 10)]
  }

  /** "%02d" */
  function TwoDigits(n: nat): (s: string)
    ensures |s| >= 2 && AreDigits(s)
  {
    if n < 10 then ['0', Digit(n)] else DecimalIsLong(n); Decimal(n)
  }

  lemma {:induction false} DecimalIsLong(n: nat)
    requires n >= 10
    ensures |Decimal(n)| >= 2
  {
  }

  function Id(s: Severity, n: nat): string {
    [Prefix(s), '-'] + TwoDigits(n)
  }

  // ----- reading ------------------------------------------------------------------------------

  /** The value of a numeral; underscores between digits are ignored. */
  function Value(s: string): nat {
    if s == "" then 0
    else if IsDigit(s[|s| - 1]) then 10 * Value(s[..|s| - 1]) + DigitValue(s[|s| - 1])
    else Value(s[..|s| - 1])
  }

  predicate IsNumeral(s: string) {
    && s != "" && IsDigit(s[0]) && IsDigit(s[|s| - 1])
    && forall i :: 0 <= i < |s| ==> IsDigit(s[i]) || (s[i] == '_' && i > 0 && IsDigit(s[i - 1]))
  }

  /** int() of a text. */
  function ParseInt(text: string): Option<int> {
    var t := Fences.Strip(text);
    if t == "" then None
    else if t[0] == '-' then (if IsNumeral(t[1..]) then Some(-(Value(t[1..]) as int)) else None)
    else if t[0] == '+' then (if IsNumeral(t[1..]) then Some(Value(t[1..])) else None)
    else if IsNumeral(t) then Some(Value(t)) else None
  }

  function SeverityOf(prefix: string): Option<Severity> {
    if prefix == "C" then Some(Critical) else if prefix == "H" then Some(High)
    else if prefix == "M" then Some(Medium) else if prefix == "L" then Some(Low) else None
  }

  function DashAt(id: string): (k: nat)
    ensures k <= |id| && (k < |id| ==> id[k] == '-') && '-' !in id[..k]
  {
    if id == "" || id[0] == '-' then 0 else 1 + DashAt(id[1..])
  }

  /** The severity and number that an id stands for, if it has both. */
  function NumberOf(id: string): Option<(Severity, int)> {
    var k := DashAt(id);
    if k == |id| then None else
      var severity, number := SeverityOf(id[..k]), ParseInt(id[k + 1..]);
      if severity.Some? && number.Some? then Some((severity.value, number.value)) else None
  }

  lemma {:induction false} DecimalValue(n: nat)
    ensures Value(Decimal(n)) == n
  {
    if n < 10 {
      assert Decimal(n)[..0] == "";
    } else {
      DecimalValue(n / 10);
      assert Decimal(n)[..|Decimal(n)| - 1] == Decimal(n / 10);
    }
  }

  lemma {:induction false} TwoDigitsValue(n: nat)
    ensures Value(TwoDigits(n)) == n
  {
    DecimalValue(n);
    if n < 10 {
      var s := TwoDigits(n);
      assert s[..1] == ['0'] && s[..1][..0] == "";
      assert Value(s[..1]) == 0;
    }
  }

  lemma {:induction false} DigitsParse(ds: string)
    requires ds != "" && AreDigits(ds)
    ensures ParseInt(ds) == Some(Value(ds))
  {
    assert IsDigit(ds[0]) && IsDigit(ds[|ds| - 1]);
    assert Fences.Strip(ds) == ds;
  }

  /** A final file name: a severity letter, a dash, and at least two digits. */
  predicate IsFinalStem(stem: string) {
    |stem| >= 4 && SeverityOf(stem[..1]).Some? && stem[1] == '-' && AreDigits(stem[2..])
  }

  lemma {:induction false} PrefixOf(s: Severity)
    ensures SeverityOf([Prefix(s)]) == Some(s)
  {
  }

  /** A stem of this form is read back as its letter and its digits. */
  lemma {:induction false} StemNumber(stem: string)
    requires IsFinalStem(stem)
    ensures NumberOf(stem) == Some((SeverityOf(stem[..1]).value, Value(stem[2..])))
  {
    assert stem[0] != '-' && stem[1..][0] == '-';
    assert DashAt(stem[1..]) == 0 && DashAt(stem) == 1;
    DigitsParse(stem[2..]);
  }

  /** Reading an id gives what it was written from, so ids are never shared. */
  lemma {:induction false} IdRoundTrip(s: Severity, n: nat)
    ensures IsFinalStem(Id(s, n)) && NumberOf(Id(s, n)) == Some((s, n as int))
  {
    var id := Id(s, n);
    assert id[..1] == [Prefix(s)] && id[2..] == TwoDigits(n);
    PrefixOf(s);
    TwoDigitsValue(n);
    StemNumber(id);
  }
}
