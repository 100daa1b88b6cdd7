/**
  * JSON texts as concrete syntax trees, following RFC 8259 (section 2 for the
  * structure and the white space, section 4 for objects, section 5 for arrays,
  * section 6 for numbers and section 7 for strings), with the three extra
  * constants that Python's decoder also accepts: what json.loads reads for
  * code_auditor/utils.py.
  */
module JsonGrammar {
  import opened Wrappers

  predicate IsBlank(c: char) {
    c == ' ' || c == '\t' || c == '\n' || c == '\r'
  }

  predicate IsDigit(c: char) {
    '0' <= c <= '9'
  }

  predicate IsHex(c: char) {
    IsDigit(c) || 'a' <= c <= 'f' || 'A' <= c <= 'F'
  }

  type Blanks = s: string | forall c :: c in s ==> IsBlank(c)
  type Digits = s: string | s != [] && forall c :: c in s ==> IsDigit(c) witness "0"
  type Whole = s: Digits | |s| > 1 ==> s[0] != '0' witness "0"
  type Hex = c: char | IsHex(c) witness '0'
  type PlainChar = c: char | c != '"' && c != '\\' && ' ' <= c witness 'a'
  type EscapeChar = c: char | c in {'"', '\\', '/', 'b', 'f', 'n', 'r', 't'} witness 'n'
  type Word = s: string | s in {"null", "true", "false", "NaN", "Infinity", "-Infinity"} witness "null"
  type Sign = s: string | s in {"", "+", "-"} witness ""

  datatype TextChar =
    | Plain(c: PlainChar)
    | Escape(e: EscapeChar)
    | Unicode(h0: Hex, h1: Hex, h2: Hex, h3: Hex)

  datatype Exponent = Exponent(upper: bool, sign: Sign, digits: Digits)

  datatype Json =
    | Constant(word: Word)
    | Number(negative: bool, whole: Whole, fraction: Option<Digits>, exponent: Option<Exponent>)
    | Text(chars: seq<TextChar>)
    | EmptyArray(gap: Blanks)
    | Array(elements: Elements)
    | EmptyObject(gap: Blanks)
    | Object(members: Members)
  {
    predicate IsObject() {
      EmptyObject? || Object?
    }
  }

  datatype Elements =
    | LastElement(before: Blanks, value: Json, after: Blanks)
    | Element(before: Blanks, value: Json, after: Blanks, rest: Elements)

  datatype Members =
    | LastMember(before: Blanks, name: seq<TextChar>, gap: Blanks, lead: Blanks, value: Json, after: Blanks)
    | Member(before: Blanks, name: seq<TextChar>, gap: Blanks, lead: Blanks, value: Json, after: Blanks,
             rest: Members)

  function RenderChar(t: TextChar): string {
    match t
    case Plain(c) => [c]
    case Escape(e) => ['\\', e]
    case Unicode(h0, h1, h2, h3) => ['\\', 'u', h0, h1, h2, h3]
  }

  function RenderChars(ts: seq<TextChar>): string {
    if ts == [] then "" else RenderChar(ts[0]) + RenderChars(ts[1..])
  }

  function RenderText(ts: seq<TextChar>): string {
    "\"" + RenderChars(ts) + "\""
  }

  function RenderNumber(negative: bool, whole: Whole, fraction: Option<Digits>, exponent: Option<Exponent>): string {
    (if negative then "-" else "") + whole
    + (match fraction case None => "" case Some(ds) => "." + ds)
    + (match exponent case None => "" case Some(e) => (if e.upper then "E" else "e") + e.sign + e.digits)
  }

  function Render(j: Json): string {
    match j
    case Constant(word) => word
    case Number(negative, whole, fraction, exponent) => RenderNumber(negative, whole, fraction, exponent)
    case Text(chars) => RenderText(chars)
    case EmptyArray(gap) => "[" + gap + "]"
    case Array(elements) => "[" + RenderElements(elements) + "]"
    case EmptyObject(gap) => "{" + gap + "}"
    case Object(members) => "{" + RenderMembers(members) + "}"
  }

  function RenderElements(es: Elements): string {
    match es
    case LastElement(before, value, after) => before + Render(value) + after
    case Element(before, value, after, rest) => before + Render(value) + after + "," + RenderElements(rest)
  }

  function RenderMembers(ms: Members): string {
    match ms
    case LastMember(before, name, gap, lead, value, after) =>
      before + RenderText(name) + gap + ":" + lead + Render(value) + after
    case Member(before, name, gap, lead, value, after, rest) =>
      before + RenderText(name) + gap + ":" + lead + Render(value) + after + "," + RenderMembers(rest)
  }

  /** A JSON text: one value with white space around it. */
  ghost predicate IsTextOf(t: string, before: Blanks, j: Json, after: Blanks) {
    t == before + Render(j) + after
  }

  ghost predicate IsObjectText(t: string) {
    exists before: Blanks, j: Json, after: Blanks :: j.IsObject() && IsTextOf(t, before, j, after)
  }

  ghost predicate IsOtherText(t: string) {
    exists before: Blanks, j: Json, after: Blanks :: !j.IsObject() && IsTextOf(t, before, j, after)
  }
}
