/**
 * String literals built by the sidecar: jsEscape of sidecar/hosted_window.go, read back as a
 * single-quoted literal of ECMA-262 (2023 edition, section 12.9.4), and psSingleQuoted of
 * sidecar/psquote.go, read back as PowerShell reads its single-quoted literals.
 */
module Escaping {
  import opened Options

  const LINE_SEPARATOR: char := '\U{2028}'
  const PARAGRAPH_SEPARATOR: char := '\U{2029}'

  /** What a reader took from the front of a text, and what it left. */
  datatype Reading = Reading(value: string, rest: string)

  // ---- jsEscape ----

  /** strings.ReplaceAll for a pattern of one character. */
  function ReplaceAll(s: string, c: char, with: string): string {
    if s == [] then [] else (if s[0] == c then with else [s[0]]) + ReplaceAll(s[1..], c, with)
  }

  function JsEscape(s: string): string {
    var s1 := ReplaceAll(s, '\\', "\\\\");
    var s2 := ReplaceAll(s1, '\'', "\\'");
    var s3 := ReplaceAll(s2, '\n', "\\n");
    var s4 := ReplaceAll(s3, '\r', "\\r");
    var s5 := ReplaceAll(s4, LINE_SEPARATOR, "\\u2028");
    var s6 := ReplaceAll(s5, PARAGRAPH_SEPARATOR, "\\u2029");
    ReplaceAll(s6, '<', "\\x3c")
  }

  /** The same in one pass over the characters. */
  function EscapeChar(c: char): string {
    if c == '\\' then "\\\\"
    else if c == '\'' then "\\'"
    else if c == '\n' then "\\n"
    else if c == '\r' then "\\r"
    else if c == LINE_SEPARATOR then "\\u2028"
    else if c == PARAGRAPH_SEPARATOR then "\\u2029"
    else if c == '<' then "\\x3c"
    else [c]
  }

  function EscapeEach(s: string): string {
    if s == [] then [] else EscapeChar(s[0]) + EscapeEach(s[1..])
  }

  lemma {:induction false} ReplaceConcat(a: string, b: string, c: char, with: string)
    ensures ReplaceAll(a + b, c, with) == ReplaceAll(a, c, with) + ReplaceAll(b, c, with)
  {
    if a == [] {
      assert a + b == b;
    } else {
      assert (a + b)[1..] == a[1..] + b;
      ReplaceConcat(a[1..], b, c, with);
    }
  }

  lemma {:induction false} ReplaceNothing(s: string, c: char, with: string)
    requires c !in s
    ensures ReplaceAll(s, c, with) == s
  {
    if s != [] {
      ReplaceNothing(s[1..], c, with);
    }
  }

  /** The seven replacements, in the order in which they are made. */
  function Replaced(k: nat): char
    requires k < 7
  {
    if k == 0 then '\\' else if k == 1 then '\'' else if k == 2 then '\n' else if k == 3 then '\r'
    else if k == 4 then LINE_SEPARATOR else if k == 5 then PARAGRAPH_SEPARATOR else '<'
  }

  function From(k: nat, s: string): string
    requires k <= 7
    decreases 7 - k
  {
    if k == 7 then s else From(k + 1, ReplaceAll(s, Replaced(k), EscapeChar(Replaced(k))))
  }

  lemma Step(k: nat, s: string, c: char, with: string)
    requires k < 7 && c == Replaced(k) && with == EscapeChar(c)
    ensures From(k, s) == From(k + 1, ReplaceAll(s, c, with))
  {
  }

  lemma {:induction false} ChainIsFromFirst(s: string)
    ensures JsEscape(s) == From(0, s)
  {
    var s1 := ReplaceAll(s, '\\', "\\\\");
    var s2 := ReplaceAll(s1, '\'', "\\'");
    var s3 := ReplaceAll(s2, '\n', "\\n");
    var s4 := ReplaceAll(s3, '\r', "\\r");
    var s5 := ReplaceAll(s4, LINE_SEPARATOR, "\\u2028");
    var s6 := ReplaceAll(s5, PARAGRAPH_SEPARATOR, "\\u2029");
    Step(0, s, '\\', "\\\\");
    Step(1, s1, '\'', "\\'");
    Step(2, s2, '\n', "\\n");
    Step(3, s3, '\r', "\\r");
    Step(4, s4, LINE_SEPARATOR, "\\u2028");
    Step(5, s5, PARAGRAPH_SEPARATOR, "\\u2029");
    Step(6, s6, '<', "\\x3c");
  }

  lemma {:induction false} FromConcat(k: nat, a: string, b: string)
    requires k <= 7
    ensures From(k, a + b) == From(k, a) + From(k, b)
    decreases 7 - k
  {
    if k < 7 {
      var c, with := Replaced(k), EscapeChar(Replaced(k));
      ReplaceConcat(a, b, c, with);
      FromConcat(k + 1, ReplaceAll(a, c, with), ReplaceAll(b, c, with));
    }
  }

  lemma {:induction false} FromNothing(k: nat, s: string)
    requires k <= 7 && forall j :: k <= j < 7 ==> Replaced(j) !in s
    ensures From(k, s) == s
    decreases 7 - k
  {
    if k < 7 {
      ReplaceNothing(s, Replaced(k), EscapeChar(Replaced(k)));
      FromNothing(k + 1, s);
    }
  }

  /** What a character has become is not touched by the later replacements: this is why the backslash goes first. */
  lemma LaterReplacementsLeaveIt(k: nat, j: nat)
    requires k < j < 7
    ensures Replaced(j) !in EscapeChar(Replaced(k))
  {
  }

  lemma {:induction false} FromOne(k: nat, c: char)
    requires k <= 7 && forall j :: 0 <= j < k ==> Replaced(j) != c
    ensures From(k, [c]) == EscapeChar(c)
    decreases 7 - k
  {
    if k == 7 {
      assert Replaced(0) != c && Replaced(1) != c && Replaced(2) != c && Replaced(3) != c;
      assert Replaced(4) != c && Replaced(5) != c && Replaced(6) != c;
    } else if c == Replaced(k) {
      ReplaceOne(c, c, EscapeChar(c));
      forall j | k + 1 <= j < 7 ensures Replaced(j) !in EscapeChar(c) {
        LaterReplacementsLeaveIt(k, j);
      }
      FromNothing(k + 1, EscapeChar(c));
    } else {
      ReplaceOne(c, Replaced(k), EscapeChar(Replaced(k)));
      FromOne(k + 1, c);
    }
  }

  lemma {:induction false} ReplaceOne(c: char, d: char, with: string)
    ensures ReplaceAll([c], d, with) == if c == d then with else [c]
  {
  }

  lemma {:induction false} FromEach(s: string)
    ensures From(0, s) == EscapeEach(s)
  {
    if s == [] {
      FromNothing(0, s);
    } else {
      assert s == [s[0]] + s[1..];
      FromConcat(0, [s[0]], s[1..]);
      FromOne(0, s[0]);
      FromEach(s[1..]);
    }
  }

  /** The chain of seven replacements is one pass over the characters. */
  lemma {:induction false} ChainIsOnePass(s: string)
    ensures JsEscape(s) == EscapeEach(s)
  {
    ChainIsFromFirst(s);
    FromEach(s);
  }

  // ---- Reading a JavaScript literal ----

  function HexDigit(c: char): Option<nat> {
    if '0' <= c <= '9' then Some(c as int - 48)
    else if 'a' <= c <= 'f' then Some(c as int - 87)
    else if 'A' <= c <= 'F' then Some(c as int - 55)
    else None
  }

  function Hex(s: string): Option<nat> {
    if s == [] then Some(0)
    else if Hex(s[..|s| - 1]).None? || HexDigit(s[|s| - 1]).None? then None
    else Some(16 * Hex(s[..|s| - 1]).value + HexDigit(s[|s| - 1]).value)
  }

  /** A code unit as a character; a half of a surrogate pair is none. */
  function CodeUnit(n: Option<nat>): Option<char> {
    if n.Some? && (n.value < 0xD800 || 0xE000 <= n.value < 0x10000) then Some(n.value as char) else None
  }

  function SingleEscape(c: char): char {
    if c == 'n' then '\n'
    else if c == 'r' then '\r'
    else if c == 't' then '\t'
    else if c == 'b' then '\U{0008}'
    else if c == 'v' then '\U{000B}'
    else if c == 'f' then '\U{000C}'
    else c
  }

  predicate LineTerminator(c: char) {
    c == '\n' || c == '\r' || c == LINE_SEPARATOR || c == PARAGRAPH_SEPARATOR
  }

  /** The escape sequence after a backslash: x and two digits, u and four, or one character that is no digit. */
  function ReadEscape(s: string): Option<(char, string)> {
    if s == [] || '0' <= s[0] <= '9' || LineTerminator(s[0]) then None
    else if s[0] == 'x' then
      if |s| < 3 || CodeUnit(Hex(s[1..3])).None? then None else Some((CodeUnit(Hex(s[1..3])).value, s[3..]))
    else if s[0] == 'u' then
      if |s| < 5 || CodeUnit(Hex(s[1..5])).None? then None else Some((CodeUnit(Hex(s[1..5])).value, s[5..]))
    else Some((SingleEscape(s[0]), s[1..]))
  }

  /** The rest of a literal after its opening quote, read as before ES2019: no raw line terminator at all. */
  function ReadBody(s: string): Option<Reading>
    decreases |s|
  {
    if s == [] || LineTerminator(s[0]) then None
    else if s[0] == '\'' then Some(Reading("", s[1..]))
    else if s[0] == '\\' then
      var e := ReadEscape(s[1..]);
      if e.None? || |e.value.1| >= |s| then None else Prepend(e.value.0, ReadBody(e.value.1))
    else Prepend(s[0], ReadBody(s[1..]))
  }

  function Prepend(c: char, r: Option<Reading>): Option<Reading> {
    if r.None? then None else Some(Reading([c] + r.value.value, r.value.rest))
  }

  lemma {:induction false} ReadsSeparatorBack(c: char, after: string)
    requires c == LINE_SEPARATOR || c == PARAGRAPH_SEPARATOR
    ensures ReadBody(EscapeChar(c) + after) == Prepend(c, ReadBody(after))
  {
    var s := EscapeChar(c) + after;
    var digits := if c == LINE_SEPARATOR then "2028" else "2029";
    var tail := "u" + digits + after;
    assert EscapeChar(c) == "\\u" + digits;
    assert s[1..] == tail;
    assert |digits| == 4;
    assert tail[1..5] == digits && tail[5..] == after;
    HexOf2028();
  }

  lemma {:induction false} ReadsAngleBack(after: string)
    ensures ReadBody(EscapeChar('<') + after) == Prepend('<', ReadBody(after))
  {
    var s := EscapeChar('<') + after;
    var digits := "3c";
    var tail := "x" + digits + after;
    assert EscapeChar('<') == "\\x" + digits;
    assert s[1..] == tail;
    assert |digits| == 2;
    assert tail[1..3] == digits && tail[3..] == after;
    HexOf3c();
  }

  /** A backslash before a quote, a backslash, n or r. */
  lemma {:induction false} ReadsPairBack(e: char, after: string)
    requires e == '\\' || e == '\'' || e == 'n' || e == 'r'
    ensures ReadBody(['\\', e] + after) == Prepend(SingleEscape(e), ReadBody(after))
  {
    var s := ['\\', e] + after;
    assert s[1..][1..] == after;
    assert ReadEscape(s[1..]) == Some((SingleEscape(e), after));
  }

  lemma {:induction false} ReadsPlainBack(c: char, after: string)
    requires !LineTerminator(c) && c != '\'' && c != '\\'
    ensures ReadBody([c] + after) == Prepend(c, ReadBody(after))
  {
    assert ([c] + after)[1..] == after;
  }

  /** One escaped character is read back as that character. */
  lemma {:induction false} ReadsOneBack(c: char, after: string)
    ensures ReadBody(EscapeChar(c) + after) == Prepend(c, ReadBody(after))
  {
    if c == LINE_SEPARATOR || c == PARAGRAPH_SEPARATOR {
      ReadsSeparatorBack(c, after);
    } else if c == '<' {
      ReadsAngleBack(after);
    } else if c == '\n' {
      ReadsPairBack('n', after);
    } else if c == '\r' {
      ReadsPairBack('r', after);
    } else if c == '\\' || c == '\'' {
      ReadsPairBack(c, after);
    } else {
      ReadsPlainBack(c, after);
    }
  }

  lemma HexOf2028()
    ensures Hex("2028") == Some(0x2028) && Hex("2029") == Some(0x2029)
  {
    assert "2028"[..3] == "202" && "2029"[..3] == "202" && "202"[..2] == "20" && "20"[..1] == "2" && "2"[..0] == "";
    assert Hex("2") == Some(2);
    assert Hex("20") == Some(0x20);
    assert Hex("202") == Some(0x202);
  }

  lemma HexOf3c()
    ensures Hex("3c") == Some(0x3c)
  {
    assert "3c"[..1] == "3" && "3"[..0] == "";
    assert Hex("3") == Some(3);
  }

  lemma {:induction false} ReadsEachBack(s: string, after: string)
    ensures ReadBody(EscapeEach(s) + ['\''] + after) == Some(Reading(s, after))
  {
    if s == [] {
      assert EscapeEach(s) + ['\''] + after == ['\''] + after;
    } else {
      var tail := EscapeEach(s[1..]) + ['\''] + after;
      assert EscapeEach(s) + ['\''] + after == EscapeChar(s[0]) + tail;
      ReadsOneBack(s[0], tail);
      ReadsEachBack(s[1..], after);
      assert [s[0]] + s[1..] == s;
    }
  }

  /** Between single quotes the escaped text reads back as the text itself, and the literal ends exactly there. */
  lemma {:induction false} JsLiteralReadsBack(s: string, after: string)
    ensures ReadBody(JsEscape(s) + ['\''] + after) == Some(Reading(s, after))
  {
    ChainIsOnePass(s);
    ReadsEachBack(s, after);
  }

  /** The escaped text holds no line terminator and no less-than sign, so it can close neither a line nor a script element. */
  lemma {:induction false} JsEscapeIsInert(s: string)
    ensures forall c :: c in JsEscape(s) ==> !LineTerminator(c) && c != '<'
  {
    ChainIsOnePass(s);
    if s != [] {
      ChainIsOnePass(s[1..]);
      JsEscapeIsInert(s[1..]);
    }
  }

  // ---- psSingleQuoted ----

  /** The apostrophe and the typographic single quotes U+2018 to U+201B all open and close a literal. */
  predicate IsPsQuote(c: char) {
    c == '\'' || 0x2018 <= c as int <= 0x201B
  }

  function PsDouble(s: string): string {
    if s == [] then [] else (if IsPsQuote(s[0]) then [s[0], s[0]] else [s[0]]) + PsDouble(s[1..])
  }

  function PsSingleQuoted(s: string): string {
    "'" + PsDouble(s) + "'"
  }

  /** A quote followed by another stands for the second; any other quote ends the literal. */
  function ReadPsBody(s: string): Option<Reading>
    decreases |s|
  {
    if s == [] then None
    else if IsPsQuote(s[0]) then
      if |s| >= 2 && IsPsQuote(s[1]) then Prepend(s[1], ReadPsBody(s[2..])) else Some(Reading("", s[1..]))
    else Prepend(s[0], ReadPsBody(s[1..]))
  }

  function ReadPsLiteral(s: string): Option<Reading> {
    if s == [] || !IsPsQuote(s[0]) then None else ReadPsBody(s[1..])
  }

  lemma {:induction false} PsReadsOneBack(c: char, tail: string)
    ensures ReadPsBody((if IsPsQuote(c) then [c, c] else [c]) + tail) == Prepend(c, ReadPsBody(tail))
  {
    if IsPsQuote(c) {
      assert ([c, c] + tail)[2..] == tail;
    } else {
      assert ([c] + tail)[1..] == tail;
    }
  }

  function PrependAll(s: string, r: Option<Reading>): Option<Reading> {
    if r.None? then None else Some(Reading(s + r.value.value, r.value.rest))
  }

  lemma PrependShifts(c: char, s: string, r: Option<Reading>)
    ensures Prepend(c, PrependAll(s, r)) == PrependAll([c] + s, r)
  {
    if r.Some? {
      assert [c] + (s + r.value.value) == ([c] + s) + r.value.value;
    }
  }

  lemma PrependNothing(r: Option<Reading>)
    ensures PrependAll("", r) == r
  {
    if r.Some? {
      assert "" + r.value.value == r.value.value;
    }
  }

  lemma {:induction false} PsBodyReadsBack(s: string, after: string)
    ensures ReadPsBody(PsDouble(s) + ("'" + after)) == PrependAll(s, ReadPsBody("'" + after))
  {
    if s == [] {
      assert PsDouble(s) + ("'" + after) == "'" + after;
      PrependNothing(ReadPsBody("'" + after));
    } else {
      var tail := PsDouble(s[1..]) + ("'" + after);
      assert PsDouble(s) + ("'" + after) == (if IsPsQuote(s[0]) then [s[0], s[0]] else [s[0]]) + tail;
      PsReadsOneBack(s[0], tail);
      PsBodyReadsBack(s[1..], after);
      PrependShifts(s[0], s[1..], ReadPsBody("'" + after));
      assert [s[0]] + s[1..] == s;
    }
  }

  /** The literal reads back as the text, and ends exactly there, if and only if no quote character follows it. */
  lemma PsLiteralReadsBack(s: string, after: string)
    ensures ReadPsLiteral(PsSingleQuoted(s) + after) == Some(Reading(s, after)) <==>
            after == "" || !IsPsQuote(after[0])
  {
    var whole := PsSingleQuoted(s) + after;
    assert whole[1..] == PsDouble(s) + ("'" + after);
    PsBodyReadsBack(s, after);
    if after == "" || !IsPsQuote(after[0]) {
      assert ("'" + after)[1..] == after;
      assert s + "" == s;
    } else {
      var r := ReadPsBody(("'" + after)[2..]);
      if r.Some? {
        assert |s + ([after[0]] + r.value.value)| > |s|;
      }
    }
  }
}
