/**
 * The D-Bus notification parser of sidecar/observer_notifications.go, from raw lines of
 * dbus-monitor output to notifications.
 */
module NotifyParser {
  import opened Options
  import opened Strings

  // ---- What the prefix tests and regular expressions find in a line ----

  /** A byte argument is None when its number does not fit a signed 64-bit integer. */
  datatype Line = NotifyCall | OtherHeader | StringArg(text: string) | ByteArg(level: Option<nat>) | Other

  const INT64_LIMIT: nat := 0x8000_0000_0000_0000

  /** The regular expressions' \s */
  predicate RegexSpace(c: char) {
    c in {'\t', '\n', '\U{000C}', '\r', ' '}
  }

  function SkipSpaces(s: string): (r: string)
    ensures |r| <= |s|
  {
    if s != [] && RegexSpace(s[0]) then SkipSpaces(s[1..]) else s
  }

  predicate Contains(s: string, part: string) {
    part <= s || (s != [] && Contains(s[1..], part))
  }

  function UpToNewline(s: string): string {
    if s == [] || s[0] == '\n' then [] else [s[0]] + UpToNewline(s[1..])
  }

  /** What precedes the last quote. */
  function BeforeLastQuote(s: string): Option<string> {
    if s == [] then None
    else if s[|s| - 1] == '"' then Some(s[..|s| - 1])
    else BeforeLastQuote(s[..|s| - 1])
  }

  /** ^string\s+"(.*)" */
  function QuotedArg(line: string): Option<string> {
    if !("string" <= line) then None
    else
      var after := SkipSpaces(line[6..]);
      if |after| == |line[6..]| || after == [] || after[0] != '"' then None
      else BeforeLastQuote(UpToNewline(after[1..]))
  }

  function Digits(s: string): string {
    if s != [] && '0' <= s[0] <= '9' then [s[0]] + Digits(s[1..]) else []
  }

  function Value(digits: string): nat {
    if digits == [] || !('0' <= digits[|digits| - 1] <= '9') then 0
    else 10 * Value(digits[..|digits| - 1]) + (digits[|digits| - 1] as int - 48)
  }

  /** The digits of the leftmost match of byte\s+(\d+), if any. */
  function ByteDigits(s: string): Option<string> {
    if s == [] then None
    else if "byte" <= s && |SkipSpaces(s[4..])| < |s[4..]| && Digits(SkipSpaces(s[4..])) != [] then
      Some(Digits(SkipSpaces(s[4..])))
    else ByteDigits(s[1..])
  }

  function Classify(raw: string): Line {
    var line := Trim(raw);
    if "method call" <= line && Contains(line, "member=Notify") then NotifyCall
    else if "method call" <= line || "signal" <= line || "method return" <= line then OtherHeader
    else if QuotedArg(line).Some? then StringArg(QuotedArg(line).value)
    else if ByteDigits(line).Some? then
      var n := Value(ByteDigits(line).value);
      ByteArg(if n < INT64_LIMIT then Some(n) else None)
    else Other
  }

  function Lines(raws: seq<string>): seq<Line> {
    if raws == [] then [] else [Classify(raws[0])] + Lines(raws[1..])
  }

  datatype Notification = Notification(app: string, title: string, body: string, urgency: string)

  const EMPTY := Notification("", "", "", "")

  predicate EndsBlock(l: Line) {
    l.NotifyCall? || l.OtherHeader?
  }

  function Urgency(level: nat): string {
    if level == 2 then "critical" else if level == 1 then "normal" else "low"
  }

  // ---- The batch parse ----

  /** The lines up to the next header. */
  function Block(lines: seq<Line>): seq<Line> {
    if lines == [] || EndsBlock(lines[0]) then [] else [lines[0]] + Block(lines[1..])
  }

  function Texts(block: seq<Line>): seq<string> {
    if block == [] then []
    else if block[0].StringArg? then [block[0].text] + Texts(block[1..]) else Texts(block[1..])
  }

  function Levels(block: seq<Line>): seq<nat> {
    if block == [] then []
    else if block[0].ByteArg? && block[0].level.Some? then [block[0].level.value] + Levels(block[1..])
    else Levels(block[1..])
  }

  function Nth(strings: seq<string>, n: nat): string {
    if n < |strings| then strings[n] else ""
  }

  /** String arguments 0, 2 and 3, and the last byte hint. */
  function Summary(block: seq<Line>): Notification {
    var s, levels := Texts(block), Levels(block);
    Notification(Nth(s, 0), Nth(s, 2), Nth(s, 3), if levels == [] then "" else Urgency(levels[|levels| - 1]))
  }

  /** One notification per Notify header, in order. */
  function Batch(lines: seq<Line>): seq<Notification> {
    if lines == [] then []
    else if lines[0].NotifyCall? then [Summary(Block(lines[1..]))] + Batch(lines[1..])
    else Batch(lines[1..])
  }

  // ---- The state machine ----

  datatype Fed = Fed(notification: Notification, ok: bool)

  function WithString(cur: Notification, index: nat, text: string): Notification {
    if index == 0 then cur.(app := text)
    else if index == 2 then cur.(title := text)
    else if index == 3 then cur.(body := text)
    else cur
  }

  class Parser {
    var inCall: bool
    var stringIndex: nat
    var cur: Notification

    constructor ()
      ensures !inCall && stringIndex == 0 && cur == EMPTY
    {
      inCall, stringIndex, cur := false, 0, EMPTY;
    }

    /** What is still to come out of this state when these lines follow. */
    ghost function Pending(lines: seq<Line>): seq<Notification>
      reads this
    {
      (if inCall then [Completed(cur, stringIndex, Block(lines))] else []) + Batch(lines)
    }

    /** One line: what the parser hands out now, and what is still to come, add up to what was to come before. */
    method Feed(raw: string, ghost rest: seq<Line>) returns (r: Fed)
      modifies this
      ensures r.ok <==> EndsBlock(Classify(raw)) && old(inCall)
      ensures old(Pending([Classify(raw)] + rest)) == (if r.ok then [r.notification] else []) + Pending(rest)
    {
      var line := Classify(raw);
      assert ([line] + rest)[1..] == rest;
      if line.NotifyCall? {
        r := Fed(cur, inCall);
        inCall, stringIndex, cur := true, 0, EMPTY;
        CompletedIsSummary(Block(rest));
        return;
      }
      if inCall && line.OtherHeader? {
        r := Fed(cur, true);
        inCall, stringIndex, cur := false, 0, EMPTY;
        return;
      }
      r := Fed(EMPTY, false);
      if !inCall {
        return;
      }
      assert !EndsBlock(line) ==> Block([line] + rest) == [line] + Block(rest);
      assert ([line] + Block(rest))[1..] == Block(rest);
      match line
      case StringArg(text) =>
        match stringIndex {
          case 0 => cur := cur.(app := text);
          case 2 => cur := cur.(title := text);
          case 3 => cur := cur.(body := text);
          case _ =>
        }
        stringIndex := stringIndex + 1;
      case ByteArg(level) =>
        if level.Some? {
          match level.value {
            case 2 => cur := cur.(urgency := "critical");
            case 1 => cur := cur.(urgency := "normal");
            case _ => cur := cur.(urgency := "low");
          }
        }
      case _ =>
    }

    method Flush() returns (r: Fed)
      modifies this
      ensures old(Pending([])) == if r.ok then [r.notification] else []
      ensures !inCall
    {
      if inCall {
        inCall := false;
        return Fed(cur, true);
      }
      r := Fed(EMPTY, false);
    }
  }

  /** The notification in progress once the rest of its block has been read. */
  function Completed(cur: Notification, index: nat, block: seq<Line>): Notification
    decreases |block|
  {
    if block == [] then cur
    else
      match block[0]
      case StringArg(text) => Completed(WithString(cur, index, text), index + 1, block[1..])
      case ByteArg(Some(level)) => Completed(cur.(urgency := Urgency(level)), index, block[1..])
      case _ => Completed(cur, index, block[1..])
  }

  /** Where argument n ends up when the next string argument has number index. */
  function Argument(current: string, index: nat, strings: seq<string>, n: nat): string {
    if index <= n < index + |strings| then strings[n - index] else current
  }

  lemma ArgumentShifts(current: string, index: nat, text: string, rest: seq<string>, n: nat)
    ensures Argument(if index == n then text else current, index + 1, rest, n) == Argument(current, index, [text] + rest, n)
  {
  }

  lemma {:induction false} CompletedFields(cur: Notification, index: nat, block: seq<Line>)
    ensures var s, levels, r := Texts(block), Levels(block), Completed(cur, index, block);
            && r.app == Argument(cur.app, index, s, 0)
            && r.title == Argument(cur.title, index, s, 2)
            && r.body == Argument(cur.body, index, s, 3)
            && r.urgency == if levels == [] then cur.urgency else Urgency(levels[|levels| - 1])
    decreases |block|
  {
    if block != [] {
      match block[0]
      case StringArg(text) =>
        CompletedFields(WithString(cur, index, text), index + 1, block[1..]);
        ArgumentShifts(cur.app, index, text, Texts(block[1..]), 0);
        ArgumentShifts(cur.title, index, text, Texts(block[1..]), 2);
        ArgumentShifts(cur.body, index, text, Texts(block[1..]), 3);
      case ByteArg(Some(level)) => CompletedFields(cur.(urgency := Urgency(level)), index, block[1..]);
      case _ => CompletedFields(cur, index, block[1..]);
    }
  }

  lemma {:induction false} CompletedIsSummary(block: seq<Line>)
    ensures Completed(EMPTY, 0, block) == Summary(block)
  {
    CompletedFields(EMPTY, 0, block);
  }

  /** Feeding any lines one by one and then flushing gives exactly the batch parse. */
  method ParseStream(raws: seq<string>) returns (out: seq<Notification>)
    ensures out == Batch(Lines(raws))
  {
    var p := new Parser();
    out := [];
    for i := 0 to |raws|
      invariant Batch(Lines(raws)) == out + p.Pending(Lines(raws[i..]))
    {
      ghost var rest := Lines(raws[i + 1..]);
      assert raws[i..][1..] == raws[i + 1..];
      assert Lines(raws[i..]) == [Classify(raws[i])] + rest;
      var fed := p.Feed(raws[i], rest);
      if fed.ok {
        assert out + ([fed.notification] + p.Pending(rest)) == (out + [fed.notification]) + p.Pending(rest);
        out := out + [fed.notification];
      } else {
        assert [] + p.Pending(rest) == p.Pending(rest);
      }
    }
    assert raws[|raws|..] == [];
    var last := p.Flush();
    if last.ok {
      out := out + [last.notification];
    }
  }

  function Headers(lines: seq<Line>): nat {
    if lines == [] then 0 else (if lines[0].NotifyCall? then 1 else 0) + Headers(lines[1..])
  }

  lemma {:induction false} OnePerHeader(lines: seq<Line>)
    ensures |Batch(lines)| == Headers(lines)
  {
    if lines != [] {
      OnePerHeader(lines[1..]);
    }
  }

  /** A header that is not a Notify call splits the stream: nothing before it influences what comes after. */
  lemma {:induction false} BlocksAreIndependent(before: seq<Line>, after: seq<Line>)
    ensures Batch(before + [OtherHeader] + after) == Batch(before) + Batch(after)
  {
    var all := before + [OtherHeader] + after;
    if before == [] {
      assert all[1..] == after;
    } else {
      assert all[1..] == before[1..] + [OtherHeader] + after;
      BlocksAreIndependent(before[1..], after);
      BlockStops(before[1..], after);
    }
  }

  lemma {:induction false} BlockStops(before: seq<Line>, after: seq<Line>)
    ensures Block(before + [OtherHeader] + after) == Block(before)
  {
    var all := before + [OtherHeader] + after;
    if before != [] && !EndsBlock(before[0]) {
      assert all[1..] == before[1..] + [OtherHeader] + after;
      BlockStops(before[1..], after);
    }
  }

  // ---- Quoted text ----

  lemma {:induction false} UpToNewlineWhole(s: string)
    requires '\n' !in s
    ensures UpToNewline(s) == s
  {
    if s != [] {
      UpToNewlineWhole(s[1..]);
    }
  }

  lemma {:induction false} TrimLeftSkips(indent: string, s: string)
    requires (forall i :: 0 <= i < |indent| ==> IsSpace(indent[i])) && s != "" && !IsSpace(s[0])
    ensures TrimLeft(indent + s) == s
  {
    if indent == [] {
      assert indent + s == s;
    } else {
      assert (indent + s)[1..] == indent[1..] + s;
      TrimLeftSkips(indent[1..], s);
    }
  }

  lemma QuotedArgReads(line: string, text: string)
    requires '\n' !in text && |line| == 9 + |text| && line[..6] == "string" && line[6] == ' ' && line[7] == '"'
    requires line[8..8 + |text|] == text && line[8 + |text|] == '"'
    ensures QuotedArg(line) == Some(text)
  {
    assert SkipSpaces(line[7..]) == line[7..];
    assert line[6..][1..] == line[7..] && line[7..][1..] == line[8..];
    assert line[8..] == text + ['"'];
    UpToNewlineWhole(line[8..]);
    assert line[8..][..|text|] == text;
  }

  /** A string argument reads back as its text, whatever quotes the text itself holds. */
  lemma StringArgReadsBack(indent: string, text: string)
    requires (forall i :: 0 <= i < |indent| ==> IsSpace(indent[i])) && '\n' !in text
    ensures Classify(indent + ("string \"" + text + "\"")) == StringArg(text)
  {
    var line := "string \"" + text + "\"";
    TrimLeftSkips(indent, line);
    assert TrimRight(line) == line;
    assert line[0] == 's' && line[1] == 't';
    assert "signal"[1] == 'i' && "method call"[0] == 'm' && "method return"[0] == 'm';
    QuotedArgReads(line, text);
  }
}
