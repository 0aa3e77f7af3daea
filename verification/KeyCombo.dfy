/**
 * The key-combo parser of sidecar/browser_input.go. Modifier bits: Alt 1, Ctrl 2, Meta 4, Shift 8.
 */
module KeyCombo {
  import opened Options
  import opened Strings

  datatype KeyDef = KeyDef(key: string, code: string, keyCode: int, text: string)

  datatype ParsedKey = ParsedKey(
    key: string, code: string, keyCode: int, modifiers: bv8, text: string, display: string)

  const ALT: bv8 := 1
  const CTRL: bv8 := 2
  const META: bv8 := 4
  const SHIFT: bv8 := 8

  predicate IsUpperLetter(c: char) {
    'A' <= c <= 'Z'
  }

  predicate IsLowerLetter(c: char) {
    'a' <= c <= 'z'
  }

  predicate IsDigit(c: char) {
    '0' <= c <= '9'
  }

  /** strings.ToLower, as far as it can produce ASCII: two other characters have an ASCII lower case. */
  function LowerChar(c: char): char {
    if IsUpperLetter(c) then (c as int + 32) as char
    else if c == '\U{0130}' then 'i'
    else if c == '\U{212A}' then 'k'
    else c
  }

  function Lower(s: string): string {
    seq(|s|, i requires 0 <= i < |s| => LowerChar(s[i]))
  }

  function UpperChar(c: char): char {
    if IsLowerLetter(c) then (c as int - 32) as char else c
  }

  function ModifierBit(name: string): Option<bv8> {
    if name == "alt" || name == "option" || name == "opt" then Some(ALT)
    else if name == "ctrl" || name == "control" then Some(CTRL)
    else if name == "meta" || name == "cmd" || name == "command" || name == "win" then Some(META)
    else if name == "shift" then Some(SHIFT)
    else None
  }

  function ModifierName(bit: bv8): string {
    if bit == ALT then "Alt" else if bit == CTRL then "Ctrl" else if bit == META then "Meta" else "Shift"
  }

  // ---- The key table ----

  function TypingKey(name: string): Option<KeyDef> {
    if name == "enter" then Some(KeyDef("Enter", "Enter", 13, "\r"))
    else if name == "tab" then Some(KeyDef("Tab", "Tab", 9, ""))
    else if name == "escape" || name == "esc" then Some(KeyDef("Escape", "Escape", 27, ""))
    else if name == "space" then Some(KeyDef(" ", "Space", 32, " "))
    else None
  }

  function DeletingKey(name: string): Option<KeyDef> {
    if name == "backspace" then Some(KeyDef("Backspace", "Backspace", 8, ""))
    else if name == "delete" || name == "del" then Some(KeyDef("Delete", "Delete", 46, ""))
    else None
  }

  function ArrowKey(name: string): Option<KeyDef> {
    if name == "arrowup" || name == "up" then Some(KeyDef("ArrowUp", "ArrowUp", 38, ""))
    else if name == "arrowdown" || name == "down" then Some(KeyDef("ArrowDown", "ArrowDown", 40, ""))
    else if name == "arrowleft" || name == "left" then Some(KeyDef("ArrowLeft", "ArrowLeft", 37, ""))
    else if name == "arrowright" || name == "right" then Some(KeyDef("ArrowRight", "ArrowRight", 39, ""))
    else None
  }

  function PageKey(name: string): Option<KeyDef> {
    if name == "home" then Some(KeyDef("Home", "Home", 36, ""))
    else if name == "end" then Some(KeyDef("End", "End", 35, ""))
    else if name == "pageup" then Some(KeyDef("PageUp", "PageUp", 33, ""))
    else if name == "pagedown" then Some(KeyDef("PageDown", "PageDown", 34, ""))
    else None
  }

  function PunctuationCode(c: char): Option<(string, int)> {
    match c
    case '/' => Some(("Slash", 191))
    case '.' => Some(("Period", 190))
    case ',' => Some(("Comma", 188))
    case ';' => Some(("Semicolon", 186))
    case '\'' => Some(("Quote", 222))
    case '[' => Some(("BracketLeft", 219))
    case ']' => Some(("BracketRight", 221))
    case '\\' => Some(("Backslash", 220))
    case '`' => Some(("Backquote", 192))
    case '-' => Some(("Minus", 189))
    case '=' => Some(("Equal", 187))
    case '?' => Some(("Slash", 191))
    case '@' => Some(("Digit2", 50))
    case '#' => Some(("Digit3", 51))
    case _ => None
  }

  function PunctuationKey(name: string): Option<KeyDef> {
    if |name| != 1 || PunctuationCode(name[0]).None? then None
    else
      var code := PunctuationCode(name[0]).value;
      Some(KeyDef(name, code.0, code.1, name))
  }

  function FunctionLabel(i: nat): string
    requires 1 <= i <= 12
  {
    if i < 10 then ['F', (i + 48) as char] else ['F', '1', (i + 38) as char]
  }

  /** The number in "f1" to "f12". */
  function FunctionNumber(name: string): Option<nat> {
    if |name| == 2 && name[0] == 'f' && '1' <= name[1] <= '9' then Some(name[1] as int - 48)
    else if |name| == 3 && name[0] == 'f' && name[1] == '1' && '0' <= name[2] <= '2' then Some(name[2] as int - 38)
    else None
  }

  function FunctionKey(name: string): Option<KeyDef> {
    if FunctionNumber(name).None? then None
    else
      var i := FunctionNumber(name).value;
      Some(KeyDef(FunctionLabel(i), FunctionLabel(i), 111 + i, ""))
  }

  /** namedKeys */
  function NamedKey(name: string): Option<KeyDef> {
    if TypingKey(name).Some? then TypingKey(name)
    else if DeletingKey(name).Some? then DeletingKey(name)
    else if ArrowKey(name).Some? then ArrowKey(name)
    else if PageKey(name).Some? then PageKey(name)
    else if PunctuationKey(name).Some? then PunctuationKey(name)
    else FunctionKey(name)
  }

  function CharKey(c: char): Option<KeyDef> {
    if IsLowerLetter(c) then Some(KeyDef([c], "Key" + [UpperChar(c)], UpperChar(c) as int, [c]))
    else if IsUpperLetter(c) then Some(KeyDef([LowerChar(c)], "Key" + [c], c as int, [LowerChar(c)]))
    else if IsDigit(c) then Some(KeyDef([c], "Digit" + [c], c as int, [c]))
    else None
  }

  /** The key named by the last part of a combo. */
  function Resolve(keyName: string): Option<KeyDef> {
    if NamedKey(Lower(keyName)).Some? then NamedKey(Lower(keyName))
    else if |keyName| == 1 then CharKey(keyName[0])
    else None
  }

  // ---- Parsing and printing ----

  datatype Modifiers = Modifiers(mask: bv8, names: seq<string>)

  function Added(mods: Modifiers, bit: bv8): Modifiers {
    if mods.mask & bit == 0 then Modifiers(mods.mask | bit, mods.names + [ModifierName(bit)]) else mods
  }

  /** The mask and the canonical names, each once, in order of first appearance. */
  function ModifiersOf(parts: seq<string>): Option<Modifiers> {
    if parts == [] then Some(Modifiers(0, []))
    else
      var before := ModifiersOf(parts[..|parts| - 1]);
      var bit := ModifierBit(Lower(parts[|parts| - 1]));
      if before.None? || bit.None? then None
      else Some(Added(before.value, bit.value))
  }

  function DisplayKey(def: KeyDef): string {
    if def.key == " " then "Space" else if |def.key| == 1 then [UpperChar(def.key[0])] else def.key
  }

  function Shifted(def: KeyDef, mask: bv8): bool {
    mask & SHIFT != 0 && |def.key| == 1 && IsLowerLetter(def.key[0])
  }

  function Built(mods: Modifiers, def: KeyDef): ParsedKey {
    var key := if Shifted(def, mods.mask) then [UpperChar(def.key[0])] else def.key;
    var text := if mods.mask & (ALT | CTRL | META) != 0 then "" else if Shifted(def, mods.mask) then key else def.text;
    ParsedKey(key, def.code, def.keyCode, mods.mask, text, Join(mods.names + [DisplayKey(def)], '+'))
  }

  function Parsed(combo: string): Option<ParsedKey> {
    var trimmed := Trim(combo);
    var parts := Split(trimmed, '+');
    if trimmed == "" || "" in parts then None
    else
      var mods := ModifiersOf(parts[..|parts| - 1]);
      var def := Resolve(parts[|parts| - 1]);
      if mods.None? || def.None? then None else Some(Built(mods.value, def.value))
  }

  method ParseModifiers(parts: seq<string>) returns (mods: Option<Modifiers>)
    ensures mods == ModifiersOf(parts)
  {
    var modifiers: bv8 := 0;
    var displayMods := [];
    for i := 0 to |parts|
      invariant ModifiersOf(parts[..i]) == Some(Modifiers(modifiers, displayMods))
    {
      assert parts[..i + 1][..i] == parts[..i];
      var bit := ModifierBit(Lower(parts[i]));
      if bit.None? {
        NoModifiers(parts, i + 1);
        return None;
      }
      if modifiers & bit.value == 0 {
        modifiers := modifiers | bit.value;
        displayMods := displayMods + [ModifierName(bit.value)];
      }
    }
    assert parts[..|parts|] == parts;
    mods := Some(Modifiers(modifiers, displayMods));
  }

  lemma {:induction false} NoModifiers(parts: seq<string>, i: nat)
    requires i <= |parts| && ModifiersOf(parts[..i]).None?
    ensures ModifiersOf(parts).None?
    decreases |parts| - i
  {
    if i == |parts| {
      assert parts[..i] == parts;
    } else {
      assert parts[..i + 1][..i] == parts[..i];
      NoModifiers(parts, i + 1);
    }
  }

  method ParseKeyCombo(combo: string) returns (r: Option<ParsedKey>)
    ensures r == Parsed(combo)
  {
    var trimmed := Trim(combo);
    if trimmed == "" {
      return None;
    }
    var parts := Split(trimmed, '+');
    for i := 0 to |parts|
      invariant "" !in parts[..i]
    {
      if parts[i] == "" {
        return None;
      }
    }
    assert parts[..|parts|] == parts;
    var mods := ParseModifiers(parts[..|parts| - 1]);
    if mods.None? {
      return None;
    }
    var def := Resolve(parts[|parts| - 1]);
    if def.None? {
      return None;
    }
    r := Some(Built(mods.value, def.value));
  }

  // ---- The round trip ----

  /** What is printed can be taken apart again: no part is empty, holds a plus sign, or starts or ends with a space. */
  predicate Clean(part: string) {
    part != "" && '+' !in part && !IsSpace(part[0]) && !IsSpace(part[|part| - 1])
  }

  lemma {:induction false} PrintedModifier(names: seq<string>, bit: bv8)
    requires bit in {ALT, CTRL, META, SHIFT} && ModifiersOf(names).Some?
    ensures ModifiersOf(names + [ModifierName(bit)]) == Some(Added(ModifiersOf(names).value, bit))
  {
    var longer := names + [ModifierName(bit)];
    assert longer[..|longer| - 1] == names;
    NameMeansBit(bit);
  }

  /** The printed modifiers parse back to the same mask and print the same again. */
  lemma {:induction false} ModifiersRoundTrip(parts: seq<string>)
    requires ModifiersOf(parts).Some?
    ensures ModifiersOf(ModifiersOf(parts).value.names) == ModifiersOf(parts)
  {
    if parts != [] {
      ModifiersRoundTrip(parts[..|parts| - 1]);
      PrintedModifier(ModifiersOf(parts[..|parts| - 1]).value.names, ModifierBit(Lower(parts[|parts| - 1])).value);
    }
  }

  lemma NameMeansBit(bit: bv8)
    requires bit in {ALT, CTRL, META, SHIFT}
    ensures ModifierBit(Lower(ModifierName(bit))) == Some(bit)
  {
    var d := ModifierName(bit);
    if bit == ALT {
      LowerIs(d, "alt");
    } else if bit == CTRL {
      LowerIs(d, "ctrl");
    } else if bit == META {
      LowerIs(d, "meta");
    } else {
      LowerIs(d, "shift");
    }
  }

  /** Lower, for a string known to be this one. */
  lemma LowerIs(s: string, lower: string)
    requires |s| == |lower| && forall i :: 0 <= i < |s| ==> lower[i] == LowerChar(s[i])
    ensures Lower(s) == lower
  {
  }

  lemma TypingKeyRoundTrip(name: string)
    requires TypingKey(name).Some?
    ensures var d := DisplayKey(TypingKey(name).value);
            && Clean(d) && TypingKey(Lower(d)) == TypingKey(name)
  {
    var d := DisplayKey(TypingKey(name).value);
    if d == "Enter" {
      LowerIs(d, "enter");
    } else if d == "Tab" {
      LowerIs(d, "tab");
    } else if d == "Escape" {
      LowerIs(d, "escape");
    } else {
      LowerIs(d, "space");
    }
  }

  lemma DeletingKeyRoundTrip(name: string)
    requires DeletingKey(name).Some?
    ensures var d := DisplayKey(DeletingKey(name).value);
            && Clean(d) && DeletingKey(Lower(d)) == DeletingKey(name)
            && TypingKey(Lower(d)).None?
  {
    var d := DisplayKey(DeletingKey(name).value);
    if d == "Backspace" {
      LowerIs(d, "backspace");
    } else {
      LowerIs(d, "delete");
    }
  }

  lemma ArrowKeyRoundTrip(name: string)
    requires ArrowKey(name).Some?
    ensures var d := DisplayKey(ArrowKey(name).value); ArrowKey(Lower(d)) == ArrowKey(name)
  {
    var d := DisplayKey(ArrowKey(name).value);
    if d == "ArrowUp" {
      LowerIs(d, "arrowup");
    } else if d == "ArrowDown" {
      LowerIs(d, "arrowdown");
    } else if d == "ArrowLeft" {
      LowerIs(d, "arrowleft");
    } else {
      LowerIs(d, "arrowright");
    }
  }

  lemma LettersAreClean(s: string)
    requires s != "" && forall i :: 0 <= i < |s| ==> IsLowerLetter(s[i]) || IsUpperLetter(s[i])
    ensures Clean(s)
  {
  }

  lemma ArrowKeyIsClean(name: string)
    requires ArrowKey(name).Some?
    ensures Clean(DisplayKey(ArrowKey(name).value))
  {
    var d := DisplayKey(ArrowKey(name).value);
    if d == "ArrowUp" {
      LettersAreClean(d);
    } else if d == "ArrowDown" {
      LettersAreClean(d);
    } else if d == "ArrowLeft" {
      LettersAreClean(d);
    } else {
      LettersAreClean(d);
    }
  }

  lemma ArrowKeyIsNoOther(name: string)
    requires ArrowKey(name).Some?
    ensures var d := DisplayKey(ArrowKey(name).value); TypingKey(Lower(d)).None? && DeletingKey(Lower(d)).None?
  {
    var d := DisplayKey(ArrowKey(name).value);
    if d == "ArrowUp" {
      LowerIs(d, "arrowup");
    } else if d == "ArrowDown" {
      LowerIs(d, "arrowdown");
    } else if d == "ArrowLeft" {
      LowerIs(d, "arrowleft");
    } else {
      LowerIs(d, "arrowright");
    }
  }

  lemma PageKeyRoundTrip(name: string)
    requires PageKey(name).Some?
    ensures var d := DisplayKey(PageKey(name).value); Clean(d) && PageKey(Lower(d)) == PageKey(name)
  {
    var d := DisplayKey(PageKey(name).value);
    if d == "Home" {
      LowerIs(d, "home");
    } else if d == "End" {
      LowerIs(d, "end");
    } else if d == "PageUp" {
      LowerIs(d, "pageup");
    } else {
      LowerIs(d, "pagedown");
    }
  }

  lemma PageKeyIsNoOther(name: string)
    requires PageKey(name).Some?
    ensures var d := DisplayKey(PageKey(name).value); TypingKey(Lower(d)).None? && DeletingKey(Lower(d)).None?
  {
    var d := DisplayKey(PageKey(name).value);
    if d == "Home" {
      LowerIs(d, "home");
    } else if d == "End" {
      LowerIs(d, "end");
    } else if d == "PageUp" {
      LowerIs(d, "pageup");
    } else {
      LowerIs(d, "pagedown");
    }
  }

  lemma PageKeyIsNoArrow(name: string)
    requires PageKey(name).Some?
    ensures var d := DisplayKey(PageKey(name).value); ArrowKey(Lower(d)).None?
  {
    var d := DisplayKey(PageKey(name).value);
    if d == "Home" {
      LowerIs(d, "home");
    } else if d == "End" {
      LowerIs(d, "end");
    } else if d == "PageUp" {
      LowerIs(d, "pageup");
    } else {
      LowerIs(d, "pagedown");
    }
  }

  lemma FunctionKeyRoundTrip(name: string)
    requires FunctionKey(name).Some?
    ensures Lower(DisplayKey(FunctionKey(name).value)) == name && Clean(DisplayKey(FunctionKey(name).value))
  {
    var shown := FunctionLabel(FunctionNumber(name).value);
    assert Lower(shown) == name;
  }

  /** The printed key names the same key. */
  lemma KeyRoundTrip(keyName: string)
    requires Resolve(keyName).Some?
    ensures Resolve(DisplayKey(Resolve(keyName).value)) == Resolve(keyName)
    ensures Clean(DisplayKey(Resolve(keyName).value))
  {
    var name := Lower(keyName);
    var def := Resolve(keyName).value;
    if TypingKey(name).Some? {
      TypingKeyRoundTrip(name);
    } else if DeletingKey(name).Some? {
      DeletingKeyRoundTrip(name);
    } else if ArrowKey(name).Some? {
      ArrowKeyRoundTrip(name);
      ArrowKeyIsClean(name);
      ArrowKeyIsNoOther(name);
    } else if PageKey(name).Some? {
      PageKeyRoundTrip(name);
      PageKeyIsNoOther(name);
      PageKeyIsNoArrow(name);
    } else if PunctuationKey(name).Some? {
      assert DisplayKey(def) == name;
      assert Lower(name) == name;
    } else if FunctionKey(name).Some? {
      FunctionKeyRoundTrip(name);
    } else {
      assert |name| == 1;
    }
  }

  lemma {:induction false} ModifierNamesAreClean(parts: seq<string>)
    requires ModifiersOf(parts).Some?
    ensures forall i :: 0 <= i < |ModifiersOf(parts).value.names| ==> Clean(ModifiersOf(parts).value.names[i])
  {
    if parts != [] {
      ModifierNamesAreClean(parts[..|parts| - 1]);
    }
  }

  lemma {:induction false} JoinedIsTrim(parts: seq<string>)
    requires parts != [] && forall i :: 0 <= i < |parts| ==> Clean(parts[i])
    ensures var s := Join(parts, '+'); s != "" && !IsSpace(s[0]) && !IsSpace(s[|s| - 1]) && Trim(s) == s
  {
    if |parts| > 1 {
      JoinedIsTrim(parts[1..]);
    }
  }

  lemma {:induction false} SplitParses(combo: string, names: seq<string>, displayKey: string)
    requires Trim(combo) == combo != "" && Split(combo, '+') == names + [displayKey]
    requires "" !in names && displayKey != "" && ModifiersOf(names).Some? && Resolve(displayKey).Some?
    ensures Parsed(combo) == Some(Built(ModifiersOf(names).value, Resolve(displayKey).value))
  {
    assert (names + [displayKey])[..|names|] == names;
  }

  lemma {:induction false} PrintedParses(names: seq<string>, displayKey: string)
    requires forall i :: 0 <= i < |names| ==> Clean(names[i])
    requires Clean(displayKey) && ModifiersOf(names).Some? && Resolve(displayKey).Some?
    ensures Parsed(Join(names + [displayKey], '+')) == Some(Built(ModifiersOf(names).value, Resolve(displayKey).value))
  {
    var shown := names + [displayKey];
    assert forall i :: 0 <= i < |shown| ==> Clean(shown[i]);
    JoinedIsTrim(shown);
    SplitJoin(shown, '+');
    SplitParses(Join(shown, '+'), names, displayKey);
  }

  /** Parsing what was printed gives back every field, whatever aliases, case and repetitions the combo used. */
  lemma DisplayRoundTrip(combo: string)
    requires Parsed(combo).Some?
    ensures Parsed(Parsed(combo).value.display) == Parsed(combo)
  {
    var parts := Split(Trim(combo), '+');
    var modifiers := parts[..|parts| - 1];
    var keyName := parts[|parts| - 1];
    var mods, def := ModifiersOf(modifiers).value, Resolve(keyName).value;
    ModifierNamesAreClean(modifiers);
    ModifiersRoundTrip(modifiers);
    KeyRoundTrip(keyName);
    PrintedParses(mods.names, DisplayKey(def));
    assert Parsed(combo) == Some(Built(mods, def));
  }
}
