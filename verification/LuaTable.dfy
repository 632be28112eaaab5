/** The lua route table: peer tuples, option values and the order of the sections. */
module LuaTable {
  import opened Base
  import opened Text

  // ---- Reading a lua string literal ----

  /** The character that `\c` stands for. */
  function Escaped(c: char): Option<char> {
    if c == '\\' || c == '"' || c == '\'' then Some(c)
    else if c == 'a' then Some('\U{0007}')
    else if c == 'b' then Some('\U{0008}')
    else if c == 'f' then Some('\U{000c}')
    else if c == 'n' then Some('\n')
    else if c == 'r' then Some('\r')
    else if c == 't' then Some('\t')
    else if c == 'v' then Some('\U{000b}')
    else None
  }

  function HexValue(c: char): Option<nat> {
    if '0' <= c <= '9' then Some(c as int - '0' as int)
    else if 'a' <= c <= 'f' then Some(c as int - 'a' as int + 10)
    else None
  }

  /** Reads a double-quoted literal whose opening quote has gone by: its value, and what follows the closing
      quote. A line break inside the quotes is an error. */
  function ReadString(s: string): (r: Option<(string, string)>)
    ensures r.Some? ==> |r.value.1| < |s|
  {
    if s == [] || s[0] == '\n' || s[0] == '\r' then None
    else if s[0] == '"' then Some(("", s[1..]))
    else if s[0] != '\\' then Prefixed(s[0], ReadString(s[1..]))
    else if |s| >= 2 && Escaped(s[1]).Some? then Prefixed(Escaped(s[1]).value, ReadString(s[2..]))
    else if |s| >= 4 && s[1] == 'x' && HexValue(s[2]).Some? && HexValue(s[3]).Some? then
      Prefixed((16 * HexValue(s[2]).value + HexValue(s[3]).value) as char, ReadString(s[4..]))
    else None
  }

  function Prefixed(c: char, r: Option<(string, string)>): Option<(string, string)> {
    if r.Some? then Some(([c] + r.value.0, r.value.1)) else None
  }

  // ---- luaVal ----

  /** The replacer of `luaVal`. */
  function EscapeChar(c: char): string {
    if c == '\\' then "\\\\"
    else if c == '"' then "\\\""
    else if c == '\n' || c == '\r' then " "
    else [c]
  }

  function Escape(s: string): string {
    if s == [] then [] else EscapeChar(s[0]) + Escape(s[1..])
  }

  /** Line breaks turned into spaces. */
  function OneLine(s: string): string {
    if s == [] then [] else [OnOneLine(s[0])] + OneLine(s[1..])
  }

  function OnOneLine(c: char): char {
    if c == '\n' || c == '\r' then ' ' else c
  }

  predicate IsWord(s: string, isNum: string -> bool) {
    isNum(s) || s == "true" || s == "false" || s == "nil"
  }

  /** `luaVal`, where `isNum` is what `ParseFloat` accepts. */
  function LuaVal(s: string, isNum: string -> bool): string {
    if IsWord(s, isNum) then s else "\"" + Escape(s) + "\""
  }

  lemma ReadEscapedChar(c: char, tail: string)
    ensures ReadString(EscapeChar(c) + tail) == Prefixed(OnOneLine(c), ReadString(tail))
  {
    assert (EscapeChar(c) + tail)[|EscapeChar(c)|..] == tail;
  }

  /** An escaped value reads back as itself on one line, and ends at its own closing quote whatever follows. */
  lemma {:induction false} ReadEscaped(s: string, rest: string)
    ensures ReadString(Escape(s) + "\"" + rest) == Some((OneLine(s), rest))
  {
    if s == [] {
      assert (Escape(s) + "\"" + rest)[1..] == rest;
    } else {
      var tail := Escape(s[1..]) + "\"" + rest;
      ReadEscaped(s[1..], rest);
      ReadEscapedChar(s[0], tail);
      assert Escape(s) + "\"" + rest == EscapeChar(s[0]) + tail;
    }
  }

  /** A value as the engine receives it: a string, or a bare word, which stands in the table as it is. What lua
      makes of a word is up to lua: Go's `ParseFloat` accepts "+5" and "inf", which are no numbers there. */
  datatype LuaValue = Str(text: string) | Word(word: string)

  function LuaLiteral(text: string): LuaValue {
    if text != [] && text[0] == '"' && ReadString(text[1..]).Some? && ReadString(text[1..]).value.1 == "" then
      Str(ReadString(text[1..]).value.0)
    else Word(text)
  }

  lemma {:induction false} EscapeLonger(s: string)
    ensures |Escape(s)| >= |s|
  {
    if s == [] {
    } else {
      EscapeLonger(s[1..]);
    }
  }

  /** What `isNum` takes for a number, booleans and nil stand in the table as they are; anything else arrives as
      a string equal to it, on one line. */
  lemma LuaValMeans(s: string, isNum: string -> bool)
    requires forall n :: isNum(n) ==> '"' !in n
    ensures var word := isNum(s) || s in {"true", "false", "nil"};
      && (LuaVal(s, isNum) == s <==> word)
      && LuaLiteral(LuaVal(s, isNum)) == if word then Word(s) else Str(OneLine(s))
  {
    assert s in {"true", "false", "nil"} <==> s == "true" || s == "false" || s == "nil";
    if !IsWord(s, isNum) {
      ReadEscaped(s, "");
      var text := LuaVal(s, isNum);
      assert text[1..] == Escape(s) + "\"" + "";
      EscapeLonger(s);
    }
  }

  // ---- Go's %q ----

  function HexDigit(n: nat): (c: char)
    requires n < 16
    ensures HexValue(c) == Some(n)
  {
    if n < 10 then '0' + n as char else 'a' + (n - 10) as char
  }

  /** `n` in that many hexadecimal digits. */
  function Hex(n: nat, width: nat): string {
    if width == 0 then "" else Hex(n / 16, width - 1) + [HexDigit(n % 16)]
  }

  /** The character survives `%q`: it is ASCII, or what `isPrint` takes for printable. The others are written as
      `\u` or `\U` escapes, which lua does not know. */
  predicate Survives(c: char, isPrint: char -> bool) {
    c < '\U{0080}' || isPrint(c)
  }

  predicate Readable(s: string, isPrint: char -> bool) {
    forall i :: 0 <= i < |s| ==> Survives(s[i], isPrint)
  }

  function QuoteChar(c: char, isPrint: char -> bool): string {
    if c == '\\' then "\\\\"
    else if c == '"' then "\\\""
    else if c == '\U{0007}' then "\\a"
    else if c == '\U{0008}' then "\\b"
    else if c == '\U{000c}' then "\\f"
    else if c == '\n' then "\\n"
    else if c == '\r' then "\\r"
    else if c == '\t' then "\\t"
    else if c == '\U{000b}' then "\\v"
    else if c < ' ' || c == '\U{007f}' then "\\x" + [HexDigit(c as int / 16), HexDigit(c as int % 16)]
    else if Survives(c, isPrint) then [c]
    else if c < '\U{10000}' then "\\u" + Hex(c as int, 4)
    else "\\U" + Hex(c as int, 8)
  }

  function QuoteChars(s: string, isPrint: char -> bool): string {
    if s == [] then [] else QuoteChar(s[0], isPrint) + QuoteChars(s[1..], isPrint)
  }

  /** `%q`. */
  function Quoted(s: string, isPrint: char -> bool): string {
    "\"" + QuoteChars(s, isPrint) + "\""
  }

  /** The shapes of a quoted character: itself, a letter escape, a hexadecimal escape, or one lua does not know. */
  lemma QuoteShapes(c: char, isPrint: char -> bool)
    ensures var q := QuoteChar(c, isPrint);
      if !Survives(c, isPrint) then |q| >= 2 && q[0] == '\\' && q[1] in "uU"
      else
        || (q == [c] && c !in "\n\r\"\\")
        || (|q| == 2 && q[0] == '\\' && Escaped(q[1]) == Some(c))
        || (c as int < 128 && q == "\\x" + [HexDigit(c as int / 16), HexDigit(c as int % 16)])
  {
  }

  lemma ReadLetterEscape(x: char, tail: string)
    requires Escaped(x).Some?
    ensures ReadString(['\\', x] + tail) == Prefixed(Escaped(x).value, ReadString(tail))
  {
    assert (['\\', x] + tail)[2..] == tail;
  }

  lemma ReadQuotedChar(c: char, isPrint: char -> bool, tail: string)
    ensures ReadString(QuoteChar(c, isPrint) + tail) ==
            if Survives(c, isPrint) then Prefixed(c, ReadString(tail)) else None
  {
    var q := QuoteChar(c, isPrint);
    QuoteShapes(c, isPrint);
    if !Survives(c, isPrint) {
      UnknownEscape(q + tail);
    } else if |q| == 1 {
      assert (q + tail)[1..] == tail;
    } else if |q| == 2 {
      assert q == ['\\', q[1]];
      ReadLetterEscape(q[1], tail);
    } else {
      ReadHexChar(c as int, tail);
    }
  }

  lemma UnknownEscape(s: string)
    requires |s| >= 2 && s[0] == '\\' && s[1] in "uU"
    ensures ReadString(s) == None
  {
  }

  lemma ReadHexChar(n: nat, tail: string)
    requires n < 128
    ensures ReadString("\\x" + [HexDigit(n / 16), HexDigit(n % 16)] + tail) == Prefixed(n as char, ReadString(tail))
  {
    var all := "\\x" + [HexDigit(n / 16), HexDigit(n % 16)] + tail;
    assert all[0] == '\\' && all[1] == 'x' && all[2] == HexDigit(n / 16) && all[3] == HexDigit(n % 16);
    assert all[4..] == tail;
  }

  /** A `%q` literal reads back as its string, whatever follows, exactly when every character survives. */
  lemma {:induction false} ReadQuoted(s: string, isPrint: char -> bool, rest: string)
    ensures ReadString(QuoteChars(s, isPrint) + "\"" + rest) == if Readable(s, isPrint) then Some((s, rest)) else None
  {
    if s == [] {
      assert (QuoteChars(s, isPrint) + "\"" + rest)[1..] == rest;
    } else {
      ReadQuoted(s[1..], isPrint, rest);
      var tail := QuoteChars(s[1..], isPrint) + "\"" + rest;
      ReadQuotedFirst(s, isPrint, tail, rest);
      assert QuoteChars(s, isPrint) + "\"" + rest == QuoteChar(s[0], isPrint) + tail;
    }
  }

  lemma ReadQuotedFirst(s: string, isPrint: char -> bool, tail: string, rest: string)
    requires s != [] && ReadString(tail) == if Readable(s[1..], isPrint) then Some((s[1..], rest)) else None
    ensures ReadString(QuoteChar(s[0], isPrint) + tail) == if Readable(s, isPrint) then Some((s, rest)) else None
  {
    ReadQuotedChar(s[0], isPrint, tail);
    ReadableSplits(s, isPrint);
  }

  lemma ReadableSplits(s: string, isPrint: char -> bool)
    requires s != []
    ensures Readable(s, isPrint) <==> Survives(s[0], isPrint) && Readable(s[1..], isPrint)
    ensures s == [s[0]] + s[1..]
  {
  }

  // ---- Table items ----

  datatype Atom = Quote(text: string) | Num(n: int)

  /** An item of a table constructor: a value that takes the next position, or `key = value`. */
  datatype Item = At(value: Atom) | Named(key: string, value: Atom)

  predicate IsNameChar(c: char) {
    'a' <= c <= 'z' || 'A' <= c <= 'Z' || c == '_'
  }

  predicate WellNamed(i: Item) {
    i.Named? ==> i.key != [] && forall k :: 0 <= k < |i.key| ==> IsNameChar(i.key[k])
  }

  predicate ReadableItem(i: Item, isPrint: char -> bool) {
    i.value.Quote? ==> Readable(i.value.text, isPrint)
  }

  function PrintAtom(a: Atom, isPrint: char -> bool): string {
    match a
    case Quote(text) => Quoted(text, isPrint)
    case Num(n) => Decimal(n)
  }

  function PrintItem(i: Item, isPrint: char -> bool): string {
    match i
    case At(v) => PrintAtom(v, isPrint)
    case Named(key, v) => key + " = " + PrintAtom(v, isPrint)
  }

  function PrintItems(items: seq<Item>, isPrint: char -> bool): string {
    if items == [] then ""
    else if |items| == 1 then PrintItem(items[0], isPrint)
    else PrintItem(items[0], isPrint) + ", " + PrintItems(items[1..], isPrint)
  }

  function SkipSpaces(s: string): (r: string)
    ensures |r| <= |s|
  {
    if s != [] && s[0] == ' ' then SkipSpaces(s[1..]) else s
  }

  function ReadAtom(s: string): (r: Option<(Atom, string)>)
    ensures r.Some? ==> |r.value.1| < |s|
  {
    if s == [] then None
    else if s[0] == '"' then
      var text := ReadString(s[1..]);
      if text.Some? then Some((Quote(text.value.0), text.value.1)) else None
    else if IsDigit(s[0]) then
      var (n, rest) := ReadDigits(DigitValue(s[0]), s[1..]);
      Some((Num(n), rest))
    else if s[0] == '-' && |s| > 1 && IsDigit(s[1]) then
      var (n, rest) := ReadDigits(0, s[1..]);
      Some((Num(0 - n), rest))
    else None
  }

  /** The length of the name `s` begins with. */
  function NameLength(s: string): (n: nat)
    ensures n <= |s|
  {
    if s == [] || !IsNameChar(s[0]) then 0 else 1 + NameLength(s[1..])
  }

  function ReadItem(s: string): (r: Option<(Item, string)>)
    ensures r.Some? ==> |r.value.1| < |s|
  {
    var n := NameLength(s);
    if n == 0 then
      var v := ReadAtom(s);
      if v.Some? then Some((At(v.value.0), v.value.1)) else None
    else
      var after := SkipSpaces(s[n..]);
      if after == [] || after[0] != '=' then None
      else
        var v := ReadAtom(SkipSpaces(after[1..]));
        if v.Some? then Some((Named(s[..n], v.value.0), v.value.1)) else None
  }

  /** Reads the items of a table constructor, separated by commas. */
  function ReadItems(s: string): Option<seq<Item>>
    decreases |s|
  {
    match ReadItem(SkipSpaces(s))
    case None => None
    case Some((item, rest)) =>
      var more := SkipSpaces(rest);
      if more == [] then Some([item])
      else if more[0] != ',' then None
      else
        match ReadItems(more[1..])
        case None => None
        case Some(items) => Some([item] + items)
  }

  /** What may follow a number. */
  predicate EndsNumber(rest: string) {
    rest == [] || !IsDigit(rest[0])
  }

  lemma ReadDecimalBack(n: int, rest: string)
    requires EndsNumber(rest)
    ensures ReadAtom(Decimal(n) + rest) == Some((Num(n), rest))
  {
    var m := if n < 0 then -n else n;
    ReadDigitsBack(m, rest);
    var text := Digits(m) + rest;
    assert text[0] == Digits(m)[0] && ReadDigits(0, text) == ReadDigits(DigitValue(text[0]), text[1..]);
    if n < 0 {
      assert (Decimal(n) + rest)[1..] == text;
    }
  }

  lemma ReadQuoteBack(text: string, isPrint: char -> bool, rest: string)
    ensures ReadAtom(Quoted(text, isPrint) + rest) == if Readable(text, isPrint) then Some((Quote(text), rest)) else None
  {
    var s := Quoted(text, isPrint) + rest;
    ReadQuoted(text, isPrint, rest);
    ReadQuote(s, QuoteChars(text, isPrint) + "\"" + rest);
  }

  lemma ReadQuote(s: string, inside: string)
    requires s == "\"" + inside
    ensures ReadAtom(s) == if ReadString(inside).Some?
                           then Some((Quote(ReadString(inside).value.0), ReadString(inside).value.1)) else None
  {
    assert s[1..] == inside;
  }

  lemma ReadAtomBack(a: Atom, isPrint: char -> bool, rest: string)
    requires EndsNumber(rest)
    ensures ReadAtom(PrintAtom(a, isPrint) + rest) ==
            if a.Quote? ==> Readable(a.text, isPrint) then Some((a, rest)) else None
  {
    match a
    case Quote(text) => ReadQuoteBack(text, isPrint, rest);
    case Num(n) => ReadDecimalBack(n, rest);
  }

  /** A value is not a name, and begins without a space. */
  lemma AtomBegins(a: Atom, isPrint: char -> bool, rest: string)
    ensures var s := PrintAtom(a, isPrint) + rest; NameLength(s) == 0 && SkipSpaces(s) == s
  {
    var text := PrintAtom(a, isPrint);
    assert text[0] == '"' || text[0] == '-' || IsDigit(text[0]) by {
      if a.Num? && a.n >= 0 {
        assert Digits(a.n)[0] in Digits(a.n);
      }
    }
  }

  /** A decimal number among the option values arrives as that number. */
  lemma DecimalValueMeans(n: int, isNum: string -> bool)
    requires isNum(Decimal(n))
    ensures ReadAtom(LuaVal(Decimal(n), isNum)) == Some((Num(n), ""))
  {
    ReadDecimalBack(n, "");
    assert Decimal(n) + "" == Decimal(n);
  }

  lemma {:induction false} NameLengthIs(key: string, rest: string)
    requires forall k :: 0 <= k < |key| ==> IsNameChar(key[k])
    requires rest != [] && !IsNameChar(rest[0])
    ensures NameLength(key + rest) == |key|
  {
    if key == [] {
      assert key + rest == rest;
    } else {
      assert (key + rest)[1..] == key[1..] + rest;
      NameLengthIs(key[1..], rest);
    }
  }

  /** The text after a name: an equals sign between spaces. */
  lemma EqualsSkipped(value: string)
    requires SkipSpaces(value) == value
    ensures SkipSpaces(" = " + value) == "= " + value && SkipSpaces(("= " + value)[1..]) == value
  {
    SpacesSkipped("= " + value);
    SpacesSkipped(value);
    assert " = " + value == " " + ("= " + value) && ("= " + value)[1..] == " " + value;
  }

  /** What a read value is as the value of `key`. */
  function NamedAs(key: string, v: Option<(Atom, string)>): Option<(Item, string)> {
    if v.Some? then Some((Named(key, v.value.0), v.value.1)) else None
  }

  /** A name, an equals sign and a value read as a named item, if the value reads. */
  lemma ReadNamedBack(key: string, value: string)
    requires key != [] && forall k :: 0 <= k < |key| ==> IsNameChar(key[k])
    requires SkipSpaces(value) == value
    ensures ReadItem(key + (" = " + value)) == NamedAs(key, ReadAtom(value))
    ensures SkipSpaces(key + (" = " + value)) == key + (" = " + value)
  {
    NameLengthIs(key, " = " + value);
    EqualsSkipped(value);
    NameThenValue(key, " = " + value, "= " + value);
  }

  lemma NameThenValue(key: string, after: string, equals: string)
    requires key != [] && NameLength(key + after) == |key|
    requires SkipSpaces(after) == equals && equals != [] && equals[0] == '='
    ensures ReadItem(key + after) == NamedAs(key, ReadAtom(SkipSpaces(equals[1..])))
  {
    var all := key + after;
    assert all[|key|..] == after && all[..|key|] == key;
  }

  lemma SpacesSkipped(s: string)
    ensures SkipSpaces(" " + s) == SkipSpaces(s)
  {
    assert (" " + s)[1..] == s;
  }

  lemma ReadPositionBack(s: string)
    requires NameLength(s) == 0
    ensures ReadItem(s) == if ReadAtom(s).Some? then Some((At(ReadAtom(s).value.0), ReadAtom(s).value.1)) else None
  {
  }

  lemma ReadNamedItemBack(key: string, v: Atom, isPrint: char -> bool, rest: string)
    requires WellNamed(Named(key, v)) && EndsNumber(rest)
    ensures var s := key + (" = " + (PrintAtom(v, isPrint) + rest));
      ReadItem(s) == NamedAs(key, ReadAtom(PrintAtom(v, isPrint) + rest)) && SkipSpaces(s) == s
  {
    AtomBegins(v, isPrint, rest);
    ReadNamedBack(key, PrintAtom(v, isPrint) + rest);
  }

  lemma PrintedNamed(key: string, v: Atom, isPrint: char -> bool, rest: string)
    ensures PrintItem(Named(key, v), isPrint) + rest == key + (" = " + (PrintAtom(v, isPrint) + rest))
  {
  }

  lemma ReadItemBack(i: Item, isPrint: char -> bool, rest: string)
    requires WellNamed(i) && EndsNumber(rest)
    ensures ReadItem(PrintItem(i, isPrint) + rest) == if ReadableItem(i, isPrint) then Some((i, rest)) else None
    ensures SkipSpaces(PrintItem(i, isPrint) + rest) == PrintItem(i, isPrint) + rest
  {
    ReadAtomBack(i.value, isPrint, rest);
    match i
    case Named(key, v) =>
      PrintedNamed(key, v, isPrint, rest);
      ReadNamedItemBack(key, v, isPrint, rest);
    case At(v) =>
      AtomBegins(v, isPrint, rest);
      ReadPositionBack(PrintAtom(v, isPrint) + rest);
  }

  lemma ReadFirstItem(i: Item, isPrint: char -> bool, more: string)
    requires WellNamed(i)
    ensures ReadItems(PrintItem(i, isPrint) + ", " + more) ==
            if ReadableItem(i, isPrint) && ReadItems(more).Some? then Some([i] + ReadItems(more).value) else None
  {
    var text, rest := PrintItem(i, isPrint), ", " + more;
    ReadItemBack(i, isPrint, rest);
    SpacesDoNotMatter(more);
    assert rest[1..] == " " + more;
    ReadItemsStep(text + rest, i, ReadableItem(i, isPrint), rest);
    assert text + ", " + more == text + rest;
  }

  /** One step of `ReadItems`, if the first item is readable. */
  lemma ReadItemsStep(s: string, i: Item, readable: bool, rest: string)
    requires SkipSpaces(s) == s && ReadItem(s) == (if readable then Some((i, rest)) else None)
    requires rest != [] && rest[0] == ','
    ensures var more := ReadItems(rest[1..]);
      ReadItems(s) == if readable && more.Some? then Some([i] + more.value) else None
  {
    assert SkipSpaces(rest) == rest;
  }

  lemma ReadOnlyItem(s: string, i: Item, readable: bool)
    requires SkipSpaces(s) == s && ReadItem(s) == (if readable then Some((i, "")) else None)
    ensures ReadItems(s) == if readable then Some([i]) else None
  {
  }

  predicate AllReadable(items: seq<Item>, isPrint: char -> bool) {
    items == [] || (ReadableItem(items[0], isPrint) && AllReadable(items[1..], isPrint))
  }

  lemma {:induction false} ReadableAppended(items: seq<Item>, i: Item, isPrint: char -> bool)
    ensures AllReadable(items + [i], isPrint) <==> AllReadable(items, isPrint) && ReadableItem(i, isPrint)
  {
    if items == [] {
    } else {
      assert (items + [i])[1..] == items[1..] + [i];
      ReadableAppended(items[1..], i, isPrint);
    }
  }

  /** Printed items read back, exactly when every quoted text does. */
  lemma {:induction false} ReadItemsBack(items: seq<Item>, isPrint: char -> bool)
    requires items != [] && forall i :: i in items ==> WellNamed(i)
    ensures ReadItems(PrintItems(items, isPrint)) ==
            if AllReadable(items, isPrint) then Some(items) else None
  {
    assert items == [items[0]] + items[1..];
    if |items| == 1 {
      ReadItemBack(items[0], isPrint, "");
      assert PrintItem(items[0], isPrint) + "" == PrintItem(items[0], isPrint);
      assert items == [items[0]] && AllReadable(items[1..], isPrint);
      ReadOnlyItem(PrintItem(items[0], isPrint), items[0], ReadableItem(items[0], isPrint));
    } else {
      ReadItemsBack(items[1..], isPrint);
      ReadFirstItem(items[0], isPrint, PrintItems(items[1..], isPrint));
    }
  }

  lemma SpacesDoNotMatter(s: string)
    ensures ReadItems(" " + s) == ReadItems(s)
  {
    SpacesSkipped(s);
  }

  lemma {:induction false} PrintAppended(items: seq<Item>, i: Item, isPrint: char -> bool)
    requires items != []
    ensures PrintItems(items + [i], isPrint) == PrintItems(items, isPrint) + ", " + PrintItem(i, isPrint)
  {
    var all := items + [i];
    assert all[1..] == items[1..] + [i];
    if |items| == 1 {
      assert PrintItems(all[1..], isPrint) == PrintItem(i, isPrint);
    } else {
      PrintAppended(items[1..], i, isPrint);
    }
  }
}
