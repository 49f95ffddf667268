/**
 * The text forms shared memory stores: JSON lists of strings, as json.dumps writes them (ASCII only,
 * with ", " between items) and json.loads reads them, and decimal integers.
 */
module JsonText {
  import opened Sequences

  // ---------------------------------------------------------------- hexadecimal escapes

  function HexDigit(n: nat): char
    requires n < 16
  {
    if n < 10 then '0' + n as char else 'a' + (n - 10) as char
  }

  function HexValue(c: char): Option<nat> {
    if '0' <= c <= '9' then Some((c - '0') as nat)
    else if 'a' <= c <= 'f' then Some((c - 'a') as nat + 10)
    else if 'A' <= c <= 'F' then Some((c - 'A') as nat + 10)
    else None
  }

  /** The last width hexadecimal digits of n. */
  function HexText(n: nat, width: nat): (s: string)
    ensures |s| == width
  {
    if width == 0 then "" else HexText(n / 16, width - 1) + [HexDigit(n % 16)]
  }

  function ParseHex(s: string): Option<nat> {
    if s == [] then Some(0)
    else
      var before, last := ParseHex(s[..|s| - 1]), HexValue(s[|s| - 1]);
      if before.None? || last.None? then None else Some(before.value * 16 + last.value)
  }

  function Pow16(k: nat): nat { if k == 0 then 1 else 16 * Pow16(k - 1) }

  lemma {:induction false} HexReads(n: nat, width: nat)
    requires n < Pow16(width)
    ensures ParseHex(HexText(n, width)) == Some(n)
  {
    if width > 0 {
      var s := HexText(n, width);
      HexReads(n / 16, width - 1);
      assert s[..|s| - 1] == HexText(n / 16, width - 1);
    }
  }

  lemma {:induction false} Hex4Reads(n: nat)
    requires n < 0x10000
    ensures ParseHex(HexText(n, 4)) == Some(n)
  {
    assert Pow16(1) == 16 && Pow16(2) == 256 && Pow16(3) == 4096;
    HexReads(n, 4);
  }

  // ---------------------------------------------------------------- one character

  const BACKSPACE := 8 as char
  const FORM_FEED := 12 as char

  /** A character inside a JSON string; beyond the basic plane it takes a surrogate pair. */
  function Escape(c: char): string {
    if c == '"' then "\\\""
    else if c == '\\' then "\\\\"
    else if c == '\n' then "\\n"
    else if c == '\r' then "\\r"
    else if c == '\t' then "\\t"
    else if c == BACKSPACE then "\\b"
    else if c == FORM_FEED then "\\f"
    else if ' ' <= c <= '~' then [c]
    else if c as int < 0x10000 then "\\u" + HexText(c as int, 4)
    else PairText(c as int - 0x10000)
  }

  /** The two halves of a surrogate pair. */
  function PairText(v: nat): string
    requires v < 0x100000
  {
    "\\u" + HexText(0xD800 + v / 0x400, 4) + "\\u" + HexText(0xDC00 + v % 0x400, 4)
  }

  datatype Read<T> = Fails | Reads(value: T, rest: string)

  /** The \u escape at the start of s, which may be half of a pair; a lone surrogate is no character. */
  function ReadUnicode(s: string): (r: Read<char>)
    requires |s| >= 6
    ensures r.Reads? ==> |r.rest| < |s|
  {
    var high := ParseHex(s[2..6]);
    if high.None? || 0xDC00 <= high.value < 0xE000 then Fails
    else if high.value < 0xD800 || 0xE000 <= high.value then
      if high.value < 0x10000 then Reads(high.value as char, s[6..]) else Fails
    else if |s| < 12 || s[6] != '\\' || s[7] != 'u' then Fails
    else
      var low := ParseHex(s[8..12]);
      if low.None? || low.value < 0xDC00 || 0xE000 <= low.value then Fails
      else Reads((0x10000 + (high.value - 0xD800) * 0x400 + (low.value - 0xDC00)) as char, s[12..])
  }

  function ReadChar(s: string): (r: Read<char>)
    requires s != []
    ensures r.Reads? ==> |r.rest| < |s|
  {
    if s[0] == '"' || s[0] < ' ' then Fails
    else if s[0] != '\\' then Reads(s[0], s[1..])
    else if |s| < 2 then Fails
    else if s[1] == '"' || s[1] == '\\' || s[1] == '/' then Reads(s[1], s[2..])
    else if s[1] == 'n' then Reads('\n', s[2..])
    else if s[1] == 'r' then Reads('\r', s[2..])
    else if s[1] == 't' then Reads('\t', s[2..])
    else if s[1] == 'b' then Reads(BACKSPACE, s[2..])
    else if s[1] == 'f' then Reads(FORM_FEED, s[2..])
    else if s[1] == 'u' && |s| >= 6 then ReadUnicode(s)
    else Fails
  }

  lemma EscapeReads(c: char, rest: string)
    ensures Escape(c) != [] && Escape(c)[0] != '"'
    ensures ReadChar(Escape(c) + rest) == Reads(c, rest)
  {
    hide HexText, PairText, ParseHex, HexValue, Pow16;
    var s := Escape(c) + rest;
    if c == '"' || c == '\\' || c == '\n' || c == '\r' || c == '\t' || c == BACKSPACE || c == FORM_FEED {
      assert s[2..] == rest;
    } else if ' ' <= c <= '~' {
      assert s[1..] == rest;
    } else if c as int < 0x10000 {
      Hex4Reads(c as int);
      assert s[2..6] == HexText(c as int, 4) && s[6..] == rest;
    } else {
      PairReads(c as int - 0x10000, c, rest);
    }
  }

  lemma PairReads(v: nat, c: char, rest: string)
    requires c as int == 0x10000 + v
    ensures ReadChar(PairText(v) + rest) == Reads(c, rest)
  {
    SplitBits(v);
    HalvesRead(0xD800 + v / 0x400, 0xDC00 + v % 0x400, c, rest);
  }

  lemma HalvesRead(high: nat, low: nat, c: char, rest: string)
    requires 0xD800 <= high < 0xDC00 <= low < 0xE000
    requires c as int == 0x10000 + (high - 0xD800) * 0x400 + (low - 0xDC00)
    ensures ReadChar("\\u" + HexText(high, 4) + "\\u" + HexText(low, 4) + rest) == Reads(c, rest)
  {
    Hex4Reads(high);
    Hex4Reads(low);
    PairTextReads(HexText(high, 4), HexText(low, 4), high, low, c, rest);
  }

  lemma SplitBits(v: nat)
    requires v < 0x100000
    ensures v / 0x400 < 0x400 && v % 0x400 < 0x400 && v == v / 0x400 * 0x400 + v % 0x400
  {
  }

  lemma PairTextReads(x: string, y: string, high: nat, low: nat, c: char, rest: string)
    requires |x| == |y| == 4 && ParseHex(x) == Some(high) && ParseHex(y) == Some(low)
    requires 0xD800 <= high < 0xDC00 <= low < 0xE000
    requires c as int == 0x10000 + (high - 0xD800) * 0x400 + (low - 0xDC00)
    ensures ReadChar("\\u" + x + "\\u" + y + rest) == Reads(c, rest)
  {
    hide ParseHex, HexValue;
    var s, tail := "\\u" + x + "\\u" + y + rest, "\\u" + y + rest;
    assert s == "\\u" + x + tail && s[6..] == tail;
    assert s[2..6] == x && s[0] == '\\' && s[1] == 'u' && s[6] == '\\' && s[7] == 'u';
    assert s[8..12] == tail[2..6] == y && s[12..] == tail[6..] == rest;
  }

  // ---------------------------------------------------------------- strings and lists

  function Escaped(s: string): string { if s == [] then [] else Escape(s[0]) + Escaped(s[1..]) }

  function Quoted(s: string): string { "\"" + Escaped(s) + "\"" }

  /** The body of a string up to and including its closing quote. */
  function ReadBody(s: string): (r: Read<string>)
    ensures r.Reads? ==> |r.rest| < |s|
    decreases |s|
  {
    if s == [] then Fails
    else if s[0] == '"' then Reads("", s[1..])
    else match ReadChar(s)
      case Fails => Fails
      case Reads(c, rest) => (match ReadBody(rest) case Fails => Fails case Reads(t, after) => Reads([c] + t, after))
  }

  function ReadString(s: string): (r: Read<string>)
    ensures r.Reads? ==> |r.rest| < |s|
  {
    if s == [] || s[0] != '"' then Fails else ReadBody(s[1..])
  }

  lemma {:induction false} BodyReads(t: string, rest: string)
    ensures ReadBody(Escaped(t) + "\"" + rest) == Reads(t, rest)
    decreases |t|
  {
    hide Escape, ReadChar;
    var s := Escaped(t) + "\"" + rest;
    if t == [] {
      assert s[1..] == rest;
    } else {
      var more := Escaped(t[1..]) + "\"" + rest;
      assert s == Escape(t[0]) + more;
      EscapeReads(t[0], more);
      BodyReads(t[1..], rest);
      BodyContinues(t[0], Escape(t[0]), more, t[1..], rest);
      assert t == [t[0]] + t[1..];
    }
  }

  lemma BodyContinues(c: char, escape: string, more: string, t: string, rest: string)
    requires escape != [] && escape[0] != '"' && ReadChar(escape + more) == Reads(c, more)
    requires ReadBody(more) == Reads(t, rest)
    ensures ReadBody(escape + more) == Reads([c] + t, rest)
  {
  }

  lemma QuotedReads(t: string, rest: string)
    ensures ReadString(Quoted(t) + rest) == Reads(t, rest)
  {
    assert (Quoted(t) + rest)[1..] == Escaped(t) + "\"" + rest;
    BodyReads(t, rest);
  }

  function SkipSpace(s: string): (r: string)
    ensures |r| <= |s|
  {
    if s != [] && s[0] in {' ', '\n', '\r', '\t'} then SkipSpace(s[1..]) else s
  }

  /** The items after the first, each with its separator, and the closing bracket. */
  function ItemsText(items: seq<string>): string {
    if items == [] then "]" else ", " + Quoted(items[0]) + ItemsText(items[1..])
  }

  /** json.dumps of a list of strings. */
  function ListText(items: seq<string>): string {
    if items == [] then "[]" else "[" + Quoted(items[0]) + ItemsText(items[1..])
  }

  function ReadItems(s: string): Read<seq<string>>
    decreases |s|
  {
    var t := SkipSpace(s);
    if t == [] then Fails
    else if t[0] == ']' then Reads([], t[1..])
    else if t[0] != ',' then Fails
    else match ReadString(SkipSpace(t[1..]))
      case Fails => Fails
      case Reads(x, rest) => (match ReadItems(rest) case Fails => Fails case Reads(xs, after) => Reads([x] + xs, after))
  }

  /** json.loads, on arrays of strings; any other text is not one. */
  function ParseList(s: string): Option<seq<string>> {
    var t := SkipSpace(s);
    if t == [] || t[0] != '[' then None
    else
      var u := SkipSpace(t[1..]);
      if u != [] && u[0] == ']' then (if SkipSpace(u[1..]) == [] then Some([]) else None)
      else match ReadString(u)
        case Fails => None
        case Reads(x, rest) =>
          (match ReadItems(rest)
           case Fails => None
           case Reads(xs, after) => if SkipSpace(after) == [] then Some([x] + xs) else None)
  }

  lemma {:induction false} ItemsRead(items: seq<string>)
    ensures ReadItems(ItemsText(items)) == Reads(items, "")
  {
    NoItemsRead();
    hide ReadItems, ReadString, Quoted;
    if items != [] {
      var rest := ItemsText(items[1..]);
      QuotedReads(items[0], rest);
      ItemsRead(items[1..]);
      QuotedStarts(items[0], rest);
      assert ItemsText(items) == ", " + (Quoted(items[0]) + rest);
      ItemReads(ItemsText(items), Quoted(items[0]) + rest, items[0], rest, items[1..]);
      assert items == [items[0]] + items[1..];
    }
  }

  lemma NoItemsRead()
    ensures ItemsText([]) == "]" && ReadItems("]") == Reads([], "")
  {
  }

  lemma QuotedStarts(t: string, rest: string)
    ensures Quoted(t) + rest != [] && (Quoted(t) + rest)[0] == '"'
  {
  }

  lemma ItemReads(s: string, quoted: string, x: string, rest: string, xs: seq<string>)
    requires s == ", " + quoted && quoted != [] && quoted[0] == '"'
    requires ReadString(quoted) == Reads(x, rest) && ReadItems(rest) == Reads(xs, "")
    ensures ReadItems(s) == Reads([x] + xs, "")
  {
    assert s[1..] == " " + quoted && (" " + quoted)[1..] == quoted;
    assert SkipSpace(quoted) == quoted;
  }

  /** Printable text without a quote or a backslash. */
  predicate Literal(t: string) { forall i :: 0 <= i < |t| ==> ' ' <= t[i] <= '~' && t[i] != '"' && t[i] != '\\' }

  lemma {:induction false} LiteralIsKept(t: string)
    requires Literal(t)
    ensures Escaped(t) == t
  {
    if t != [] {
      LiteralIsKept(t[1..]);
      assert t == [t[0]] + t[1..];
    }
  }

  /** Items in quotes, each after a comma and a space. */
  function Enumerated(items: seq<string>): string {
    if items == [] then "" else ", \"" + items[0] + "\"" + Enumerated(items[1..])
  }

  lemma {:induction false} ItemsEnumerated(items: seq<string>)
    requires forall i :: 0 <= i < |items| ==> Literal(items[i])
    ensures ItemsText(items) == Enumerated(items) + "]"
  {
    hide Literal, Escaped;
    if items != [] {
      LiteralIsKept(items[0]);
      ItemsEnumerated(items[1..]);
    }
  }

  /** The form a list is stored in: literal texts stand in it as they are. */
  lemma {:induction false} LiteralListText(items: seq<string>)
    requires forall i :: 0 <= i < |items| ==> Literal(items[i])
    ensures ListText([]) == "[]"
    ensures items != [] ==> ListText(items) == "[\"" + items[0] + "\"" + Enumerated(items[1..]) + "]"
  {
    hide Literal, Escaped;
    if items != [] {
      LiteralIsKept(items[0]);
      ItemsEnumerated(items[1..]);
    }
  }

  lemma EmptyListReads()
    ensures ParseList(ListText([])) == Some([])
  {
    assert "[]"[1..] == "]" && "]"[1..] == "";
  }

  lemma FullListReads(x: string, xs: seq<string>)
    ensures ParseList("[" + Quoted(x) + ItemsText(xs)) == Some([x] + xs)
  {
    QuotedReads(x, ItemsText(xs));
    ItemsRead(xs);
    assert "[" + Quoted(x) + ItemsText(xs) == "[" + (Quoted(x) + ItemsText(xs));
    FirstItemReads("[" + Quoted(x) + ItemsText(xs), Quoted(x) + ItemsText(xs), x, ItemsText(xs), xs);
  }

  /** Lists of strings survive being written and read, whatever characters they hold. */
  lemma ListRoundTrip(items: seq<string>)
    ensures ParseList(ListText(items)) == Some(items)
  {
    if items == [] {
      EmptyListReads();
    } else {
      FullListReads(items[0], items[1..]);
      assert items == [items[0]] + items[1..];
    }
  }

  lemma FirstItemReads(s: string, quoted: string, x: string, rest: string, xs: seq<string>)
    requires s == "[" + quoted && quoted != [] && quoted[0] == '"'
    requires ReadString(quoted) == Reads(x, rest) && ReadItems(rest) == Reads(xs, "")
    ensures ParseList(s) == Some([x] + xs)
  {
    assert s[1..] == quoted && SkipSpace(quoted) == quoted;
  }

  // ---------------------------------------------------------------- decimal integers

  function Digit(n: nat): char
    requires n < 10
  {
    '0' + n as char
  }

  function NatText(n: nat): string { if n < 10 then [Digit(n)] else NatText(n / 10) + [Digit(n % 10)] }

  /** str(n). */
  function IntText(n: int): string { if n < 0 then "-" + NatText(-n) else NatText(n) }

  function ParseNat(s: string): Option<nat> {
    if s == [] || !('0' <= s[|s| - 1] <= '9') then None
    else
      var d := (s[|s| - 1] - '0') as nat;
      if |s| == 1 then Some(d)
      else match ParseNat(s[..|s| - 1]) case None => None case Some(n) => Some(n * 10 + d)
  }

  function Signed(n: Option<nat>, sign: int): Option<int> { if n.None? then None else Some(sign * n.value) }

  /** int(s), on an optional sign and digits. */
  function ParseInt(s: string): Option<int> {
    if s == [] then None
    else if s[0] == '-' then Signed(ParseNat(s[1..]), -1)
    else if s[0] == '+' then Signed(ParseNat(s[1..]), 1)
    else Signed(ParseNat(s), 1)
  }

  lemma {:induction false} NatRoundTrip(n: nat)
    ensures ParseNat(NatText(n)) == Some(n) && '0' <= NatText(n)[0] <= '9'
  {
    if n >= 10 {
      NatRoundTrip(n / 10);
      assert NatText(n)[..|NatText(n)| - 1] == NatText(n / 10);
    }
  }

  lemma IntRoundTrip(n: int)
    ensures ParseInt(IntText(n)) == Some(n)
    ensures IntText(n) != [] && (IntText(n)[0] == '-' || '0' <= IntText(n)[0] <= '9')
  {
    NatRoundTrip(if n < 0 then -n else n);
    if n < 0 { assert IntText(n)[1..] == NatText(-n); }
  }
}
