/**
 The JSON a reply's frames carry: what Python's `json.dumps` prints (ASCII only,
 ", " and ": " between parts) and a reader of exactly that, as `JSON.parse` reads it.
 */
module Json {
  import opened Wrappers
  import opened Events

  datatype Value =
    | Str(text: string)
    | Num(numeral: Numeral)
    | Arr(items: seq<Value>)
    | Obj(fields: seq<Field>)

  datatype Field = Field(name: string, value: Value)

  function HexDigit(d: nat): (c: char)
    requires d < 16
    ensures ' ' <= c <= '~'
  {
    "0123456789abcdef"[d]
  }

  function HexValue(c: char): Option<nat> {
    if '0' <= c <= '9' then Some(c as int - '0' as int)
    else if 'a' <= c <= 'f' then Some(c as int - 'a' as int + 10)
    else None
  }

  function Hex4(n: nat): string
    requires n < 0x10000
  {
    var a := n / 16;
    var b := a / 16;
    [HexDigit(b / 16), HexDigit(b % 16), HexDigit(a % 16), HexDigit(n % 16)]
  }

  function ReadHex4(s: string): Option<nat> {
    if |s| < 4 then None
    else
      match (HexValue(s[0]), HexValue(s[1]), HexValue(s[2]), HexValue(s[3]))
      case (Some(a), Some(b), Some(c), Some(d)) => Some(16 * (16 * (16 * a + b) + c) + d)
      case _ => None
  }

  /** The characters with an escape letter of their own. */
  function ShortEscape(c: char): Option<char> {
    if c == '"' || c == '\\' then Some(c)
    else if c == '\n' then Some('n') else if c == '\r' then Some('r') else if c == '\t' then Some('t')
    else if c == '\U{8}' then Some('b') else if c == '\U{C}' then Some('f')
    else None
  }

  function ReadShort(letter: char): Option<char> {
    if letter == '"' || letter == '\\' || letter == '/' then Some(letter)
    else if letter == 'n' then Some('\n') else if letter == 'r' then Some('\r') else if letter == 't' then Some('\t')
    else if letter == 'b' then Some('\U{8}') else if letter == 'f' then Some('\U{C}')
    else None
  }

  /** ASCII from the space to the tilde: no line break can stand in printed JSON. */
  predicate Plain(s: string) {
    forall k :: 0 <= k < |s| ==> ' ' <= s[k] <= '~'
  }

  /** One UTF-16 code unit. */
  function Unit(n: nat): (s: string)
    requires n < 0x10000
    ensures |s| == 6 && Plain(s)
  {
    "\\u" + Hex4(n)
  }

  /** A character past the first 0x10000, counted from there, as its surrogate pair. */
  function Pair(v: nat): (s: string)
    requires v < 0x100000
    ensures |s| == 12 && Plain(s)
  {
    Unit(0xD800 + v / 0x400) + Unit(0xDC00 + v % 0x400)
  }

  /** A character outside ASCII's printable range is escaped. */
  function EscapeChar(c: char): string {
    if ShortEscape(c).Some? then ['\\', ShortEscape(c).value]
    else if ' ' <= c <= '~' then [c]
    else if c as int < 0x10000 then Unit(c as int)
    else Pair(c as int - 0x10000)
  }

  function Escape(s: string): string {
    if s == "" then "" else EscapeChar(s[0]) + Escape(s[1..])
  }

  function Quoted(s: string): string {
    "\"" + Escape(s) + "\""
  }

  function Print(v: Value): string
    decreases v, 0
  {
    match v
    case Str(text) => Quoted(text)
    case Num(numeral) => numeral
    case Arr(items) => "[" + PrintItems(items) + "]"
    case Obj(fields) => "{" + PrintFields(fields) + "}"
  }

  function PrintItems(items: seq<Value>): string
    decreases items, 1
  {
    if items == [] then ""
    else Print(items[0]) + (if |items| == 1 then "" else ", ") + PrintItems(items[1..])
  }

  function PrintFields(fields: seq<Field>): string
    decreases fields, 1
  {
    if fields == [] then ""
    else
      Quoted(fields[0].name) + ": " + Print(fields[0].value) + (if |fields| == 1 then "" else ", ")
      + PrintFields(fields[1..])
  }

  /** One character of a string's inside, and the rest. */
  function ReadChar(s: string): (r: Option<(char, string)>)
    ensures r.Some? ==> |r.value.1| < |s|
  {
    if s == "" || s[0] < ' ' || s[0] == '"' then None
    else if s[0] != '\\' then Some((s[0], s[1..]))
    else if |s| < 2 then None
    else if s[1] == 'u' then ReadUnicode(s[2..])
    else
      match ReadShort(s[1])
      case None => None
      case Some(c) => Some((c, s[2..]))
  }

  /** After `\u`: one code unit, or two that make a pair. */
  function ReadUnicode(s: string): (r: Option<(char, string)>)
    ensures r.Some? ==> |r.value.1| < |s|
  {
    match ReadHex4(s)
    case None => None
    case Some(n) =>
      if n < 0xD800 || 0xE000 <= n < 0x10000 then Some((n as char, s[4..]))
      else if |s| < 10 || n >= 0xDC00 || s[4..6] != "\\u" then None
      else
        match ReadHex4(s[6..])
        case None => None
        case Some(m) =>
          if 0xDC00 <= m < 0xE000 then Some(((0x10000 + (n - 0xD800) * 0x400 + (m - 0xDC00)) as char, s[10..]))
          else None
  }

  /** A string's inside up to its closing quote, and what follows that. */
  function ReadString(s: string): (r: Option<(string, string)>)
    ensures r.Some? ==> |r.value.1| < |s|
    decreases |s|
  {
    if s != "" && s[0] == '"' then Some(("", s[1..]))
    else
      match ReadChar(s)
      case None => None
      case Some((c, rest)) =>
        match ReadString(rest)
        case None => None
        case Some((text, rest')) => Some(([c] + text, rest'))
  }

  function NumeralLength(s: string): (n: nat)
    ensures n <= |s| && forall k :: 0 <= k < n ==> NumeralChar(s[k])
    ensures n < |s| ==> !NumeralChar(s[n])
  {
    if s == "" || !NumeralChar(s[0]) then 0 else 1 + NumeralLength(s[1..])
  }

  /** The value `s` starts with, and the rest. */
  function Read(s: string): (r: Option<(Value, string)>)
    ensures r.Some? ==> |r.value.1| < |s|
    decreases |s|, 0
  {
    if s == "" then None
    else if s[0] == '"' then
      match ReadString(s[1..])
      case None => None
      case Some((text, rest)) => Some((Str(text), rest))
    else if s[0] == '[' then
      if |s| >= 2 && s[1] == ']' then Some((Arr([]), s[2..]))
      else
        match ReadItems(s[1..])
        case None => None
        case Some((items, rest)) => Some((Arr(items), rest))
    else if s[0] == '{' then
      if |s| >= 2 && s[1] == '}' then Some((Obj([]), s[2..]))
      else
        match ReadFields(s[1..])
        case None => None
        case Some((fields, rest)) => Some((Obj(fields), rest))
    else
      var n := NumeralLength(s);
      if n == 0 then None else Some((Num(s[..n]), s[n..]))
  }

  function ReadItems(s: string): (r: Option<(seq<Value>, string)>)
    ensures r.Some? ==> |r.value.1| < |s|
    decreases |s|, 1
  {
    match Read(s)
    case None => None
    case Some((v, rest)) =>
      if rest != "" && rest[0] == ']' then Some(([v], rest[1..]))
      else if |rest| < 2 || rest[..2] != ", " then None
      else
        match ReadItems(rest[2..])
        case None => None
        case Some((items, rest')) => Some(([v] + items, rest'))
  }

  function ReadFields(s: string): (r: Option<(seq<Field>, string)>)
    ensures r.Some? ==> |r.value.1| < |s|
    decreases |s|, 1
  {
    if s == "" || s[0] != '"' then None
    else
      match ReadString(s[1..])
      case None => None
      case Some((name, colon)) =>
        if |colon| < 2 || colon[..2] != ": " then None
        else
          match Read(colon[2..])
          case None => None
          case Some((v, rest)) =>
            if rest != "" && rest[0] == '}' then Some(([Field(name, v)], rest[1..]))
            else if |rest| < 2 || rest[..2] != ", " then None
            else
              match ReadFields(rest[2..])
              case None => None
              case Some((fields, rest')) => Some(([Field(name, v)] + fields, rest'))
  }

  /** The whole of `s` as one value. */
  function Parse(s: string): Option<Value> {
    match Read(s)
    case None => None
    case Some((v, rest)) => if rest == "" then Some(v) else None
  }

  lemma HexDigitReadsBack(d: nat)
    requires d < 16
    ensures HexValue(HexDigit(d)) == Some(d)
  {
  }

  lemma Hex4ReadsBack(n: nat, rest: string)
    requires n < 0x10000
    ensures ReadHex4(Hex4(n) + rest) == Some(n)
  {
    var a := n / 16;
    var b := a / 16;
    HexDigitReadsBack(b / 16);
    HexDigitReadsBack(b % 16);
    HexDigitReadsBack(a % 16);
    HexDigitReadsBack(n % 16);
  }

  lemma UnitReadsBack(c: char, rest: string)
    requires c as int < 0x10000
    ensures ReadUnicode(Hex4(c as int) + rest) == Some((c, rest))
  {
    Hex4ReadsBack(c as int, rest);
    assert (Hex4(c as int) + rest)[4..] == rest;
  }

  /** Reading a high unit and then a low one. */
  lemma PairReads(hi: nat, lo: nat, s: string)
    requires 0xD800 <= hi < 0xDC00 <= lo < 0xE000
    requires |s| >= 10 && ReadHex4(s) == Some(hi) && s[4..6] == "\\u" && ReadHex4(s[6..]) == Some(lo)
    ensures ReadUnicode(s) == Some(((0x10000 + (hi - 0xD800) * 0x400 + (lo - 0xDC00)) as char, s[10..]))
  {
  }

  lemma PairReadsBack(hi: nat, lo: nat, rest: string)
    requires 0xD800 <= hi < 0xDC00 <= lo < 0xE000
    ensures ReadUnicode(Hex4(hi) + (Unit(lo) + rest)) ==
            Some(((0x10000 + (hi - 0xD800) * 0x400 + (lo - 0xDC00)) as char, rest))
  {
    var s := Hex4(hi) + (Unit(lo) + rest);
    assert ReadHex4(s) == Some(hi) by { Hex4ReadsBack(hi, Unit(lo) + rest); }
    assert s[6..] == Hex4(lo) + rest;
    assert ReadHex4(s[6..]) == Some(lo) by { Hex4ReadsBack(lo, rest); }
    assert s[4..6] == "\\u" && s[10..] == rest;
    PairReads(hi, lo, s);
  }

  lemma UnicodeEscape(t: string)
    ensures ReadChar("\\u" + t) == ReadUnicode(t)
  {
    assert ("\\u" + t)[2..] == t;
  }

  lemma Reassociate(a: string, b: string, c: string)
    ensures a + b + c == a + (b + c)
  {
  }

  lemma UnitCode(s: string, c: char, rest: string)
    requires c as int < 0x10000 && s == Unit(c as int) + rest
    ensures ReadChar(s) == Some((c, rest))
  {
    Reassociate("\\u", Hex4(c as int), rest);
    UnitReadsBack(c, rest);
    UnicodeEscape(Hex4(c as int) + rest);
  }

  lemma PairCode(s: string, v: nat, rest: string)
    requires v < 0x100000 && s == Pair(v) + rest
    ensures ReadChar(s) == Some(((0x10000 + v) as char, rest))
  {
    var hi, lo := 0xD800 + v / 0x400, 0xDC00 + v % 0x400;
    var t := Unit(lo) + rest;
    assert s == "\\u" + (Hex4(hi) + t) by {
      Reassociate(Unit(hi), Unit(lo), rest);
      Reassociate("\\u", Hex4(hi), t);
    }
    PairReadsBack(hi, lo, rest);
    UnicodeEscape(Hex4(hi) + t);
  }

  lemma ShortReadsBack(s: string, c: char, rest: string)
    requires ShortEscape(c).Some? && s == ['\\', ShortEscape(c).value] + rest
    ensures ReadChar(s) == Some((c, rest))
  {
    assert s[2..] == rest && s[0] == '\\' && s[1] == ShortEscape(c).value;
  }

  lemma PrintableReadsBack(s: string, c: char, rest: string)
    requires ShortEscape(c).None? && ' ' <= c <= '~' && s == [c] + rest
    ensures ReadChar(s) == Some((c, rest))
  {
    assert s[0] == c && s[1..] == rest;
  }

  lemma EscapeStarts(c: char)
    ensures EscapeChar(c) != "" && EscapeChar(c)[0] != '"'
  {
  }

  lemma WideReadsBack(s: string, c: char, rest: string)
    requires ShortEscape(c).None? && !(' ' <= c <= '~') && s == EscapeChar(c) + rest
    ensures ReadChar(s) == Some((c, rest))
  {
    if c as int < 0x10000 { UnitCode(s, c, rest); } else { PairCode(s, c as int - 0x10000, rest); }
  }

  lemma CharReadsBack(c: char, rest: string)
    ensures ReadChar(EscapeChar(c) + rest) == Some((c, rest))
    ensures EscapeChar(c) != "" && EscapeChar(c)[0] != '"'
  {
    EscapeStarts(c);
    if ShortEscape(c).Some? {
      ShortReadsBack(EscapeChar(c) + rest, c, rest);
    } else if ' ' <= c <= '~' {
      PrintableReadsBack(EscapeChar(c) + rest, c, rest);
    } else {
      WideReadsBack(EscapeChar(c) + rest, c, rest);
    }
  }

  lemma {:induction false} StringReadsBack(s: string, rest: string)
    ensures ReadString(Escape(s) + "\"" + rest) == Some((s, rest))
  {
    if s == "" {
      assert Escape(s) + "\"" + rest == "\"" + rest;
    } else {
      var tail := Escape(s[1..]) + "\"" + rest;
      assert Escape(s) + "\"" + rest == EscapeChar(s[0]) + tail;
      CharReadsBack(s[0], tail);
      StringReadsBack(s[1..], rest);
      assert [s[0]] + s[1..] == s;
    }
  }

  /** What `Read` may be given after a value: not more of a number. */
  predicate Ends(rest: string) {
    rest == "" || !NumeralChar(rest[0])
  }

  lemma {:induction false} NumeralLengthOf(n: Numeral, rest: string)
    requires Ends(rest)
    ensures NumeralLength(n + rest) == |n|
  {
    assert (n + rest)[1..] == n[1..] + rest;
    if |n| > 1 {
      NumeralLengthOf(n[1..], rest);
    } else {
      assert n[1..] + rest == rest;
    }
  }

  lemma QuotedReadsBack(text: string, rest: string)
    ensures Read(Quoted(text) + rest) == Some((Str(text), rest))
  {
    assert (Quoted(text) + rest)[1..] == Escape(text) + "\"" + rest;
    StringReadsBack(text, rest);
  }

  lemma NumeralReadsBack(n: Numeral, rest: string)
    requires Ends(rest)
    ensures Read(n + rest) == Some((Num(n), rest))
  {
    NumeralLengthOf(n, rest);
    assert (n + rest)[..|n|] == n && (n + rest)[|n|..] == rest;
    assert NumeralChar((n + rest)[0]);
  }

  lemma ArrayReads(items: seq<Value>, inside: string, rest: string)
    requires ReadItems(inside) == Some((items, rest)) && inside != "" && inside[0] != ']'
    ensures Read("[" + inside) == Some((Arr(items), rest))
  {
    assert ("[" + inside)[1..] == inside;
  }

  lemma ObjectReads(fields: seq<Field>, inside: string, rest: string)
    requires ReadFields(inside) == Some((fields, rest)) && inside != "" && inside[0] != '}'
    ensures Read("{" + inside) == Some((Obj(fields), rest))
  {
    assert ("{" + inside)[1..] == inside;
  }

  /** Reading back what was printed gives the value, and leaves what follows it. */
  lemma {:induction false} ValueReadsBack(v: Value, rest: string)
    requires Ends(rest)
    ensures Read(Print(v) + rest) == Some((v, rest))
    decreases v, 0
  {
    match v
    case Str(text) => QuotedReadsBack(text, rest);
    case Num(numeral) => NumeralReadsBack(numeral, rest);
    case Arr(items) =>
      if items == [] {
        assert Print(v) + rest == "[]" + rest && ("[]" + rest)[2..] == rest;
      } else {
        ItemsReadBack(items, rest);
        ArrayReads(items, PrintItems(items) + "]" + rest, rest);
        Reassociate("[", PrintItems(items), "]");
        Reassociate("[", PrintItems(items) + "]", rest);
      }
    case Obj(fields) =>
      if fields == [] {
        assert Print(v) + rest == "{}" + rest && ("{}" + rest)[2..] == rest;
      } else {
        FieldsReadBack(fields, rest);
        ObjectReads(fields, PrintFields(fields) + "}" + rest, rest);
        Reassociate("{", PrintFields(fields), "}");
        Reassociate("{", PrintFields(fields) + "}", rest);
      }
  }

  lemma PrintStarts(v: Value)
    ensures Print(v) != "" && Print(v)[0] != ']' && Print(v)[0] != '}'
  {
    if v.Num? {
      assert NumeralChar(v.numeral[0]);
    }
  }

  lemma MoreItems(v: Value, items: seq<Value>, s: string, tail: string, rest: string)
    requires Read(s) == Some((v, ", " + tail)) && ReadItems(tail) == Some((items, rest))
    ensures ReadItems(s) == Some(([v] + items, rest))
  {
    assert (", " + tail)[..2] == ", " && (", " + tail)[2..] == tail;
  }

  lemma ItemsText(items: seq<Value>, rest: string)
    requires |items| > 1
    ensures PrintItems(items) + "]" + rest == Print(items[0]) + (", " + (PrintItems(items[1..]) + "]" + rest))
  {
    var first, more, end := Print(items[0]), PrintItems(items[1..]), "]" + rest;
    Reassociate(first + ", ", more, end);
    Reassociate(first, ", ", more + end);
    Reassociate(PrintItems(items), "]", rest);
    Reassociate(more, "]", rest);
  }

  lemma {:induction false} ItemsReadBack(items: seq<Value>, rest: string)
    requires items != []
    ensures ReadItems(PrintItems(items) + "]" + rest) == Some((items, rest))
    ensures PrintItems(items) != "" && PrintItems(items)[0] != ']'
    decreases items, 1
  {
    PrintStarts(items[0]);
    assert [items[0]] + items[1..] == items;
    if |items| == 1 {
      assert PrintItems(items) == Print(items[0]) + "" + PrintItems(items[1..]);
      assert PrintItems(items) + "]" + rest == Print(items[0]) + ("]" + rest);
      assert ("]" + rest)[1..] == rest && [items[0]] == items;
      ValueReadsBack(items[0], "]" + rest);
    } else {
      var tail := PrintItems(items[1..]) + "]" + rest;
      assert PrintItems(items) + "]" + rest == Print(items[0]) + (", " + tail) by { ItemsText(items, rest); }
      ValueReadsBack(items[0], ", " + tail);
      ItemsReadBack(items[1..], rest);
      MoreItems(items[0], items[1..], PrintItems(items) + "]" + rest, tail, rest);
    }
  }

  /** A name, its colon and its value, read before `after`. */
  function FieldThen(f: Field, after: string): string {
    "\"" + (Escape(f.name) + "\"" + (": " + (Print(f.value) + after)))
  }

  lemma FieldReads(f: Field, after: string)
    requires Read(Print(f.value) + after) == Some((f.value, after))
    ensures var s := FieldThen(f, after);
            && s[0] == '"'
            && ReadString(s[1..]) == Some((f.name, ": " + (Print(f.value) + after)))
            && (": " + (Print(f.value) + after))[..2] == ": "
            && (": " + (Print(f.value) + after))[2..] == Print(f.value) + after
  {
    var colon := ": " + (Print(f.value) + after);
    assert FieldThen(f, after)[1..] == Escape(f.name) + "\"" + colon;
    StringReadsBack(f.name, colon);
  }

  lemma FieldText(f: Field, more: string, end: string)
    ensures Quoted(f.name) + ": " + Print(f.value) + more + end == FieldThen(f, more + end)
  {
    var name, value := Escape(f.name), Print(f.value);
    assert "\"" + name + "\"" + ": " + value + more + end == "\"" + (name + "\"" + (": " + (value + (more + end))));
  }

  lemma MoreFields(f: Field, fields: seq<Field>, tail: string, rest: string)
    requires Read(Print(f.value) + (", " + tail)) == Some((f.value, ", " + tail))
    requires ReadFields(tail) == Some((fields, rest))
    ensures ReadFields(FieldThen(f, ", " + tail)) == Some(([f] + fields, rest))
  {
    FieldReads(f, ", " + tail);
    assert (", " + tail)[..2] == ", " && (", " + tail)[2..] == tail;
  }

  lemma OneFieldText(f: Field, rest: string)
    ensures PrintFields([f]) + "}" + rest == FieldThen(f, "}" + rest)
  {
    FieldText(f, "}", rest);
    assert PrintFields([f]) == Quoted(f.name) + ": " + Print(f.value) + "" + PrintFields([]);
    assert PrintFields([f]) == Quoted(f.name) + ": " + Print(f.value);
  }

  lemma LastField(f: Field, rest: string)
    requires Read(Print(f.value) + ("}" + rest)) == Some((f.value, "}" + rest))
    ensures ReadFields(FieldThen(f, "}" + rest)) == Some(([f], rest))
  {
    FieldReads(f, "}" + rest);
  }

  lemma FieldsText(fields: seq<Field>, rest: string)
    requires |fields| > 1
    ensures PrintFields(fields) + "}" + rest == FieldThen(fields[0], ", " + (PrintFields(fields[1..]) + "}" + rest))
  {
    var f, more, end := fields[0], PrintFields(fields[1..]), "}" + rest;
    FieldText(f, ", " + more, end);
    Reassociate(", ", more, end);
    Reassociate(more, "}", rest);
    Reassociate(Quoted(f.name) + ": " + Print(f.value), ", ", more);
    Reassociate(PrintFields(fields), "}", rest);
  }

  lemma {:induction false} FieldsReadBack(fields: seq<Field>, rest: string)
    requires fields != []
    ensures ReadFields(PrintFields(fields) + "}" + rest) == Some((fields, rest))
    ensures PrintFields(fields) != "" && PrintFields(fields)[0] == '"'
    decreases fields, 1
  {
    if |fields| == 1 {
      ValueReadsBack(fields[0].value, "}" + rest);
      LastField(fields[0], rest);
      OneFieldText(fields[0], rest);
      assert [fields[0]] == fields;
    } else {
      var tail := PrintFields(fields[1..]) + "}" + rest;
      assert PrintFields(fields) + "}" + rest == FieldThen(fields[0], ", " + tail) by { FieldsText(fields, rest); }
      ValueReadsBack(fields[0].value, ", " + tail);
      FieldsReadBack(fields[1..], rest);
      MoreFields(fields[0], fields[1..], tail, rest);
      assert [fields[0]] + fields[1..] == fields;
    }
  }

  lemma PrintedParses(v: Value)
    ensures Parse(Print(v)) == Some(v)
  {
    ValueReadsBack(v, "");
    assert Print(v) + "" == Print(v);
  }

  lemma {:induction false} EscapeIsPlain(s: string)
    ensures Plain(Escape(s))
  {
    if s != "" {
      EscapeIsPlain(s[1..]);
      assert Plain(EscapeChar(s[0]));
    }
  }

  lemma {:induction false} PrintIsPlain(v: Value)
    ensures Plain(Print(v))
    decreases v, 0
  {
    match v
    case Str(text) => EscapeIsPlain(text);
    case Num(numeral) =>
    case Arr(items) => ItemsArePlain(items);
    case Obj(fields) => FieldsArePlain(fields);
  }

  lemma PlainConcat(a: string, b: string, c: string, d: string)
    requires Plain(a) && Plain(b) && Plain(c) && Plain(d)
    ensures Plain(a + b + c + d)
  {
  }

  lemma {:induction false} ItemsArePlain(items: seq<Value>)
    ensures Plain(PrintItems(items))
    decreases items, 1
  {
    if items != [] {
      PrintIsPlain(items[0]);
      ItemsArePlain(items[1..]);
      PlainConcat("", Print(items[0]), if |items| == 1 then "" else ", ", PrintItems(items[1..]));
    }
  }

  lemma {:induction false} FieldsArePlain(fields: seq<Field>)
    ensures Plain(PrintFields(fields))
    decreases fields, 1
  {
    if fields != [] {
      var f := fields[0];
      EscapeIsPlain(f.name);
      PrintIsPlain(f.value);
      FieldsArePlain(fields[1..]);
      PlainConcat("\"", Escape(f.name), "\"", ": ");
      PlainConcat(Quoted(f.name) + ": ", Print(f.value), if |fields| == 1 then "" else ", ", PrintFields(fields[1..]));
    }
  }

  lemma CharExtends(s: string, t: string)
    requires ReadChar(s).Some?
    ensures ReadChar(s + t) == Some((ReadChar(s).value.0, ReadChar(s).value.1 + t))
  {
    if s[0] == '\\' {
      assert (s + t)[2..] == s[2..] + t;
      if s[1] == 'u' {
        UnicodeExtends(s[2..], t);
      }
    } else {
      assert (s + t)[1..] == s[1..] + t;
    }
  }

  lemma UnicodeExtends(s: string, t: string)
    requires ReadUnicode(s).Some?
    ensures ReadUnicode(s + t) == Some((ReadUnicode(s).value.0, ReadUnicode(s).value.1 + t))
  {
    assert ReadHex4(s + t) == ReadHex4(s);
    var n := ReadHex4(s).value;
    if n < 0xD800 || 0xE000 <= n {
      assert (s + t)[4..] == s[4..] + t;
    } else {
      assert (s + t)[6..] == s[6..] + t && (s + t)[10..] == s[10..] + t && (s + t)[4..6] == s[4..6];
      assert ReadHex4(s[6..] + t) == ReadHex4(s[6..]);
    }
  }

  lemma {:induction false} StringExtends(s: string, t: string)
    requires ReadString(s).Some?
    ensures ReadString(s + t) == Some((ReadString(s).value.0, ReadString(s).value.1 + t))
    decreases |s|
  {
    if s[0] == '"' {
      assert (s + t)[1..] == s[1..] + t;
    } else {
      CharExtends(s, t);
      StringExtends(ReadChar(s).value.1, t);
    }
  }

  lemma {:induction false} NumeralLengthExtends(s: string, t: string)
    requires NumeralLength(s) < |s|
    ensures NumeralLength(s + t) == NumeralLength(s)
  {
    if NumeralChar(s[0]) {
      assert (s + t)[1..] == s[1..] + t;
      NumeralLengthExtends(s[1..], t);
    }
  }

  /** A value that was read whole is read the same whatever text follows; only a number can go on. */
  lemma {:induction false} ReadExtends(s: string, t: string)
    requires Read(s).Some? && (Read(s).value.1 != "" || !Read(s).value.0.Num?)
    ensures Read(s + t) == Some((Read(s).value.0, Read(s).value.1 + t))
    decreases |s|, 0
  {
    assert (s + t)[1..] == s[1..] + t;
    if s[0] == '"' {
      StringExtends(s[1..], t);
    } else if s[0] == '[' {
      if s[1] == ']' { assert (s + t)[2..] == s[2..] + t; } else { ItemsExtend(s[1..], t); }
    } else if s[0] == '{' {
      if s[1] == '}' { assert (s + t)[2..] == s[2..] + t; } else { FieldsExtend(s[1..], t); }
    } else {
      var n := NumeralLength(s);
      NumeralLengthExtends(s, t);
      assert (s + t)[..n] == s[..n] && (s + t)[n..] == s[n..] + t;
    }
  }

  lemma {:induction false} ItemsExtend(s: string, t: string)
    requires ReadItems(s).Some?
    ensures ReadItems(s + t) == Some((ReadItems(s).value.0, ReadItems(s).value.1 + t))
    decreases |s|, 1
  {
    ReadExtends(s, t);
    var rest := Read(s).value.1;
    assert (rest + t)[1..] == rest[1..] + t;
    if rest[0] != ']' {
      assert (rest + t)[..2] == rest[..2] && (rest + t)[2..] == rest[2..] + t;
      ItemsExtend(rest[2..], t);
    }
  }

  /** What an object's fields are once one field and the text after it are read. */
  function FieldsAfter(name: string, v: Value, rest: string): Option<(seq<Field>, string)> {
    if rest != "" && rest[0] == '}' then Some(([Field(name, v)], rest[1..]))
    else if |rest| < 2 || rest[..2] != ", " then None
    else
      match ReadFields(rest[2..])
      case None => None
      case Some((fields, rest')) => Some(([Field(name, v)] + fields, rest'))
  }

  lemma FieldsFrom(s: string, name: string, colon: string, v: Value, rest: string)
    requires s != "" && s[0] == '"' && ReadString(s[1..]) == Some((name, colon))
    requires |colon| >= 2 && colon[..2] == ": " && Read(colon[2..]) == Some((v, rest))
    ensures ReadFields(s) == FieldsAfter(name, v, rest)
  {
  }

  lemma FieldHeadExtends(s: string, t: string)
    requires s != "" && ReadString(s[1..]).Some?
    ensures ReadString((s + t)[1..]) == Some((ReadString(s[1..]).value.0, ReadString(s[1..]).value.1 + t))
  {
    assert (s + t)[1..] == s[1..] + t;
    StringExtends(s[1..], t);
  }

  lemma {:induction false} FieldsAfterExtend(name: string, v: Value, rest: string, t: string)
    requires FieldsAfter(name, v, rest).Some?
    ensures FieldsAfter(name, v, rest + t) ==
            Some((FieldsAfter(name, v, rest).value.0, FieldsAfter(name, v, rest).value.1 + t))
    decreases |rest|, 0
  {
    if rest[0] == '}' {
      assert (rest + t)[1..] == rest[1..] + t;
    } else {
      assert (rest + t)[..2] == rest[..2] && (rest + t)[2..] == rest[2..] + t;
      FieldsExtend(rest[2..], t);
    }
  }

  lemma {:induction false} FieldsExtend(s: string, t: string)
    requires ReadFields(s).Some?
    ensures ReadFields(s + t) == Some((ReadFields(s).value.0, ReadFields(s).value.1 + t))
    decreases |s|, 1
  {
    var (name, colon) := ReadString(s[1..]).value;
    var (v, rest) := Read(colon[2..]).value;
    FieldHeadExtends(s, t);
    assert (colon + t)[..2] == colon[..2] && (colon + t)[2..] == colon[2..] + t;
    ReadExtends(colon[2..], t);
    FieldsFrom(s, name, colon, v, rest);
    FieldsFrom(s + t, name, colon + t, v, rest + t);
    FieldsAfterExtend(name, v, rest, t);
  }

  lemma WholeTextReads(v: Value)
    ensures Read(Print(v)) == Some((v, ""))
  {
    ValueReadsBack(v, "");
    assert Print(v) + "" == Print(v);
  }

  lemma BeginningIsAll(s: string, t: string, v: Value)
    requires !v.Num? && s != "" && s + t == Print(v) && Read(s).Some? && Read(s).value.1 == ""
    ensures t == ""
  {
    WholeTextReads(v);
    FirstCharDecides(s, v);
    ReadExtends(s, t);
  }

  /** No proper beginning of a printed array, object or string is itself a value. */
  lemma NoValueInsideAnother(v: Value, cut: nat)
    requires !v.Num? && cut < |Print(v)|
    ensures Parse(Print(v)[..cut]).None?
  {
    var s, t := Print(v)[..cut], Print(v)[cut..];
    assert s + t == Print(v);
    if Parse(s).Some? {
      BeginningIsAll(s, t, v);
    }
  }

  lemma FirstCharDecides(s: string, v: Value)
    requires !v.Num? && s != "" && s[0] == Print(v)[0] && Read(s).Some?
    ensures !Read(s).value.0.Num?
  {
  }
}
