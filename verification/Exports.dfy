/**
 A table's two exports (apps/web/components/chat/DataTable.tsx) beside readers
 written from the formats: comma-separated values with the quoting rules of
 section 2 of RFC 4180 and a line feed between records, and pasted
 tab-separated text in which a field led by a quote is a quoted field. Whether
 a cell reads as a number is a parameter.
 */
module Exports {
  import opened Wrappers
  import opened JsText
  import opened DataTables

  datatype Format = Csv | Tsv

  function Separator(f: Format): char {
    match f case Csv => ',' case Tsv => '\t'
  }

  // ------------------------------------------------------------------ the printers

  predicate Starts(c: char) {
    c == '=' || c == '+' || c == '-' || c == '@'
  }

  /** A cell a spreadsheet would take for a formula is turned into text by an apostrophe. */
  function Inert(isNumber: string -> bool, c: Cell): Cell {
    if Trim(c) != "" && Starts(Trim(c)[0]) && !isNumber(c) then "'" + c else c
  }

  predicate Breaks(c: char) {
    c == '\t' || c == '\n' || c == '\r'
  }

  /** Each run of tabs and line breaks becomes one space. */
  function Flatten(c: Cell): Cell {
    if c == "" then ""
    else if !Breaks(c[0]) then [c[0]] + Flatten(c[1..])
    else if |c| > 1 && Breaks(c[1]) then Flatten(c[1..])
    else " " + Flatten(c[1..])
  }

  function Doubled(c: Cell): Cell {
    if c == "" then "" else (if c[0] == '"' then "\"\"" else [c[0]]) + Doubled(c[1..])
  }

  function Quoted(c: Cell): string {
    "\"" + Doubled(c) + "\""
  }

  predicate QuoteLed(c: Cell) {
    c != "" && (c[0] == '"' || (IsSpace(c[0]) && QuoteLed(c[1..])))
  }

  predicate NeedsQuotes(c: Cell) {
    c != "" && (c[0] == '"' || c[0] == ',' || c[0] == '\r' || c[0] == '\n' || NeedsQuotes(c[1..]))
  }

  /** The cell an export stands for: after the apostrophe, and for the clipboard after flattening. */
  function Shown(f: Format, isNumber: string -> bool, raw: Cell): Cell {
    match f
    case Csv => Inert(isNumber, raw)
    case Tsv => Inert(isNumber, Flatten(raw))
  }

  function Field(f: Format, c: Cell): string {
    match f
    case Csv => if NeedsQuotes(c) then Quoted(c) else c
    case Tsv => if QuoteLed(c) then Quoted(c) else c
  }

  function Line(f: Format, isNumber: string -> bool, r: Record): string {
    if r == [] then ""
    else if |r| == 1 then Field(f, Shown(f, isNumber, r[0]))
    else Field(f, Shown(f, isNumber, r[0])) + [Separator(f)] + Line(f, isNumber, r[1..])
  }

  function Lines(f: Format, isNumber: string -> bool, rows: seq<Record>): string {
    if rows == [] then ""
    else if |rows| == 1 then Line(f, isNumber, rows[0])
    else Line(f, isNumber, rows[0]) + "\n" + Lines(f, isNumber, rows[1..])
  }

  /** `toCsv` and `toTsv`. */
  function Export(f: Format, isNumber: string -> bool, header: Record, rows: seq<Record>): string {
    Lines(f, isNumber, [header] + rows)
  }

  // ------------------------------------------------------------------ the readers

  predicate Ends(f: Format, s: string) {
    s == "" || s[0] == Separator(f) || s[0] == '\n'
  }

  /** Inside quotes: a doubled quote is one, a single quote closes the field. */
  function ReadQuoted(s: string): (r: Option<(Cell, string)>)
    ensures r.Some? ==> |r.value.1| < |s|
  {
    if s == "" then None
    else if s[0] == '"' then
      if |s| > 1 && s[1] == '"' then
        var rest := ReadQuoted(s[2..]);
        if rest.None? then None else Some(("\"" + rest.value.0, rest.value.1))
      else Some(("", s[1..]))
    else
      var rest := ReadQuoted(s[1..]);
      if rest.None? then None else Some(([s[0]] + rest.value.0, rest.value.1))
  }

  /** Up to the next separator; bare quotes and carriage returns have no place in a plain CSV field. */
  function ReadPlain(f: Format, s: string): (r: Option<(Cell, string)>)
    ensures r.Some? ==> |r.value.1| <= |s| && Ends(f, r.value.1)
  {
    if Ends(f, s) then Some(("", s))
    else if f.Csv? && (s[0] == '"' || s[0] == '\r') then None
    else
      var rest := ReadPlain(f, s[1..]);
      if rest.None? then None else Some(([s[0]] + rest.value.0, rest.value.1))
  }

  function SkipBlanks(s: string): (r: string)
    ensures |r| <= |s|
  {
    if s != "" && IsSpace(s[0]) && !Breaks(s[0]) then SkipBlanks(s[1..]) else s
  }

  /** The text after a field's opening quote, if it has one. */
  function Opened(f: Format, s: string): (r: Option<string>)
    ensures r.Some? ==> |r.value| < |s|
  {
    var t := if f.Tsv? then SkipBlanks(s) else s;
    if t != "" && t[0] == '"' then Some(t[1..]) else None
  }

  function ReadField(f: Format, s: string): (r: Option<(Cell, string)>)
    ensures r.Some? ==> |r.value.1| <= |s| && Ends(f, r.value.1)
  {
    match Opened(f, s)
    case None => ReadPlain(f, s)
    case Some(inner) =>
      var q := ReadQuoted(inner);
      if q.None? || !Ends(f, q.value.1) then None else q
  }

  function Joined(c: Cell, rest: Option<seq<Record>>): Option<seq<Record>> {
    if rest.None? || rest.value == [] then None else Some([[c] + rest.value[0]] + rest.value[1..])
  }

  function Under(c: Cell, rest: Option<seq<Record>>): Option<seq<Record>> {
    if rest.None? then None else Some([[c]] + rest.value)
  }

  function ReadRecords(f: Format, s: string): Option<seq<Record>>
    decreases |s|
  {
    var field := ReadField(f, s);
    if field.None? then None
    else
      var (c, rest) := field.value;
      if rest == "" then Some([[c]])
      else if rest[0] == Separator(f) then Joined(c, ReadRecords(f, rest[1..]))
      else Under(c, ReadRecords(f, rest[1..]))
  }

  // ------------------------------------------------------------------ one field

  lemma QuotedChar(c: char, tail: string, read: (Cell, string))
    requires ReadQuoted(tail) == Some(read)
    ensures ReadQuoted((if c == '"' then "\"\"" else [c]) + tail) == Some(([c] + read.0, read.1))
  {
    if c == '"' {
      assert ("\"\"" + tail)[2..] == tail;
    } else {
      assert ([c] + tail)[1..] == tail;
    }
  }

  lemma {:induction false} QuotedReadsBack(c: Cell, rest: string)
    requires rest == "" || rest[0] != '"'
    ensures ReadQuoted(Doubled(c) + ("\"" + rest)) == Some((c, rest))
  {
    var close := "\"" + rest;
    if c == "" {
      assert Doubled(c) + close == close;
      assert close[1..] == rest;
    } else {
      QuotedReadsBack(c[1..], rest);
      QuotedChar(c[0], Doubled(c[1..]) + close, (c[1..], rest));
      DoubledSplit(c, close);
      assert [c[0]] + c[1..] == c;
    }
  }

  lemma DoubledSplit(c: Cell, close: string)
    requires c != ""
    ensures Doubled(c) + close == (if c[0] == '"' then "\"\"" else [c[0]]) + (Doubled(c[1..]) + close)
  {
  }

  predicate PlainChar(f: Format, c: char) {
    c != Separator(f) && c != '\n' && (f.Csv? ==> c != '"' && c != '\r')
  }

  predicate Plain(f: Format, c: Cell) {
    forall i :: 0 <= i < |c| ==> PlainChar(f, c[i])
  }

  lemma {:induction false} PlainReadsBack(f: Format, c: Cell, rest: string)
    requires Plain(f, c) && Ends(f, rest)
    ensures ReadPlain(f, c + rest) == Some((c, rest))
  {
    if c == "" {
      assert c + rest == rest;
    } else {
      assert PlainChar(f, c[0]);
      assert Plain(f, c[1..]) by {
        forall i | 0 <= i < |c[1..]|
          ensures PlainChar(f, c[1..][i])
        {
          assert PlainChar(f, c[i + 1]);
        }
      }
      PlainReadsBack(f, c[1..], rest);
      assert (c + rest)[1..] == c[1..] + rest;
      assert [c[0]] + c[1..] == c;
    }
  }

  lemma {:induction false} UnquotedIsPlain(c: Cell)
    requires !NeedsQuotes(c)
    ensures Plain(Csv, c)
  {
    if c != "" {
      UnquotedIsPlain(c[1..]);
      forall i | 0 <= i < |c|
        ensures PlainChar(Csv, c[i])
      {
        if i > 0 { assert PlainChar(Csv, c[1..][i - 1]); }
      }
    }
  }

  /** No blanks lead a plain pasted field to a quote. */
  lemma {:induction false} NotOpened(c: Cell, rest: string)
    requires !QuoteLed(c) && Plain(Tsv, c) && Ends(Tsv, rest)
    ensures SkipBlanks(c + rest) == "" || SkipBlanks(c + rest)[0] != '"'
  {
    if c == "" {
      assert c + rest == rest;
    } else if IsSpace(c[0]) && !Breaks(c[0]) {
      assert (c + rest)[1..] == c[1..] + rest;
      forall i | 0 <= i < |c[1..]|
        ensures PlainChar(Tsv, c[1..][i])
      {
        assert PlainChar(Tsv, c[i + 1]);
      }
      NotOpened(c[1..], rest);
    }
  }

  lemma QuotedFieldReadsBack(f: Format, c: Cell, rest: string)
    requires Ends(f, rest)
    ensures ReadField(f, Quoted(c) + rest) == Some((c, rest))
  {
    var inner := Doubled(c) + ("\"" + rest);
    assert Quoted(c) + rest == "\"" + inner;
    assert ("\"" + inner)[1..] == inner;
    QuotedReadsBack(c, rest);
  }

  lemma PlainFieldReadsBack(f: Format, c: Cell, rest: string)
    requires Plain(f, c) && (f.Tsv? ==> !QuoteLed(c)) && Ends(f, rest)
    ensures ReadField(f, c + rest) == Some((c, rest))
  {
    if f.Tsv? {
      NotOpened(c, rest);
    } else if c != "" {
      assert PlainChar(Csv, c[0]);
    }
    PlainReadsBack(f, c, rest);
  }

  /** A printed field followed by a separator, or by nothing, reads back as its cell. */
  lemma FieldReadsBack(f: Format, c: Cell, rest: string)
    requires f.Tsv? ==> Plain(Tsv, c)
    requires Ends(f, rest)
    ensures ReadField(f, Field(f, c) + rest) == Some((c, rest))
  {
    if (if f.Csv? then NeedsQuotes(c) else QuoteLed(c)) {
      QuotedFieldReadsBack(f, c, rest);
    } else {
      if f.Csv? { UnquotedIsPlain(c); }
      PlainFieldReadsBack(f, c, rest);
    }
  }

  lemma {:induction false} FlattenedIsPlain(c: Cell)
    ensures Plain(Tsv, Flatten(c)) && forall i :: 0 <= i < |Flatten(c)| ==> !Breaks(Flatten(c)[i])
  {
    if c != "" {
      FlattenedIsPlain(c[1..]);
    }
  }

  lemma ShownIsPlain(isNumber: string -> bool, raw: Cell)
    ensures Plain(Tsv, Shown(Tsv, isNumber, raw))
  {
    FlattenedIsPlain(raw);
  }

  // ------------------------------------------------------------------ whole tables

  function ShownRow(f: Format, isNumber: string -> bool, r: Record): (s: Record)
    ensures |s| == |r| && forall i :: 0 <= i < |r| ==> s[i] == Shown(f, isNumber, r[i])
  {
    seq(|r|, i requires 0 <= i < |r| => Shown(f, isNumber, r[i]))
  }

  function ShownRows(f: Format, isNumber: string -> bool, rows: seq<Record>): (s: seq<Record>)
    ensures |s| == |rows| && forall i :: 0 <= i < |rows| ==> s[i] == ShownRow(f, isNumber, rows[i])
  {
    seq(|rows|, i requires 0 <= i < |rows| => ShownRow(f, isNumber, rows[i]))
  }

  /** What reading `after`, if anything follows, gives under a record. */
  function Following(f: Format, after: Option<string>): Option<seq<Record>> {
    if after.None? then Some([]) else ReadRecords(f, after.value)
  }

  function Tail(after: Option<string>): string {
    if after.None? then "" else "\n" + after.value
  }

  function Onward(f: Format, c: Cell, rest: string): Option<seq<Record>>
    requires Ends(f, rest)
  {
    if rest == "" then Some([[c]])
    else if rest[0] == Separator(f) then Joined(c, ReadRecords(f, rest[1..]))
    else Under(c, ReadRecords(f, rest[1..]))
  }

  lemma FieldFirst(f: Format, c: Cell, rest: string, text: string)
    requires f.Tsv? ==> Plain(Tsv, c)
    requires Ends(f, rest) && text == Field(f, c) + rest
    ensures ReadRecords(f, text) == Onward(f, c, rest)
  {
    FieldReadsBack(f, c, rest);
  }

  lemma CellFirst(f: Format, isNumber: string -> bool, raw: Cell, rest: string, text: string)
    requires Ends(f, rest) && text == Field(f, Shown(f, isNumber, raw)) + rest
    ensures ReadRecords(f, text) == Onward(f, Shown(f, isNumber, raw), rest)
  {
    if f.Tsv? { ShownIsPlain(isNumber, raw); }
    FieldFirst(f, Shown(f, isNumber, raw), rest, text);
  }

  lemma LastCell(f: Format, isNumber: string -> bool, raw: Cell, after: Option<string>)
    requires Following(f, after).Some?
    ensures ReadRecords(f, Line(f, isNumber, [raw]) + Tail(after)) ==
            Some([[Shown(f, isNumber, raw)]] + Following(f, after).value)
  {
    var rest := Tail(after);
    CellFirst(f, isNumber, raw, rest, Line(f, isNumber, [raw]) + rest);
    var c := Shown(f, isNumber, raw);
    if after.Some? {
      assert rest[1..] == after.value;
    } else {
      assert [[c]] + [] == [[c]];
    }
  }

  lemma {:induction false} LineReadsBack(f: Format, isNumber: string -> bool, r: Record, after: Option<string>)
    requires r != [] && Following(f, after).Some?
    ensures ReadRecords(f, Line(f, isNumber, r) + Tail(after)) ==
            Some([ShownRow(f, isNumber, r)] + Following(f, after).value)
  {
    if |r| == 1 {
      LastCell(f, isNumber, r[0], after);
      assert r == [r[0]];
      assert ShownRow(f, isNumber, r) == [Shown(f, isNumber, r[0])];
    } else {
      LineReadsBack(f, isNumber, r[1..], after);
      MoreCells(f, isNumber, r, after, Line(f, isNumber, r[1..]) + Tail(after));
    }
  }

  lemma LineSplit(f: Format, isNumber: string -> bool, r: Record, tail: string, more: string)
    requires |r| > 1 && more == Line(f, isNumber, r[1..]) + tail
    ensures Line(f, isNumber, r) + tail == Field(f, Shown(f, isNumber, r[0])) + ([Separator(f)] + more)
  {
    Reassociate(Field(f, Shown(f, isNumber, r[0])), [Separator(f)], Line(f, isNumber, r[1..]), tail);
  }

  lemma JoinedRow(c: Cell, row: Record, below: seq<Record>)
    ensures Joined(c, Some([row] + below)) == Some([[c] + row] + below)
  {
    assert ([row] + below)[1..] == below;
  }

  lemma ShownRowSplit(f: Format, isNumber: string -> bool, r: Record)
    requires r != []
    ensures ShownRow(f, isNumber, r) == [Shown(f, isNumber, r[0])] + ShownRow(f, isNumber, r[1..])
  {
  }

  lemma MoreCells(f: Format, isNumber: string -> bool, r: Record, after: Option<string>, more: string)
    requires |r| > 1 && Following(f, after).Some?
    requires more == Line(f, isNumber, r[1..]) + Tail(after)
    requires ReadRecords(f, more) == Some([ShownRow(f, isNumber, r[1..])] + Following(f, after).value)
    ensures ReadRecords(f, Line(f, isNumber, r) + Tail(after)) ==
            Some([ShownRow(f, isNumber, r)] + Following(f, after).value)
  {
    var c, rest := Shown(f, isNumber, r[0]), [Separator(f)] + more;
    LineSplit(f, isNumber, r, Tail(after), more);
    CellFirst(f, isNumber, r[0], rest, Line(f, isNumber, r) + Tail(after));
    OnwardInLine(f, c, more, rest);
    JoinedRow(c, ShownRow(f, isNumber, r[1..]), Following(f, after).value);
    ShownRowSplit(f, isNumber, r);
  }

  lemma OnwardInLine(f: Format, c: Cell, more: string, rest: string)
    requires rest == [Separator(f)] + more
    ensures Ends(f, rest) && Onward(f, c, rest) == Joined(c, ReadRecords(f, more))
  {
    assert rest[1..] == more;
  }

  lemma Reassociate(a: string, b: string, c: string, d: string)
    ensures a + b + c + d == a + (b + (c + d))
  {
  }

  ghost predicate AllHaveCells(rows: seq<Record>) {
    forall i :: 0 <= i < |rows| ==> rows[i] != []
  }

  lemma {:induction false} LinesReadBack(f: Format, isNumber: string -> bool, rows: seq<Record>)
    requires rows != [] && AllHaveCells(rows)
    ensures ReadRecords(f, Lines(f, isNumber, rows)) == Some(ShownRows(f, isNumber, rows))
  {
    if |rows| == 1 {
      LineReadsBack(f, isNumber, rows[0], None);
      assert Lines(f, isNumber, rows) == Line(f, isNumber, rows[0]) + Tail(None);
      assert ShownRows(f, isNumber, rows) == [ShownRow(f, isNumber, rows[0])] + [];
    } else {
      LinesReadBack(f, isNumber, rows[1..]);
      MoreLines(f, isNumber, rows, Lines(f, isNumber, rows[1..]));
    }
  }

  lemma ShownRowsSplit(f: Format, isNumber: string -> bool, rows: seq<Record>)
    requires rows != []
    ensures ShownRows(f, isNumber, rows) == [ShownRow(f, isNumber, rows[0])] + ShownRows(f, isNumber, rows[1..])
  {
  }

  lemma Regroup(a: string, b: string, c: string)
    ensures a + b + c == a + (b + c)
  {
  }

  lemma LinesSplit(f: Format, isNumber: string -> bool, rows: seq<Record>, more: string)
    requires |rows| > 1 && more == Lines(f, isNumber, rows[1..])
    ensures Lines(f, isNumber, rows) == Line(f, isNumber, rows[0]) + Tail(Some(more))
  {
    Regroup(Line(f, isNumber, rows[0]), "\n", more);
  }

  lemma MoreLines(f: Format, isNumber: string -> bool, rows: seq<Record>, more: string)
    requires |rows| > 1 && rows[0] != [] && more == Lines(f, isNumber, rows[1..])
    requires ReadRecords(f, more) == Some(ShownRows(f, isNumber, rows[1..]))
    ensures ReadRecords(f, Lines(f, isNumber, rows)) == Some(ShownRows(f, isNumber, rows))
  {
    LinesSplit(f, isNumber, rows, more);
    assert Following(f, Some(more)) == ReadRecords(f, more);
    LineReadsBack(f, isNumber, rows[0], Some(more));
    ShownRowsSplit(f, isNumber, rows);
  }

  lemma {:induction false} RecordsHaveCells(f: Format, s: string)
    requires ReadRecords(f, s).Some?
    ensures ReadRecords(f, s).value != [] && AllHaveCells(ReadRecords(f, s).value)
    decreases |s|
  {
    var (c, rest) := ReadField(f, s).value;
    if rest != "" {
      RecordsHaveCells(f, rest[1..]);
    }
  }

  /** Reading an export gives back the exported cells, exactly when every row has one. */
  lemma ExportReadsBack(f: Format, isNumber: string -> bool, header: Record, rows: seq<Record>)
    ensures ReadRecords(f, Export(f, isNumber, header, rows)) == Some(ShownRows(f, isNumber, [header] + rows))
            <==> AllHaveCells([header] + rows)
  {
    var all := [header] + rows;
    if AllHaveCells(all) {
      LinesReadBack(f, isNumber, all);
    } else if ReadRecords(f, Lines(f, isNumber, all)) == Some(ShownRows(f, isNumber, all)) {
      RecordsHaveCells(f, Lines(f, isNumber, all));
    }
  }

  // ------------------------------------------------------------------ what the exported cells are

  lemma {:induction false} TrimEndKeepsHead(s: string)
    requires s != "" && !IsSpace(s[0])
    ensures TrimEnd(s) != "" && TrimEnd(s)[0] == s[0]
  {
    if IsSpace(s[|s| - 1]) {
      TrimEndKeepsHead(s[..|s| - 1]);
    }
  }

  /** A cell that still looks like a formula after an export is a number, and was not touched. */
  lemma NoFormulaLeaves(isNumber: string -> bool, c: Cell)
    requires Trim(Inert(isNumber, c)) != "" && Starts(Trim(Inert(isNumber, c))[0])
    ensures Inert(isNumber, c) == c && isNumber(c)
  {
    TrimEndKeepsHead("'" + c);
  }

  /** No exported cell holds a formula a spreadsheet would run. */
  lemma ExportsHoldNoFormula(f: Format, isNumber: string -> bool, header: Record, rows: seq<Record>, i: nat, j: nat)
    requires i < |[header] + rows| && j < |([header] + rows)[i]|
    requires var v := ShownRows(f, isNumber, [header] + rows)[i][j]; Trim(v) != "" && Starts(Trim(v)[0])
    ensures isNumber(ShownRows(f, isNumber, [header] + rows)[i][j])
  {
    var raw := ([header] + rows)[i][j];
    NoFormulaLeaves(isNumber, if f.Csv? then raw else Flatten(raw));
  }

  /** A cell is exported as it is, or flattened, but for an apostrophe before what would start a formula. */
  lemma OnlyFormulasAreMarked(
    f: Format, isNumber: string -> bool, header: Record, rows: seq<Record>, i: nat, j: nat)
    requires i < |[header] + rows| && j < |([header] + rows)[i]|
    ensures var raw := ([header] + rows)[i][j];
            var cell := if f.Tsv? then Flatten(raw) else raw;
            var formula := Trim(cell) != "" && Trim(cell)[0] in "=+-@" && !isNumber(cell);
            ShownRows(f, isNumber, [header] + rows)[i][j] == if formula then "'" + cell else cell
  {
  }

  predicate AllBreak(c: Cell) {
    forall k :: 0 <= k < |c| ==> Breaks(c[k])
  }

  lemma {:induction false} RunIsOneSpace(run: Cell, after: Cell)
    requires run != "" && AllBreak(run) && (after != "" ==> !Breaks(after[0]))
    ensures Flatten(run + after) == " " + Flatten(after)
  {
    if |run| == 1 {
      assert (run + after)[1..] == after;
    } else {
      assert (run + after)[1..] == run[1..] + after;
      RunIsOneSpace(run[1..], after);
    }
  }

  /** What a first character adds to a flattened cell. */
  function Led(c: char, rest: Cell): string {
    if !Breaks(c) then [c] else if rest != "" && Breaks(rest[0]) then "" else " "
  }

  lemma FlattenLed(c: char, rest: Cell)
    ensures Flatten([c] + rest) == Led(c, rest) + Flatten(rest)
  {
    assert ([c] + rest)[1..] == rest;
  }

  lemma LedAlike(c: char, rest: Cell, more: Cell)
    requires rest == "" ==> !Breaks(c)
    ensures Led(c, rest + more) == Led(c, rest)
  {
  }

  lemma JoinFour(a: string, b: string, c: string, d: string)
    ensures a + (b + c + d) == (a + b) + c + d
  {
  }

  /** Flattening turns each whole run of tabs and line breaks into one space. */
  lemma {:induction false} EachRunBecomesOneSpace(before: Cell, run: Cell, after: Cell)
    requires run != "" && AllBreak(run)
    requires (before != "" ==> !Breaks(before[|before| - 1])) && (after != "" ==> !Breaks(after[0]))
    ensures Flatten(before + run + after) == Flatten(before) + " " + Flatten(after)
  {
    if before == "" {
      assert before + run + after == run + after;
      RunIsOneSpace(run, after);
    } else {
      var c, rest := before[0], before[1..];
      EachRunBecomesOneSpace(rest, run, after);
      JoinFour([c], rest, run, after);
      assert before == [c] + rest;
      assert rest + run + after == rest + (run + after);
      FlattenLed(c, rest + run + after);
      FlattenLed(c, rest);
      LedAlike(c, rest, run + after);
      JoinFour(Led(c, rest), Flatten(rest), " ", Flatten(after));
    }
  }

  /** And leaves a cell without any as it is. */
  lemma {:induction false} PlainStaysPlain(c: Cell)
    requires forall k :: 0 <= k < |c| ==> !Breaks(c[k])
    ensures Flatten(c) == c
  {
    if c != "" { PlainStaysPlain(c[1..]); }
  }

  function Solid(c: Cell): Cell {
    if c == "" then "" else (if Breaks(c[0]) || c[0] == ' ' then "" else [c[0]]) + Solid(c[1..])
  }

  lemma SolidStep(c: char, rest: Cell)
    ensures Solid([c] + rest) == (if Breaks(c) || c == ' ' then "" else [c]) + Solid(rest)
  {
    assert ([c] + rest)[1..] == rest;
  }

  /** Flattening changes nothing but tabs, line breaks and spaces. */
  lemma {:induction false} FlattenKeepsText(c: Cell)
    ensures Solid(Flatten(c)) == Solid(c)
  {
    if c != "" {
      FlattenKeepsText(c[1..]);
      SolidStep(if Breaks(c[0]) then ' ' else c[0], Flatten(c[1..]));
    }
  }

  // ------------------------------------------------------------------ a final line break

  predicate EndsInBreak(s: string) {
    s != "" && s[|s| - 1] == '\n'
  }

  lemma FieldEnd(f: Format, isNumber: string -> bool, raw: Cell)
    ensures !EndsInBreak(Field(f, Shown(f, isNumber, raw)))
    ensures Field(f, Shown(f, isNumber, raw)) == "" <==> Shown(f, isNumber, raw) == ""
  {
    var c := Shown(f, isNumber, raw);
    if f.Tsv? {
      ShownIsPlain(isNumber, raw);
      if c != "" { assert PlainChar(Tsv, c[|c| - 1]); }
    } else if !NeedsQuotes(c) {
      UnquotedIsPlain(c);
      if c != "" { assert PlainChar(Csv, c[|c| - 1]); }
    }
  }

  lemma {:induction false} LineEnd(f: Format, isNumber: string -> bool, r: Record)
    requires r != []
    ensures !EndsInBreak(Line(f, isNumber, r))
    ensures Line(f, isNumber, r) == "" <==> |r| == 1 && Shown(f, isNumber, r[0]) == ""
  {
    FieldEnd(f, isNumber, r[0]);
    if |r| > 1 {
      LineEnd(f, isNumber, r[1..]);
    }
  }

  /** An export ends in a line break exactly when its last row is one blank cell under another row. */
  lemma {:induction false} FinalBreakExactlyWhen(f: Format, isNumber: string -> bool, rows: seq<Record>)
    requires rows != [] && AllHaveCells(rows)
    ensures var last := rows[|rows| - 1];
            && (EndsInBreak(Lines(f, isNumber, rows)) <==>
                  |rows| > 1 && |last| == 1 && Shown(f, isNumber, last[0]) == "")
            && (Lines(f, isNumber, rows) == "" ==> |rows| == 1 && |last| == 1 && Shown(f, isNumber, last[0]) == "")
  {
    LineEnd(f, isNumber, rows[0]);
    if |rows| > 1 {
      FinalBreakExactlyWhen(f, isNumber, rows[1..]);
      LineEnd(f, isNumber, rows[|rows| - 1]);
    }
  }

  // ------------------------------------------------------------------ a reader of files

  /** As `ReadRecords`, for a file whose last record may end in a line break, as section 2 of RFC 4180 allows. */
  function ReadFile(f: Format, s: string): Option<seq<Record>>
    decreases |s|
  {
    var field := ReadField(f, s);
    if field.None? then None
    else
      var (c, rest) := field.value;
      if rest == "" || rest == "\n" then Some([[c]])
      else if rest[0] == Separator(f) then Joined(c, ReadFile(f, rest[1..]))
      else Under(c, ReadFile(f, rest[1..]))
  }

  /** `rest` is the end of `s`, and if nothing is left then `s` did not end in a line break. */
  predicate Leaves(s: string, rest: string) {
    |rest| <= |s| && s[|s| - |rest|..] == rest && (rest == "" ==> !EndsInBreak(s))
  }

  lemma {:induction false} QuotedLeaves(s: string)
    requires ReadQuoted(s).Some?
    ensures Leaves(s, ReadQuoted(s).value.1)
  {
    if s[0] != '"' {
      QuotedLeaves(s[1..]);
    } else if |s| > 1 && s[1] == '"' {
      QuotedLeaves(s[2..]);
    }
  }

  lemma {:induction false} PlainLeaves(f: Format, s: string)
    requires ReadPlain(f, s).Some?
    ensures Leaves(s, ReadPlain(f, s).value.1)
  {
    if !Ends(f, s) {
      PlainLeaves(f, s[1..]);
    }
  }

  lemma {:induction false} SkippedIsEnd(s: string)
    ensures |SkipBlanks(s)| <= |s| && s[|s| - |SkipBlanks(s)|..] == SkipBlanks(s)
  {
    if s != "" && IsSpace(s[0]) && !Breaks(s[0]) {
      SkippedIsEnd(s[1..]);
    }
  }

  lemma OpenedIsEnd(f: Format, s: string)
    requires Opened(f, s).Some?
    ensures var inner := Opened(f, s).value; |inner| < |s| && s[|s| - |inner|..] == inner
    ensures |s| - |Opened(f, s).value| >= 1 && s[|s| - |Opened(f, s).value| - 1] == '"'
  {
    SkippedIsEnd(s);
  }

  lemma FieldLeaves(f: Format, s: string)
    requires ReadField(f, s).Some?
    ensures Leaves(s, ReadField(f, s).value.1)
  {
    match Opened(f, s)
    case None => PlainLeaves(f, s);
    case Some(inner) =>
      OpenedIsEnd(f, s);
      QuotedLeaves(inner);
  }

  lemma BreakIsKept(s: string, rest: string)
    requires Leaves(s, rest) && rest != ""
    ensures EndsInBreak(s) <==> EndsInBreak(rest)
  {
    assert s[|s| - 1] == rest[|rest| - 1];
  }

  /** The records without the last one, when the text ends in a line break. */
  function WithoutFinalBreak(s: string, records: seq<Record>): seq<Record>
    requires records != []
  {
    if EndsInBreak(s) then records[..|records| - 1] else records
  }

  lemma {:induction false} BreakHasRecords(f: Format, s: string)
    requires ReadRecords(f, s).Some? && EndsInBreak(s)
    ensures |ReadRecords(f, s).value| > 1
    decreases |s|
  {
    var (c, rest) := ReadField(f, s).value;
    FieldLeaves(f, s);
    BreakIsKept(s, rest);
    RecordsHaveCells(f, rest[1..]);
    if rest[0] == Separator(f) {
      BreakHasRecords(f, rest[1..]);
    }
  }

  lemma NothingIsOneBlank(f: Format)
    ensures ReadRecords(f, "") == Some([[""]])
  {
    assert ReadField(f, "") == Some(("", ""));
  }

  lemma JoinedWithout(c: Cell, s: string, t: string, records: seq<Record>)
    requires records != [] && (EndsInBreak(s) <==> EndsInBreak(t)) && (EndsInBreak(t) ==> |records| > 1)
    ensures Joined(c, Some(records)).Some? && Joined(c, Some(records)).value != []
    ensures Joined(c, Some(WithoutFinalBreak(t, records))) ==
            Some(WithoutFinalBreak(s, Joined(c, Some(records)).value))
  {
    var n := |records| - 1;
    if EndsInBreak(t) {
      assert records[..n][1..] == records[1..][..n - 1];
      assert ([[c] + records[0]] + records[1..])[..n] == [[c] + records[0]] + records[1..][..n - 1];
    }
  }

  lemma UnderWithout(c: Cell, s: string, t: string, records: seq<Record>)
    requires records != [] && (EndsInBreak(s) <==> EndsInBreak(t))
    ensures Under(c, Some(WithoutFinalBreak(t, records))) == Some(WithoutFinalBreak(s, Under(c, Some(records)).value))
  {
    var n := |records| - 1;
    assert ([[c]] + records)[..n + 1] == [[c]] + records[..n];
  }

  /** The two readers agree on every text the first accepts, but for a final line break. */
  lemma {:induction false} FileIsRecords(f: Format, s: string)
    requires ReadRecords(f, s).Some?
    ensures ReadRecords(f, s).value != []
    ensures ReadFile(f, s) == Some(WithoutFinalBreak(s, ReadRecords(f, s).value))
    decreases |s|
  {
    var (c, rest) := ReadField(f, s).value;
    FieldLeaves(f, s);
    if rest == "\n" {
      BreakIsKept(s, rest);
      NothingIsOneBlank(f);
      assert [[c], [""]][..1] == [[c]];
    } else if rest != "" {
      var t := rest[1..];
      BreakIsKept(s, rest);
      FileIsRecords(f, t);
      if rest[0] == Separator(f) {
        if EndsInBreak(t) { BreakHasRecords(f, t); }
        JoinedWithout(c, s, t, ReadRecords(f, t).value);
      } else {
        UnderWithout(c, s, t, ReadRecords(f, t).value);
      }
    }
  }

  lemma {:induction false} FileHasCells(f: Format, s: string)
    requires ReadFile(f, s).Some?
    ensures ReadFile(f, s).value != [] && AllHaveCells(ReadFile(f, s).value)
    decreases |s|
  {
    var (c, rest) := ReadField(f, s).value;
    if rest != "" && rest != "\n" {
      FileHasCells(f, rest[1..]);
    }
  }

  /** The last row is one cell that shows as nothing, under another row. */
  predicate LoneBlankLast(f: Format, isNumber: string -> bool, rows: seq<Record>) {
    |rows| > 1 && |rows[|rows| - 1]| == 1 && Shown(f, isNumber, rows[|rows| - 1][0]) == ""
  }

  /** An exported file reads back exactly when every row has a cell and the last is no lone blank one. */
  lemma FileReadsBack(f: Format, isNumber: string -> bool, header: Record, rows: seq<Record>)
    ensures var all := [header] + rows;
            ReadFile(f, Export(f, isNumber, header, rows)) == Some(ShownRows(f, isNumber, all))
            <==> AllHaveCells(all) && !LoneBlankLast(f, isNumber, all)
  {
    var all := [header] + rows;
    var text, shown := Lines(f, isNumber, all), ShownRows(f, isNumber, all);
    if AllHaveCells(all) {
      LinesReadBack(f, isNumber, all);
      FileIsRecords(f, text);
      FinalBreakExactlyWhen(f, isNumber, all);
      assert |shown[..|shown| - 1]| != |shown|;
    } else if ReadFile(f, text) == Some(shown) {
      FileHasCells(f, text);
    }
  }
}
