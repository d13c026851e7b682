/**
 The data functions behind a rendered table
 (apps/web/components/chat/DataTable.tsx): reading it out of the page's tree,
 and the two exports with the readers their comments promise them to.
 */
module DataTables {
  import opened JsText

  type Cell = string
  type Record = seq<Cell>

  // ------------------------------------------------------------------ parseTable

  datatype Node = Text(value: string) | Element(tag: string, children: seq<Node>) | Other(children: seq<Node>)

  function Children(n: Node): seq<Node> {
    if n.Text? then [] else n.children
  }

  /** All text under a node, in order. */
  function TextOf(n: Node): string {
    match n
    case Text(value) => value
    case Element(_, children) => TextOfAll(children)
    case Other(children) => TextOfAll(children)
  }

  function TextOfAll(nodes: seq<Node>): string {
    if nodes == [] then "" else TextOf(nodes[0]) + TextOfAll(nodes[1..])
  }

  predicate IsCell(n: Node) {
    n.Element? && (n.tag == "th" || n.tag == "td")
  }

  predicate IsRow(n: Node) {
    n.Element? && n.tag == "tr"
  }

  function CellsOf(nodes: seq<Node>): Record {
    if nodes == [] then []
    else (if IsCell(nodes[0]) then [Trim(TextOf(nodes[0]))] else []) + CellsOf(nodes[1..])
  }

  /** A row of the tree, and whether its section is a head. */
  datatype Tr = Tr(head: bool, cells: Record)

  function TrsOf(head: bool, nodes: seq<Node>): seq<Tr> {
    if nodes == [] then []
    else (if IsRow(nodes[0]) then [Tr(head, CellsOf(Children(nodes[0])))] else []) + TrsOf(head, nodes[1..])
  }

  function AllTrs(sections: seq<Node>): seq<Tr> {
    if sections == [] then []
    else (if sections[0].Element? then TrsOf(sections[0].tag == "thead", sections[0].children) else [])
         + AllTrs(sections[1..])
  }

  /** The first head row that has a cell. */
  function HeadRow(trs: seq<Tr>): Record {
    if trs == [] then []
    else if trs[0].head && trs[0].cells != [] then trs[0].cells
    else HeadRow(trs[1..])
  }

  /** Every other row, except head rows without a cell above it. */
  function BodyRows(trs: seq<Tr>, headed: bool): seq<Record> {
    if trs == [] then []
    else if trs[0].head && !headed then BodyRows(trs[1..], trs[0].cells != [])
    else [trs[0].cells] + BodyRows(trs[1..], headed)
  }

  function Blanks(n: nat): Record {
    seq(n, _ => "")
  }

  /** A row with empty cells added up to a width. */
  function Padded(r: Record, width: nat): Record {
    if |r| < width then r + Blanks(width - |r|) else r
  }

  /** One past the longest of the rows, as lengths go. */
  function Widest(rows: seq<Record>): nat {
    if rows == [] then 0
    else
      var rest := Widest(rows[..|rows| - 1]);
      if |rows[|rows| - 1]| > rest then |rows[|rows| - 1]| else rest
  }

  lemma {:induction false} WidestIsLeast(rows: seq<Record>)
    ensures forall i :: 0 <= i < |rows| ==> |rows[i]| <= Widest(rows)
    ensures rows != [] ==> exists i :: 0 <= i < |rows| && |rows[i]| == Widest(rows)
  {
    if rows != [] {
      var front := rows[..|rows| - 1];
      WidestIsLeast(front);
      if |rows[|rows| - 1]| > Widest(front) {
        assert |rows[|rows| - 1]| == Widest(rows);
      } else if front != [] {
        var i :| 0 <= i < |front| && |front[i]| == Widest(front);
        assert |rows[i]| == Widest(rows);
      } else {
        assert |rows[0]| == Widest(rows);
      }
    }
  }

  method Pad(r: Record, width: nat) returns (padded: Record)
    ensures padded == Padded(r, width)
  {
    padded := r;
    while |padded| < width
      invariant padded == r + Blanks(|padded| - |r|)
      invariant |r| <= |padded| && (|r| < width ==> |padded| <= width) && (|r| >= width ==> padded == r)
    {
      assert Blanks(|padded| + 1 - |r|) == Blanks(|padded| - |r|) + [""];
      padded := padded + [""];
    }
  }

  lemma Regroup<T>(a: seq<T>, b: seq<T>, c: seq<T>)
    ensures a + b + c == a + (b + c)
  {
  }

  lemma {:induction false} TrsAppend(head: bool, nodes: seq<Node>, n: Node)
    ensures TrsOf(head, nodes + [n]) == TrsOf(head, nodes) + if IsRow(n) then [Tr(head, CellsOf(Children(n)))] else []
  {
    if nodes != [] {
      assert (nodes + [n])[1..] == nodes[1..] + [n];
      TrsAppend(head, nodes[1..], n);
      Regroup(if IsRow(nodes[0]) then [Tr(head, CellsOf(Children(nodes[0])))] else [], TrsOf(head, nodes[1..]),
              if IsRow(n) then [Tr(head, CellsOf(Children(n)))] else []);
    } else {
      assert TrsOf(head, [n][1..]) == [];
    }
  }

  /** The rows of one section; anything but an element has none. */
  function SectionTrs(s: Node): seq<Tr> {
    if s.Element? then TrsOf(s.tag == "thead", s.children) else []
  }

  lemma {:induction false} AllTrsAppend(sections: seq<Node>, s: Node)
    ensures AllTrs(sections + [s]) == AllTrs(sections) + SectionTrs(s)
  {
    if sections != [] {
      assert (sections + [s])[1..] == sections[1..] + [s];
      AllTrsAppend(sections[1..], s);
      Regroup(SectionTrs(sections[0]), AllTrs(sections[1..]), SectionTrs(s));
    } else {
      assert [s][1..] == [];
    }
  }

  /** What one more row does to the header and to the others. */
  lemma {:induction false} OneMoreRow(trs: seq<Tr>, t: Tr)
    ensures HeadRow(trs + [t]) == if HeadRow(trs) == [] && t.head then t.cells else HeadRow(trs)
    ensures BodyRows(trs + [t], false) ==
            BodyRows(trs, false) + if t.head && HeadRow(trs) == [] then [] else [t.cells]
  {
    OneMoreHead(trs, t);
    OneMoreBody(trs, t, false);
  }

  lemma {:induction false} OneMoreHead(trs: seq<Tr>, t: Tr)
    ensures HeadRow(trs + [t]) == if HeadRow(trs) == [] && t.head then t.cells else HeadRow(trs)
  {
    if trs == [] {
      assert HeadRow([t][1..]) == [];
    } else {
      assert (trs + [t])[1..] == trs[1..] + [t];
      OneMoreHead(trs[1..], t);
    }
  }

  lemma {:induction false} OneMoreBody(trs: seq<Tr>, t: Tr, headed: bool)
    ensures BodyRows(trs + [t], headed) ==
            BodyRows(trs, headed) + if t.head && !headed && HeadRow(trs) == [] then [] else [t.cells]
  {
    if trs == [] {
      assert [t][1..] == [];
    } else {
      var headedNow := if trs[0].head && !headed then trs[0].cells != [] else headed;
      assert (trs + [t])[1..] == trs[1..] + [t];
      OneMoreBody(trs[1..], t, headedNow);
      Regroup([trs[0].cells], BodyRows(trs[1..], headedNow),
              if t.head && !headedNow && HeadRow(trs[1..]) == [] then [] else [t.cells]);
    }
  }

  method ReadSection(section: Node, header0: Record, rows0: seq<Record>, ghost before: seq<Tr>)
    returns (header: Record, rows: seq<Record>)
    requires section.Element? && header0 == HeadRow(before) && rows0 == BodyRows(before, false)
    ensures header == HeadRow(before + SectionTrs(section))
    ensures rows == BodyRows(before + SectionTrs(section), false)
  {
    header, rows := header0, rows0;
    var inHead := section.tag == "thead";
    var trs := section.children;
    ghost var read := before;
    for i := 0 to |trs|
      invariant read == before + TrsOf(inHead, trs[..i])
      invariant header == HeadRow(read) && rows == BodyRows(read, false)
    {
      TrsAppend(inHead, trs[..i], trs[i]);
      assert trs[..i + 1] == trs[..i] + [trs[i]];
      if IsRow(trs[i]) {
        var cells := CellsOf(trs[i].children);
        OneMoreRow(read, Tr(inHead, cells));
        read := read + [Tr(inHead, cells)];
        if inHead && |header| == 0 {
          header := header + cells;
        } else {
          rows := rows + [cells];
        }
      }
    }
    assert trs[..|trs|] == trs;
  }

  /** How often a row with exactly these cells was read. */
  function TimesRead(trs: seq<Tr>, r: Record): nat {
    if trs == [] then 0 else (if trs[0].cells == r then 1 else 0) + TimesRead(trs[1..], r)
  }

  function TimesIn(rows: seq<Record>, r: Record): nat {
    if rows == [] then 0 else (if rows[0] == r then 1 else 0) + TimesIn(rows[1..], r)
  }

  /** Every row with a cell is the header or one of the others, once, and nothing else is. */
  lemma {:induction false} EveryRowIsKept(trs: seq<Tr>, headed: bool, r: Record)
    requires r != []
    ensures TimesRead(trs, r) == TimesIn(BodyRows(trs, headed), r) + if !headed && HeadRow(trs) == r then 1 else 0
  {
    if trs != [] {
      var t, rest := trs[0], trs[1..];
      if t.head && !headed {
        EveryRowIsKept(rest, t.cells != [], r);
      } else {
        EveryRowIsKept(rest, headed, r);
        assert BodyRows(trs, headed)[1..] == BodyRows(rest, headed);
      }
    }
  }

  /** Head row `k` is the first that has a cell. */
  ghost predicate FirstHead(trs: seq<Tr>, k: nat) {
    && k < |trs| && trs[k].head && trs[k].cells != []
    && forall j :: 0 <= j < k && trs[j].head ==> trs[j].cells == []
  }

  /** The rows outside a head. */
  function Unheaded(trs: seq<Tr>): seq<Record> {
    if trs == [] then [] else (if trs[0].head then [] else [trs[0].cells]) + Unheaded(trs[1..])
  }

  function CellsOfAll(trs: seq<Tr>): seq<Record> {
    seq(|trs|, i requires 0 <= i < |trs| => trs[i].cells)
  }

  lemma {:induction false} HeadedRowsAreAll(trs: seq<Tr>)
    ensures BodyRows(trs, true) == CellsOfAll(trs)
  {
    if trs != [] {
      HeadedRowsAreAll(trs[1..]);
      assert CellsOfAll(trs) == [trs[0].cells] + CellsOfAll(trs[1..]);
    }
  }

  /** The header is the first head row with a cell; the rows are those outside a head, and all that follow it. */
  lemma {:induction false} HeaderIsTheFirstHeadRow(trs: seq<Tr>, k: nat)
    requires FirstHead(trs, k)
    ensures HeadRow(trs) == trs[k].cells
    ensures BodyRows(trs, false) == Unheaded(trs[..k]) + CellsOfAll(trs[k + 1..])
  {
    if k == 0 {
      HeadedRowsAreAll(trs[1..]);
    } else {
      assert FirstHead(trs[1..], k - 1);
      HeaderIsTheFirstHeadRow(trs[1..], k - 1);
      assert trs[..k][1..] == trs[1..][..k - 1] && trs[1..][k..] == trs[k + 1..];
      Regroup(if trs[0].head then [] else [trs[0].cells], Unheaded(trs[1..][..k - 1]), CellsOfAll(trs[k + 1..]));
    }
  }

  /** A table without such a row has no header, and every row outside a head. */
  lemma {:induction false} NoHeadNoHeader(trs: seq<Tr>)
    requires forall k :: 0 <= k < |trs| && trs[k].head ==> trs[k].cells == []
    ensures HeadRow(trs) == [] && BodyRows(trs, false) == Unheaded(trs)
  {
    if trs != [] { NoHeadNoHeader(trs[1..]); }
  }

  // ------------------------------------------------------------------ a rendered table, read back

  function RowNode(tag: string, cells: Record): Node {
    Element("tr", seq(|cells|, i requires 0 <= i < |cells| => Element(tag, [Text(cells[i])])))
  }

  function RowNodes(rows: seq<Record>): seq<Node> {
    seq(|rows|, i requires 0 <= i < |rows| => RowNode("td", rows[i]))
  }

  /** A table as the page renders it: a head of header cells, line breaks between the sections, a body of cells. */
  function TableNode(header: Record, rows: seq<Record>): Node {
    Element("table", [Element("thead", [RowNode("th", header)]), Text("\n"), Element("tbody", RowNodes(rows))])
  }

  function Trimmed(r: Record): Record {
    seq(|r|, i requires 0 <= i < |r| => Trim(r[i]))
  }

  function TrimmedAll(rows: seq<Record>): seq<Record> {
    seq(|rows|, i requires 0 <= i < |rows| => Trimmed(rows[i]))
  }

  lemma OneText(text: string)
    ensures TextOfAll([Text(text)]) == text
  {
    assert TextOf(Text(text)) == text && [Text(text)][1..] == [] && TextOfAll([]) == "";
  }

  lemma {:induction false} CellsReadBack(tag: string, cells: Record)
    requires tag == "th" || tag == "td"
    ensures CellsOf(RowNode(tag, cells).children) == Trimmed(cells)
  {
    if cells != [] {
      var nodes := RowNode(tag, cells).children;
      assert nodes[1..] == RowNode(tag, cells[1..]).children;
      CellsReadBack(tag, cells[1..]);
      OneText(cells[0]);
      assert TextOf(nodes[0]) == TextOfAll([Text(cells[0])]);
      assert Trimmed(cells) == [Trim(cells[0])] + Trimmed(cells[1..]);
    }
  }

  function BodyTrs(rows: seq<Record>): seq<Tr> {
    seq(|rows|, i requires 0 <= i < |rows| => Tr(false, Trimmed(rows[i])))
  }

  lemma {:induction false} BodyReadsBack(rows: seq<Record>)
    ensures TrsOf(false, RowNodes(rows)) == BodyTrs(rows)
  {
    if rows != [] {
      assert RowNodes(rows)[1..] == RowNodes(rows[1..]);
      BodyReadsBack(rows[1..]);
      CellsReadBack("td", rows[0]);
      assert BodyTrs(rows) == [Tr(false, Trimmed(rows[0]))] + BodyTrs(rows[1..]);
    }
  }

  lemma SectionsReadBack(header: Record, rows: seq<Record>)
    ensures AllTrs(Children(TableNode(header, rows))) == [Tr(true, Trimmed(header))] + BodyTrs(rows)
  {
    var head, body := RowNode("th", header), Element("tbody", RowNodes(rows));
    CellsReadBack("th", header);
    BodyReadsBack(rows);
    assert [head][1..] == [] && TrsOf(true, [head]) == [Tr(true, Trimmed(header))];
    assert [body][1..] == [] && AllTrs([body]) == BodyTrs(rows);
    assert [Text("\n"), body][1..] == [body] && AllTrs([Text("\n"), body]) == BodyTrs(rows);
    assert Children(TableNode(header, rows))[1..] == [Text("\n"), body];
  }

  /** A table's rows are read out of the page as they were rendered into it, but for space around a cell. */
  lemma RenderedTableReadsBack(header: Record, rows: seq<Record>)
    requires header != []
    ensures var trs := AllTrs(Children(TableNode(header, rows)));
            HeadRow(trs) == Trimmed(header) && BodyRows(trs, false) == TrimmedAll(rows)
  {
    var trs := [Tr(true, Trimmed(header))] + BodyTrs(rows);
    SectionsReadBack(header, rows);
    assert FirstHead(trs, 0);
    HeaderIsTheFirstHeadRow(trs, 0);
    assert trs[..0] == [] && trs[1..] == BodyTrs(rows) && CellsOfAll(trs[1..]) == TrimmedAll(rows);
  }

  method ReadSections(sections: seq<Node>) returns (header: Record, rows: seq<Record>)
    ensures header == HeadRow(AllTrs(sections)) && rows == BodyRows(AllTrs(sections), false)
  {
    header, rows := [], [];
    ghost var read: seq<Tr> := [];
    for i := 0 to |sections|
      invariant read == AllTrs(sections[..i])
      invariant header == HeadRow(read) && rows == BodyRows(read, false)
    {
      AllTrsAppend(sections[..i], sections[i]);
      assert sections[..i + 1] == sections[..i] + [sections[i]];
      if sections[i].Element? {
        header, rows := ReadSection(sections[i], header, rows, read);
      } else {
        assert read + [] == read;
      }
      read := read + SectionTrs(sections[i]);
    }
    assert sections[..|sections|] == sections;
  }

  method PadAll(raw: seq<Record>, width: nat) returns (rows: seq<Record>)
    ensures |rows| == |raw| && forall i :: 0 <= i < |raw| ==> rows[i] == Padded(raw[i], width)
  {
    rows := [];
    for i := 0 to |raw|
      invariant |rows| == i && forall j :: 0 <= j < i ==> rows[j] == Padded(raw[j], width)
    {
      var padded := Pad(raw[i], width);
      rows := rows + [padded];
    }
  }

  lemma NoneIsWider(rows: seq<Record>, header: Record, i: nat)
    requires i <= |rows|
    ensures (if i < |rows| then |rows[i]| else |header|) <= Widest(rows + [header])
  {
    WidestIsLeast(rows + [header]);
    assert |(rows + [header])[i]| <= Widest(rows + [header]);
  }

  /** The table is always a rectangle as wide as its widest row, and every row keeps its own cells in front. */
  method ParseTable(node: Node) returns (header: Record, rows: seq<Record>)
    ensures var trs := AllTrs(Children(node));
            var width := Widest(BodyRows(trs, false) + [HeadRow(trs)]);
            && header == Padded(HeadRow(trs), width)
            && |rows| == |BodyRows(trs, false)|
            && (forall i :: 0 <= i < |rows| ==> rows[i] == Padded(BodyRows(trs, false)[i], width))
            && |header| == width && (forall i :: 0 <= i < |rows| ==> |rows[i]| == width)
  {
    var head, body := ReadSections(Children(node));
    var width := MaxLength(head, body);
    header := Pad(head, width);
    rows := PadAll(body, width);
    NoneIsWider(body, head, |body|);
    forall i | 0 <= i < |rows|
      ensures |rows[i]| == width
    {
      NoneIsWider(body, head, i);
    }
  }

  method MaxLength(header: Record, rows: seq<Record>) returns (width: nat)
    ensures width == Widest(rows + [header])
  {
    var all := rows + [header];
    width := 0;
    for i := 0 to |all|
      invariant width == Widest(all[..i])
    {
      assert all[..i + 1][..i] == all[..i];
      if |all[i]| > width { width := |all[i]|; }
    }
    assert all[..|all|] == all;
  }
}
