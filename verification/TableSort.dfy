/**
 The order a table's rows are sorted in when a column holds figures
 (apps/web/components/chat/DataTable.tsx). What a cell is as a number is a
 parameter; None is a cell that is no finite number.
 */
module TableSort {
  import opened Wrappers
  import opened DataTables

  type Reading = Cell -> Option<real>

  datatype Direction = Up | Down

  /** The comparator's result: negative, zero or positive. */
  function Compare(asNumber: Reading, dir: Direction, x: Cell, y: Cell): real {
    var nx, ny := asNumber(x), asNumber(y);
    if nx.None? || ny.None? then (if nx.None? then 1.0 else 0.0) - (if ny.None? then 1.0 else 0.0)
    else if dir.Up? then nx.value - ny.value
    else ny.value - nx.value
  }

  /** The comparator is a total preorder, so every sort of the column ends in the same groups. */
  lemma CompareIsAnOrder(asNumber: Reading, dir: Direction, x: Cell, y: Cell, z: Cell)
    ensures Compare(asNumber, dir, x, y) == -Compare(asNumber, dir, y, x)
    ensures Compare(asNumber, dir, x, y) <= 0.0 && Compare(asNumber, dir, y, z) <= 0.0 ==>
              Compare(asNumber, dir, x, z) <= 0.0
  {
  }

  /** Neighbours stand in order. */
  predicate InOrder(asNumber: Reading, dir: Direction, column: seq<Cell>) {
    forall i :: 0 < i < |column| ==> Compare(asNumber, dir, column[i - 1], column[i]) <= 0.0
  }

  predicate FiguresUpTo(asNumber: Reading, dir: Direction, column: seq<Cell>, n: nat) {
    && n <= |column|
    && (forall i :: 0 <= i < n ==> asNumber(column[i]).Some?)
    && (forall i :: n <= i < |column| ==> asNumber(column[i]).None?)
    && (forall i, j :: 0 <= i < j < n ==>
          var a, b := asNumber(column[i]).value, asNumber(column[j]).value;
          if dir.Up? then a <= b else b <= a)
  }

  lemma FiguresGrow(asNumber: Reading, dir: Direction, front: seq<Cell>, last: Cell, n: nat)
    requires FiguresUpTo(asNumber, dir, front, n)
    requires front != [] ==> Compare(asNumber, dir, front[|front| - 1], last) <= 0.0
    ensures FiguresUpTo(asNumber, dir, front + [last], if asNumber(last).Some? then n + 1 else n)
  {
    if asNumber(last).Some? && front != [] {
      assert asNumber(front[|front| - 1]).Some?;
    }
  }

  /** A sorted column shows its figures first, in the chosen direction, and everything else after them in either. */
  lemma {:induction false} SortedColumn(asNumber: Reading, dir: Direction, column: seq<Cell>) returns (n: nat)
    requires InOrder(asNumber, dir, column)
    ensures FiguresUpTo(asNumber, dir, column, n)
  {
    if column == [] {
      return 0;
    }
    var front, last := column[..|column| - 1], column[|column| - 1];
    n := SortedColumn(asNumber, dir, front);
    if front != [] { assert Compare(asNumber, dir, column[|column| - 2], column[|column| - 1]) <= 0.0; }
    FiguresGrow(asNumber, dir, front, last, n);
    assert front + [last] == column;
    n := if asNumber(last).Some? then n + 1 else n;
  }

  function CellAt(r: Record, col: nat): Cell {
    if col < |r| then r[col] else ""
  }

  function Column(rows: seq<Record>, col: nat): seq<Cell> {
    seq(|rows|, i requires 0 <= i < |rows| => CellAt(rows[i], col))
  }

  /** The cells that are no placeholder. */
  function Real(isPlaceholder: Cell -> bool, column: seq<Cell>): seq<Cell> {
    if column == [] then []
    else (if isPlaceholder(column[0]) then [] else [column[0]]) + Real(isPlaceholder, column[1..])
  }

  predicate ColumnIsNumeric(asNumber: Reading, isPlaceholder: Cell -> bool, column: seq<Cell>) {
    Real(isPlaceholder, column) != [] && forall c :: c in Real(isPlaceholder, column) ==> asNumber(c).Some?
  }

  lemma {:induction false} RealCells(isPlaceholder: Cell -> bool, column: seq<Cell>, c: Cell)
    ensures c in Real(isPlaceholder, column) <==> c in column && !isPlaceholder(c)
  {
    if column != [] {
      RealCells(isPlaceholder, column[1..], c);
    }
  }

  /** A column is numeric exactly when some cell is no placeholder and every such cell reads as a number. */
  lemma NumericExactly(asNumber: Reading, isPlaceholder: Cell -> bool, column: seq<Cell>)
    ensures ColumnIsNumeric(asNumber, isPlaceholder, column) <==>
            && (exists c :: c in column && !isPlaceholder(c))
            && forall c :: c in column && !isPlaceholder(c) ==> asNumber(c).Some?
  {
    forall c ensures c in Real(isPlaceholder, column) <==> c in column && !isPlaceholder(c) {
      RealCells(isPlaceholder, column, c);
    }
    if Real(isPlaceholder, column) != [] { assert Real(isPlaceholder, column)[0] in Real(isPlaceholder, column); }
  }

  /** However a numeric column's rows are sorted, nothing but placeholders follows its figures. */
  lemma OnlyPlaceholdersTrail(
    asNumber: Reading, isPlaceholder: Cell -> bool, dir: Direction, rows: seq<Record>, sorted: seq<Record>, col: nat)
    returns (n: nat)
    requires ColumnIsNumeric(asNumber, isPlaceholder, Column(rows, col))
    requires forall r :: r in sorted ==> r in rows
    requires InOrder(asNumber, dir, Column(sorted, col))
    ensures FiguresUpTo(asNumber, dir, Column(sorted, col), n)
    ensures forall i :: n <= i < |sorted| ==> isPlaceholder(CellAt(sorted[i], col))
  {
    var column := Column(rows, col);
    n := SortedColumn(asNumber, dir, Column(sorted, col));
    forall i | n <= i < |sorted|
      ensures isPlaceholder(CellAt(sorted[i], col))
    {
      assert sorted[i] in sorted && sorted[i] in rows;
      var k :| 0 <= k < |rows| && rows[k] == sorted[i];
      assert column[k] == Column(sorted, col)[i];
      RealCells(isPlaceholder, column, column[k]);
    }
  }
}
