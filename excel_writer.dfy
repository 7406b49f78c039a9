// The sheet-level bookkeeping of BGExcelSheetWriterART: allocation of free
// rows (NewRow), the next free column (NewCellIndex), row deletion that
// shifts the surviving rows up (Delete), header cells (MapHeader), sheet
// selection (Sheet) and the choice of a row for an entity (GetRowIndex).
// An NPOI sheet is an object whose rows are positions 0 .. LastRowNum, each
// present or absent; the workbook is the list of its sheets.
module ExcelSheetWriter {
  import opened Wrappers
  import opened DotNetText
  import opened ExcelCells

  /** One more than the largest row number NewRow tries. */
  const MaxRows := 1048575

  /** An ISheet: its name and its rows by row number, up to the last one. */
  class ExcelSheet {
    var name: string
    var rows: seq<Option<Row>>

    constructor (name: string)
      ensures this.name == name && rows == []
    {
      this.name := name;
      rows := [];
    }
  }

  /** The sheet info (BGSheetInfoA): which sheet of the book it describes and
      the row each entity id was written to. */
  class SheetInfo {
    var sheetNumber: nat
    var rowsById: map<BGId, int>

    constructor (sheetNumber: nat, rowsById: map<BGId, int>)
      ensures this.sheetNumber == sheetNumber && this.rowsById == rowsById
    {
      this.sheetNumber := sheetNumber;
      this.rowsById := rowsById;
    }

    /** GetRow(id): the registered row, or -1. */
    function GetRow(id: BGId): int
      reads this
    {
      if id in rowsById then rowsById[id] else -1
    }

    method Clear()
      modifies this`rowsById
      ensures rowsById == map[]
    {
      rowsById := map[];
    }
  }

  // ---------------------------------------------------------------- cells and rows

  /** IsRowEmpty: no cell of the row is non-empty. */
  predicate RowEmpty(row: Row)
  {
    forall i :: 0 <= i < |row.cells| ==> IsCellEmpty(Some(row.cells[i]))
  }

  /** The value a Cell(index, value) overload stores. */
  datatype CellValue = TextValue(text: string) | FlagValue(flag: bool) | NumberValue(number: real)

  /** A plain cell holding `v` in column `column`. */
  function ValueCell(column: nat, v: CellValue): (c: Cell)
    ensures c.column == column && c.cellType != FormulaType
  {
    match v
    case TextValue(s) => Cell(column, StringType, 0.0, Some(s), false, None, BlankType)
    case FlagValue(b) => Cell(column, BooleanType, 0.0, None, b, None, BlankType)
    case NumberValue(x) => Cell(column, NumericType, x, None, false, None, BlankType)
  }

  /** `(row.GetCell(column) ?? row.CreateCell(column)).SetCellValue(v)`: the
      first cell of that column is replaced, or a new one is added at the
      end. */
  function SetCell(row: Row, column: nat, v: CellValue): (r: Row)
    ensures GetCell(r, column) == Some(ValueCell(column, v))
    ensures forall k :: k != column ==> GetCell(r, k) == GetCell(row, k)
    decreases |row.cells|
  {
    if |row.cells| == 0 then Row([ValueCell(column, v)])
    else if row.cells[0].column == column then Row([ValueCell(column, v)] + row.cells[1..])
    else
      var rest := SetCell(Row(row.cells[1..]), column, v);
      Row([row.cells[0]] + rest.cells)
  }

  /** Row numbers at and after |rows| are absent. */
  function RowAt(rows: seq<Option<Row>>, i: nat): Option<Row>
  {
    if i < |rows| then rows[i] else None
  }

  /** `sheet.GetRow(index) ?? sheet.CreateRow(index)`: the rows with row
      `index` present, extending the sheet with absent rows when needed. */
  function EnsureRow(rows: seq<Option<Row>>, index: nat): (r: seq<Option<Row>>)
    ensures |r| == if index < |rows| then |rows| else index + 1
    ensures r[index].Some? && (RowAt(rows, index).Some? ==> r[index] == rows[index])
    ensures RowAt(rows, index).None? ==> r[index] == Some(Row([]))
    ensures forall k :: 0 <= k < |r| && k != index ==> r[k] == RowAt(rows, k)
  {
    if index < |rows| then
      if rows[index].Some? then rows else rows[index := Some(Row([]))]
    else rows + Nones(index - |rows|) + [Some(Row([]))]
  }

  function Nones(n: nat): (r: seq<Option<Row>>)
    ensures |r| == n && forall k :: 0 <= k < n ==> r[k] == None
  {
    if n == 0 then [] else Nones(n - 1) + [None]
  }

  // ---------------------------------------------------------------- row deletion

  /** The rows of `s` (numbered from `base`) whose row number is not
      listed in `xs`, in their original order. */
  function Keep(s: seq<Option<Row>>, xs: seq<int>, base: int): seq<Option<Row>>
    decreases |s|
  {
    if |s| == 0 then []
    else (if base in xs then [] else [s[0]]) + Keep(s[1..], xs, base + 1)
  }

  predicate StrictlySorted(xs: seq<int>)
  {
    forall i, j :: 0 <= i < j < |xs| ==> xs[i] < xs[j]
  }

  predicate Sorted(xs: seq<int>)
  {
    forall i, j :: 0 <= i < j < |xs| ==> xs[i] <= xs[j]
  }

  lemma {:induction false} KeepAppend(a: seq<Option<Row>>, b: seq<Option<Row>>, xs: seq<int>, base: int)
    ensures Keep(a + b, xs, base) == Keep(a, xs, base) + Keep(b, xs, base + |a|)
    decreases |a|
  {
    if |a| == 0 {
      assert a + b == b;
    } else {
      assert (a + b)[1..] == a[1..] + b;
      KeepAppend(a[1..], b, xs, base + 1);
    }
  }

  /** Only the listed numbers inside the rows' range matter. */
  lemma {:induction false} KeepCongruent(s: seq<Option<Row>>, xs: seq<int>, ys: seq<int>, base: int)
    requires forall j :: base <= j < base + |s| ==> (j in xs <==> j in ys)
    ensures Keep(s, xs, base) == Keep(s, ys, base)
    decreases |s|
  {
    if |s| > 0 {
      KeepCongruent(s[1..], xs, ys, base + 1);
    }
  }

  /** No listed number in range: every row is kept. */
  lemma {:induction false} KeepAll(s: seq<Option<Row>>, xs: seq<int>, base: int)
    requires forall j :: base <= j < base + |s| ==> j !in xs
    ensures Keep(s, xs, base) == s
    decreases |s|
  {
    if |s| > 0 {
      KeepAll(s[1..], xs, base + 1);
      assert [s[0]] + s[1..] == s;
    }
  }

  lemma FirstOutside(xs: seq<int>, base: int)
    ensures |xs| == 0 || !(base <= xs[0] < base)
  {
  }

  /** Deleting k distinct rows in range leaves |s| - k rows. */
  lemma {:induction false} KeepLength(s: seq<Option<Row>>, xs: seq<int>, base: int)
    requires StrictlySorted(xs)
    requires forall i :: 0 <= i < |xs| ==> base <= xs[i] < base + |s|
    ensures |Keep(s, xs, base)| == |s| - |xs|
    decreases |s|
  {
    if |s| == 0 {
      FirstOutside(xs, base);
    } else if base in xs {
      var k :| 0 <= k < |xs| && xs[k] == base;
      assert xs[0] <= xs[k];
      KeepCongruent(s[1..], xs, xs[1..], base + 1);
      assert forall i :: 0 <= i < |xs[1..]| ==> xs[1..][i] == xs[i + 1] && xs[0] < xs[i + 1];
      KeepLength(s[1..], xs[1..], base + 1);
    } else {
      KeepLength(s[1..], xs, base + 1);
    }
  }

  /** Appending one row keeps it unless its number is listed. */
  lemma KeepSnoc(left: seq<Option<Row>>, v: Option<Row>, ys: seq<int>)
    ensures Keep(left + [v], ys, 0) == Keep(left, ys, 0) + (if |left| in ys then [] else [v])
  {
    KeepAppend(left, [v], ys, 0);
    assert Keep([v], ys, |left|) == (if |left| in ys then [] else [v]) + Keep([], ys, |left| + 1);
  }

  /** With no listed number above row x, the kept rows are those kept
      below x, then row x unless it is listed, then every row above x. */
  lemma KeepSplitAt(left: seq<Option<Row>>, v: Option<Row>, right: seq<Option<Row>>, ys: seq<int>)
    requires forall k :: 0 <= k < |ys| ==> ys[k] <= |left|
    ensures Keep(left + [v] + right, ys, 0) == Keep(left, ys, 0) + (if |left| in ys then [] else [v]) + right
  {
    var lv := left + [v];
    KeepAppend(lv, right, ys, 0);
    KeepSnoc(left, v, ys);
    assert forall j :: |lv| <= j < |lv| + |right| ==> j !in ys;
    KeepAll(right, ys, |lv|);
  }

  /** Deleting the next row x (all of xs[..i] below it) removes position
      x - i of the rows kept so far. */
  lemma KeepStep(s: seq<Option<Row>>, xs: seq<int>, i: nat)
    requires StrictlySorted(xs) && i < |xs|
    requires forall k :: 0 <= k < |xs| ==> 0 <= xs[k] < |s|
    ensures var kept := Keep(s, xs[..i], 0);
      |kept| == |s| - i && 0 <= xs[i] - i < |kept|
      && Keep(s, xs[..i + 1], 0) == kept[..xs[i] - i] + kept[xs[i] - i + 1..]
  {
    var x := xs[i];
    var p, q := xs[..i], xs[..i + 1];
    assert forall k :: 0 <= k < |p| ==> p[k] == xs[k] && xs[k] < x;
    assert forall k :: 0 <= k < |q| ==> q[k] == xs[k] && xs[k] <= x;
    KeepLength(s[..x], p, 0);
    KeepLength(s, p, 0);
    KeepCongruent(s[..x], q, p, 0);
    assert s == s[..x] + [s[x]] + s[x + 1..];
    KeepSplitAt(s[..x], s[x], s[x + 1..], p);
    KeepSplitAt(s[..x], s[x], s[x + 1..], q);
    assert x !in p && x in q;
  }

  /** Sorts the row list in place, ascending (List<int>.Sort). */
  method SortRows(a: array<int>)
    modifies a
    ensures Sorted(a[..])
    ensures multiset(a[..]) == old(multiset(a[..]))
  {
    var i := 0;
    while i < a.Length
      invariant 0 <= i <= a.Length
      invariant forall p, q :: 0 <= p < q < i ==> a[p] <= a[q]
      invariant multiset(a[..]) == old(multiset(a[..]))
    {
      InsertLast(a, i);
      i := i + 1;
    }
  }

  /** One insertion step: a[i] moves down past the larger numbers before it. */
  method InsertLast(a: array<int>, i: nat)
    requires i < a.Length
    requires forall p, q :: 0 <= p < q < i ==> a[p] <= a[q]
    modifies a
    ensures forall p, q :: 0 <= p < q <= i ==> a[p] <= a[q]
    ensures multiset(a[..]) == old(multiset(a[..]))
  {
    var j := i;
    while j > 0 && a[j - 1] > a[j]
      invariant 0 <= j <= i
      invariant forall p, q :: 0 <= p < q <= i && p != j && q != j ==> a[p] <= a[q]
      invariant forall q :: j < q <= i ==> a[j] <= a[q]
      invariant multiset(a[..]) == old(multiset(a[..]))
    {
      Swap(a, j - 1, j);
      j := j - 1;
    }
  }

  method Swap(a: array<int>, i: nat, j: nat)
    requires i < j < a.Length
    modifies a
    ensures a[i] == old(a[j]) && a[j] == old(a[i])
    ensures forall k :: 0 <= k < a.Length && k != i && k != j ==> a[k] == old(a[k])
    ensures multiset(a[..]) == old(multiset(a[..]))
  {
    a[i], a[j] := a[j], a[i];
  }

  /** A sorted list in which no number occurs twice is strictly sorted. */
  lemma SortedUnique(xs: seq<int>)
    requires Sorted(xs) && forall x :: multiset(xs)[x] <= 1
    ensures StrictlySorted(xs)
  {
    forall i, j | 0 <= i < j < |xs|
      ensures xs[i] < xs[j]
    {
      assert xs == xs[..j] + xs[j..];
      assert xs[i] in multiset(xs[..j]);
      assert xs[j] in multiset(xs[j..]);
      assert multiset(xs)[xs[i]] == multiset(xs[..j])[xs[i]] + multiset(xs[j..])[xs[i]];
    }
  }

  /** `sheet.ShiftRows(start, end, -1)`: rows start .. end move up by one,
      overwriting row start - 1, and row end becomes absent. */
  function ShiftUp(rows: seq<Option<Row>>, start: nat, end: nat): (r: seq<Option<Row>>)
    requires 1 <= start <= end < |rows|
    ensures |r| == |rows|
    ensures forall k :: 0 <= k < start - 1 || end < k < |rows| ==> r[k] == rows[k]
    ensures forall k :: start - 1 <= k < end ==> r[k] == rows[k + 1]
    ensures r[end] == None
  {
    rows[..start - 1] + rows[start..end + 1] + [None] + rows[end + 1..]
  }

  /** After shifting the rows below the last one up over position
      `rownum`, the first m - 1 rows are the first m without that one. */
  lemma ShiftDropsPosition(rows: seq<Option<Row>>, kept: seq<Option<Row>>, rownum: nat)
    requires |kept| <= |rows| && rows[..|kept|] == kept && rownum < |kept| && rownum < |rows| - 1
    ensures ShiftUp(rows, rownum + 1, |rows| - 1)[..|kept| - 1] == kept[..rownum] + kept[rownum + 1..]
  {
    var r := ShiftUp(rows, rownum + 1, |rows| - 1);
    assert forall k :: 0 <= k < |kept| - 1 ==> r[k] == (kept[..rownum] + kept[rownum + 1..])[k];
  }

  /** One round of Delete's shifting loop keeps its invariant: the first
      |rows| - i rows are the survivors of the first i listed rows. */
  lemma DeleteStep(rows: seq<Option<Row>>, orig: seq<Option<Row>>, xs: seq<int>, i: nat)
    requires StrictlySorted(xs) && i < |xs| && |rows| == |orig|
    requires forall k :: 0 <= k < |xs| ==> 0 <= xs[k] < |orig|
    requires i <= |rows| && rows[..|rows| - i] == Keep(orig, xs[..i], 0)
    ensures 0 <= xs[i] - i < |rows| - i
    ensures xs[i] - i < |rows| - 1 ==>
              ShiftUp(rows, xs[i] - i + 1, |rows| - 1)[..|rows| - i - 1] == Keep(orig, xs[..i + 1], 0)
    ensures xs[i] - i >= |rows| - 1 ==> rows[..|rows| - i - 1] == Keep(orig, xs[..i + 1], 0)
  {
    KeepStep(orig, xs, i);
    var kept := Keep(orig, xs[..i], 0);
    var rownum := xs[i] - i;
    if rownum < |rows| - 1 {
      ShiftDropsPosition(rows, kept, rownum);
    } else {
      LastDropped(rows, kept);
    }
  }

  /** `sheet.LastRowNum`: the number of the last present row, 0 when no
      row is present. */
  function LastRowNum(rows: seq<Option<Row>>): (r: nat)
    ensures |rows| > 0 ==> r < |rows|
    ensures forall k :: r < k < |rows| ==> rows[k] == None
    ensures r > 0 ==> r < |rows| && rows[r].Some?
  {
    if |rows| == 0 then 0
    else if rows[|rows| - 1].Some? then |rows| - 1
    else LastRowNum(rows[..|rows| - 1])
  }

  /** Shifting within the first m rows leaves the rest alone. */
  lemma ShiftUpPrefix(rows: seq<Option<Row>>, m: nat, start: nat, end: nat)
    requires 1 <= start <= end < m <= |rows|
    ensures ShiftUp(rows, start, end)[..m] == ShiftUp(rows[..m], start, end)
    ensures ShiftUp(rows, start, end)[m..] == rows[m..]
  {
  }

  /** Delete's result: the survivors below the last present row, the freed
      rows, then the absent rows after it, which is the survivors of the
      whole sheet followed by the freed rows. */
  /** The list Delete works through once sorted: strictly ascending,
      the same rows to delete, all at or before the last present row. */
  lemma SortedList(orig: seq<Option<Row>>, given: seq<int>, xs: seq<int>, lastRow: nat)
    requires Sorted(xs) && multiset(xs) == multiset(given) && forall x :: multiset(given)[x] <= 1
    requires lastRow < |orig| && forall k :: 0 <= k < |given| ==> 0 <= given[k] <= lastRow
    ensures StrictlySorted(xs) && |xs| == |given| && |xs| <= lastRow + 1
    ensures forall k :: 0 <= k < |xs| ==> 0 <= xs[k] <= lastRow
    ensures ListedBelow(xs, lastRow + 1)
    ensures Keep(orig, xs, 0) == Keep(orig, given, 0)
  {
    SortedUnique(xs);
    assert forall j :: j in xs <==> j in given by {
      assert forall j :: j in xs <==> j in multiset(xs);
      assert forall j :: j in given <==> j in multiset(given);
    }
    KeepCongruent(orig, xs, given, 0);
    assert forall k :: 0 <= k < |xs| ==> xs[k] in given;
    assert |xs| == |multiset(xs)|;
    KeepLength(orig[..lastRow + 1], xs, 0);
  }

  /** Every listed number is below m. */
  predicate ListedBelow(xs: seq<int>, m: int)
  {
    forall k :: 0 <= k < |xs| ==> xs[k] < m
  }

  lemma DeleteResult(orig: seq<Option<Row>>, xs: seq<int>, m: nat)
    requires 0 < m <= |orig| && forall k :: m <= k < |orig| ==> orig[k] == None
    requires ListedBelow(xs, m)
    ensures Keep(orig[..m], xs, 0) + Nones(|xs|) + orig[m..] == Keep(orig, xs, 0) + Nones(|xs|)
  {
    KeepAboveLast(orig, xs, m);
    AllNones(orig[m..]);
    FreedRowsLast(Keep(orig[..m], xs, 0), |xs|, orig[m..], Keep(orig, xs, 0));
  }

  /** No listed row after the last present one: the absent rows after it
      are kept as they are. */
  lemma KeepAboveLast(orig: seq<Option<Row>>, xs: seq<int>, m: nat)
    requires 0 < m <= |orig|
    requires ListedBelow(xs, m)
    ensures Keep(orig, xs, 0) == Keep(orig[..m], xs, 0) + orig[m..]
  {
    var front, rest := orig[..m], orig[m..];
    KeepCut(orig, xs, 0, m);
    assert Keep(orig, xs, 0) == Keep(front, xs, 0) + Keep(rest, xs, m);
    KeepAllAbove(rest, xs, m);
  }

  /** Keeping rows of a sheet cut at row m. */
  lemma {:induction false} KeepCut(s: seq<Option<Row>>, xs: seq<int>, base: int, m: nat)
    requires m <= |s|
    ensures Keep(s, xs, base) == Keep(s[..m], xs, base) + Keep(s[m..], xs, base + m)
    decreases m
  {
    if m == 0 {
      assert s[..0] == [] && s[0..] == s;
    } else {
      var first := if base in xs then [] else [s[0]];
      KeepCut(s[1..], xs, base + 1, m - 1);
      assert s[..m][1..] == s[1..][..m - 1];
      assert s[1..][m - 1..] == s[m..];
      assert base + 1 + (m - 1) == base + m;
      assert Keep(s[..m], xs, base) == first + Keep(s[1..][..m - 1], xs, base + 1);
      SeqAssoc(first, Keep(s[1..][..m - 1], xs, base + 1), Keep(s[m..], xs, base + m));
    }
  }

  /** Rows numbered from m on, all above every listed number, are kept. */
  lemma KeepAllAbove(tail: seq<Option<Row>>, xs: seq<int>, m: nat)
    requires ListedBelow(xs, m)
    ensures Keep(tail, xs, m) == tail
  {
    NoneAbove(xs, m, |tail|);
    KeepAll(tail, xs, m);
  }

  lemma FreedRowsLast(kept: seq<Option<Row>>, count: nat, tail: seq<Option<Row>>, whole: seq<Option<Row>>)
    requires whole == kept + tail && tail == Nones(|tail|)
    ensures kept + Nones(count) + tail == whole + Nones(count)
  {
    NonesAdd(count, |tail|);
    NonesAdd(|tail|, count);
    SeqAssoc(kept, Nones(count), tail);
    SeqAssoc(kept, tail, Nones(count));
  }

  lemma SeqAssoc<T>(a: seq<T>, b: seq<T>, c: seq<T>)
    ensures a + b + c == a + (b + c)
  {
  }

  lemma NoneAbove(xs: seq<int>, m: nat, len: nat)
    requires forall k :: 0 <= k < |xs| ==> xs[k] < m
    ensures forall j :: m <= j < m + len ==> j !in xs
  {
  }

  /** A run of absent rows. */
  lemma {:induction false} AllNones(s: seq<Option<Row>>)
    requires forall k :: 0 <= k < |s| ==> s[k] == None
    ensures s == Nones(|s|)
  {
    assert forall k :: 0 <= k < |s| ==> s[k] == Nones(|s|)[k];
  }

  lemma {:induction false} NonesAdd(a: nat, b: nat)
    ensures Nones(a) + Nones(b) == Nones(a + b)
  {
    assert forall k :: 0 <= k < a + b ==> (Nones(a) + Nones(b))[k] == Nones(a + b)[k];
  }

  /** Dropping the last of the kept rows. */
  lemma LastDropped(rows: seq<Option<Row>>, kept: seq<Option<Row>>)
    requires 0 < |kept| == |rows| && rows[..|kept|] == kept
    ensures rows[..|rows| - 1] == kept[..|kept| - 1] + kept[|kept|..]
  {
    assert kept[|kept|..] == [];
  }

  // ---------------------------------------------------------------- free rows

  /** Row i may be handed out by NewRow: not used yet, and absent or empty. */
  predicate Free(rows: seq<Option<Row>>, used: set<int>, i: nat)
  {
    i !in used && (RowAt(rows, i).None? || RowEmpty(RowAt(rows, i).value))
  }

  /** The smallest free row in [from, MaxRows), if any. */
  function FirstFree(rows: seq<Option<Row>>, used: set<int>, from: nat): (r: Option<nat>)
    requires from <= MaxRows
    ensures r.Some? ==> from <= r.value < MaxRows && Free(rows, used, r.value)
                        && forall k :: from <= k < r.value ==> !Free(rows, used, k)
    ensures r.None? ==> forall k :: from <= k < MaxRows ==> !Free(rows, used, k)
    decreases MaxRows - from
  {
    if from == MaxRows then None
    else if Free(rows, used, from) then Some(from)
    else FirstFree(rows, used, from + 1)
  }

  /** A row NewRow has handed out is not handed out again. */
  lemma NewRowNotRepeated(rows: seq<Option<Row>>, used: set<int>, k: nat)
    requires FirstFree(rows, used, 1) == Some(k)
    ensures FirstFree(rows, used + {k}, 1) != Some(k)
    ensures FirstFree(rows, used + {k}, 1).Some? ==> FirstFree(rows, used + {k}, 1).value > k
  {
    var next := FirstFree(rows, used + {k}, 1);
    if next.Some? && next.value < k {
      assert Free(rows, used, next.value);
    }
  }

  /** IsRowEmpty(row). */
  method IsRowEmpty(row: Row) returns (empty: bool)
    ensures empty == RowEmpty(row)
  {
    var i := 0;
    while i < |row.cells|
      invariant 0 <= i <= |row.cells|
      invariant forall k :: 0 <= k < i ==> IsCellEmpty(Some(row.cells[k]))
    {
      if !IsCellEmpty(Some(row.cells[i])) {
        return false;
      }
      i := i + 1;
    }
    return true;
  }

  /** Invariant-culture, case-insensitive name equality, with the case
      folding of characters as a parameter. */
  predicate SameName(a: string, b: string, fold: char -> char)
  {
    MapChars(fold, a) == MapChars(fold, b)
  }

  /** The usedRows a sheet info registers. */
  function RegisteredRows(rowsById: map<BGId, int>): set<int>
  {
    set id | id in rowsById :: rowsById[id]
  }

  // ---------------------------------------------------------------- the writer

  /** The writer's state: the workbook's sheets, the current sheet and its
      info, the rows handed out on it, the current row (`row`, by its row
      number, -1 before any) and the row counter. */
  class SheetWriter {
    var book: seq<ExcelSheet>
    var usedRows: set<int>
    var currentRow: int
    var sheet: ExcelSheet?
    var rowNumber: int
    var sheetInfo: SheetInfo?

    constructor (book: seq<ExcelSheet>)
      ensures this.book == book && usedRows == {} && currentRow == 0
      ensures sheet == null && rowNumber == -1 && sheetInfo == null
    {
      this.book := book;
      usedRows := {};
      currentRow := 0;
      sheet := null;
      rowNumber := -1;
      sheetInfo := null;
    }

    /** A current row exists on the current sheet. */
    predicate HasRow()
      reads this, sheet
    {
      sheet != null && 0 <= rowNumber < |sheet.rows| && sheet.rows[rowNumber].Some?
    }

    /** NewRow: the smallest free row from 1 on, now marked used; an error
        when every row below MaxRows is taken. */
    method NewRow() returns (r: Result<nat>)
      requires sheet != null
      modifies this`usedRows
      ensures match FirstFree(sheet.rows, old(usedRows), 1)
              case Some(k) => r == Ok(k) && usedRows == old(usedRows) + {k}
              case None => r.Err? && usedRows == old(usedRows)
    {
      var i := 1;
      while i < MaxRows
        invariant 1 <= i <= MaxRows
        invariant FirstFree(sheet.rows, usedRows, 1) == FirstFree(sheet.rows, usedRows, i)
        invariant usedRows == old(usedRows)
      {
        if i in usedRows {
          i := i + 1;
          continue;
        }
        var row := RowAt(sheet.rows, i);
        if row.None? {
          usedRows := usedRows + {i};
          return Ok(i);
        }
        var empty := IsRowEmpty(row.value);
        if empty {
          usedRows := usedRows + {i};
          return Ok(i);
        }
        i := i + 1;
      }
      return Err("It looks like sheet " + sheet.name + " reached the maximum number of rows = 1048575!");
    }

    /** NewCellIndex: one more than the largest column of the current row,
        0 for a row without cells. */
    method NewCellIndex() returns (r: nat)
      requires HasRow()
      ensures var cells := sheet.rows[rowNumber].value.cells;
        (forall k :: 0 <= k < |cells| ==> cells[k].column < r)
        && (|cells| == 0 ==> r == 0)
        && (|cells| > 0 ==> exists k :: 0 <= k < |cells| && cells[k].column == r - 1)
    {
      var cells := sheet.rows[rowNumber].value.cells;
      var max := -1;
      var i := 0;
      while i < |cells|
        invariant 0 <= i <= |cells|
        invariant forall k :: 0 <= k < i ==> cells[k].column <= max
        invariant max >= -1 && (i == 0 <==> max == -1)
        invariant max >= 0 ==> exists k :: 0 <= k < i && cells[k].column == max
      {
        if max < cells[i].column {
          max := cells[i].column;
        }
        i := i + 1;
      }
      r := max + 1;
    }

    /** The first half of Row(index, action): row `index` (created when
        absent) becomes the current row and the row counter. */
    method BeginRow(index: nat)
      requires sheet != null
      modifies this`rowNumber, this`currentRow, sheet`rows
      ensures sheet.rows == EnsureRow(old(sheet.rows), index)
      ensures rowNumber == index && currentRow == index && HasRow()
    {
      sheet.rows := EnsureRow(sheet.rows, index);
      rowNumber := index;
      currentRow := index;
    }

    /** The second half of Row(index, action): the counter moves on. */
    method EndRow()
      modifies this`currentRow
      ensures currentRow == old(currentRow) + 1
    {
      currentRow := currentRow + 1;
    }

    /** Cell(index, value): the current row's cell in that column now holds
        the value; every other cell and row is kept. */
    method WriteCell(index: nat, v: CellValue)
      requires HasRow()
      modifies sheet`rows
      ensures HasRow() && |sheet.rows| == |old(sheet.rows)|
      ensures GetCell(sheet.rows[rowNumber].value, index) == Some(ValueCell(index, v))
      ensures forall k :: k != index ==>
                GetCell(sheet.rows[rowNumber].value, k) == GetCell(old(sheet.rows[rowNumber].value), k)
      ensures forall k :: 0 <= k < |sheet.rows| && k != rowNumber ==> sheet.rows[k] == old(sheet.rows[k])
    {
      sheet.rows := sheet.rows[rowNumber := Some(SetCell(sheet.rows[rowNumber].value, index, v))];
    }

    /** MapHeader(header, index): a column found (index >= 0) is kept, a
        missing one (index < 0) becomes NewCellIndex; the header text is
        written into that column of the current row. */
    method MapHeader(header: string, index: int) returns (r: nat)
      requires HasRow()
      modifies sheet`rows
      ensures index >= 0 ==> r == index
      ensures index < 0 ==> var cells := old(sheet.rows[rowNumber].value.cells);
                (forall k :: 0 <= k < |cells| ==> cells[k].column < r)
                && (|cells| == 0 ==> r == 0)
                && (|cells| > 0 ==> exists k :: 0 <= k < |cells| && cells[k].column == r - 1)
      ensures HasRow() && GetCell(sheet.rows[rowNumber].value, r) == Some(ValueCell(r, TextValue(header)))
      ensures forall k :: k != r ==>
                GetCell(sheet.rows[rowNumber].value, k) == GetCell(old(sheet.rows[rowNumber].value), k)
    {
      if index < 0 {
        r := NewCellIndex();
      } else {
        r := index;
      }
      WriteCell(r, TextValue(header));
    }

    /** Delete(rows): the listed rows (distinct row numbers of the sheet,
        none after its last present row) disappear, the surviving rows move
        up in their order, the freed rows at the end are absent, and the
        list is left sorted. */
    method Delete(list: array?<int>)
      requires sheet != null
      requires list != null ==> forall x :: multiset(list[..])[x] <= 1
      requires list != null ==> forall k :: 0 <= k < list.Length ==> 0 <= list[k] < |sheet.rows|
      requires list != null ==> forall k :: 0 <= k < list.Length ==> list[k] <= LastRowNum(sheet.rows)
      modifies list, sheet`rows
      ensures list == null || list.Length == 0 ==> sheet.rows == old(sheet.rows)
      ensures list != null ==> Sorted(list[..]) && multiset(list[..]) == old(multiset(list[..]))
      ensures list != null ==> sheet.rows == Keep(old(sheet.rows), old(list[..]), 0) + Nones(list.Length)
    {
      if list == null || list.Length == 0 {
        if list != null {
          KeepAll(sheet.rows, list[..], 0);
          assert sheet.rows + Nones(0) == sheet.rows;
        }
        return;
      }
      ghost var orig := sheet.rows;
      ghost var given := list[..];
      SortRows(list);
      var lastRow := LastRowNum(sheet.rows);
      SortedList(orig, given, list[..], lastRow);
      ghost var xs := list[..];
      ShiftOut(list, lastRow);
      RemoveLast(list.Length, lastRow);
      DeleteResult(orig, xs, lastRow + 1);
    }

    /** The shifting loop of Delete, over the sorted list: afterwards the
        first rows up to the last present one start with the survivors,
        and the absent rows after it are untouched. */
    method ShiftOut(list: array<int>, lastRow: nat)
      requires sheet != null && StrictlySorted(list[..])
      requires lastRow < |sheet.rows| && list.Length <= lastRow + 1
      requires forall k :: 0 <= k < list.Length ==> 0 <= list[k] <= lastRow
      modifies sheet`rows
      ensures |sheet.rows| == |old(sheet.rows)|
      ensures sheet.rows[lastRow + 1..] == old(sheet.rows)[lastRow + 1..]
      ensures sheet.rows[..lastRow + 1 - list.Length] == Keep(old(sheet.rows)[..lastRow + 1], list[..], 0)
    {
      ghost var orig := sheet.rows;
      ghost var xs := list[..];
      ghost var n := |sheet.rows|;
      ghost var m := lastRow + 1;
      KeepAll(orig[..m], xs[..0], 0);
      assert orig[..m][..m] == orig[..m];
      var i := 0;
      while i < list.Length
        invariant 0 <= i <= list.Length
        invariant |sheet.rows| == n && sheet.rows[m..] == orig[m..]
        invariant sheet.rows[..m][..m - i] == Keep(orig[..m], xs[..i], 0)
      {
        var rownum := list[i] - i;
        DeleteStep(sheet.rows[..m], orig[..m], xs, i);
        if rownum < lastRow {
          ShiftUpPrefix(sheet.rows, m, rownum + 1, lastRow);
          sheet.rows := ShiftUp(sheet.rows, rownum + 1, lastRow);
        }
        i := i + 1;
      }
      assert xs[..list.Length] == xs;
    }

    /** The removal loop of Delete: rows lastRow - count + 1 .. lastRow
        become absent. */
    method RemoveLast(count: nat, lastRow: nat)
      requires sheet != null && count <= lastRow + 1 <= |sheet.rows|
      modifies sheet`rows
      ensures sheet.rows == old(sheet.rows)[..lastRow + 1 - count] + Nones(count) + old(sheet.rows)[lastRow + 1..]
    {
      ghost var orig := sheet.rows;
      ghost var n := |sheet.rows|;
      ghost var m := lastRow + 1;
      var j := lastRow;
      while j > lastRow - count
        invariant lastRow - count <= j <= lastRow
        invariant |sheet.rows| == n && sheet.rows[..m - count] == orig[..m - count]
        invariant sheet.rows[m..] == orig[m..]
        invariant forall k :: j < k < m ==> sheet.rows[k] == None
      {
        if sheet.rows[j].Some? {
          sheet.rows := sheet.rows[j := None];
        }
        j := j - 1;
      }
      assert forall k :: 0 <= k < n ==>
        sheet.rows[k] == (orig[..m - count] + Nones(count) + orig[m..])[k];
    }

    /** GetDuplicateSheetName(name): the first sheet name of the book equal
        to `name` ignoring case. */
    method GetDuplicateSheetName(name: string, fold: char -> char) returns (r: Option<string>)
      ensures r.Some? ==> exists i :: 0 <= i < |book| && book[i].name == r.value && SameName(name, r.value, fold)
      ensures r.None? <==> forall i :: 0 <= i < |book| ==> !SameName(name, book[i].name, fold)
    {
      var i := 0;
      while i < |book|
        invariant 0 <= i <= |book|
        invariant forall k :: 0 <= k < i ==> !SameName(name, book[k].name, fold)
      {
        if SameName(name, book[i].name, fold) {
          return Some(book[i].name);
        }
        i := i + 1;
      }
      return None;
    }

    /** A workbook holds each of its sheets once. */
    static predicate DistinctSheets(book: seq<ExcelSheet>)
    {
      forall i, j :: 0 <= i < j < |book| ==> book[i] != book[j]
    }

    /** Sheet(name, override, provider, factory, action) up to the action:
        with no sheet info, a new sheet is created unless the book already
        has one of that name ignoring case, which is an error; with an info,
        its sheet is selected and, when overriding, emptied together with
        the info. usedRows becomes the rows the info registers. */
    method Sheet(name: string, overriding: bool, provided: SheetInfo?, factory: SheetInfo, fold: char -> char)
      returns (r: Result<SheetInfo>)
      requires provided != null ==> provided.sheetNumber < |book|
      requires DistinctSheets(book)
      modifies this, provided, book
      ensures DistinctSheets(book)
      ensures currentRow == 0
      ensures provided == null && (exists i :: 0 <= i < |old(book)| && SameName(name, old(book[i].name), fold)) ==>
                r.Err? && book == old(book) && sheet == old(sheet) && sheetInfo == old(sheetInfo)
                && usedRows == old(usedRows)
      ensures provided == null && (forall i :: 0 <= i < |old(book)| ==> !SameName(name, old(book[i].name), fold)) ==>
                r == Ok(factory) && sheet != null && fresh(sheet) && sheet.name == name && sheet.rows == []
                && book == old(book) + [sheet]
                && sheetInfo == factory && usedRows == RegisteredRows(factory.rowsById)
      ensures provided != null ==>
                r.Ok? && r.value == provided && book == old(book) && sheet == old(book[provided.sheetNumber])
                && sheetInfo == provided && usedRows == RegisteredRows(provided.rowsById)
                && (overriding ==> sheet.rows == [] && provided.rowsById == map[])
                && (!overriding ==> sheet.rows == old(book[provided.sheetNumber].rows) && provided.rowsById == old(provided.rowsById))
      ensures forall i :: 0 <= i < |old(book)| && (provided == null || i != provided.sheetNumber) ==>
                old(book)[i].rows == old(book[i].rows)
    {
      currentRow := 0;
      var info: SheetInfo;
      if provided == null {
        var duplicateName := GetDuplicateSheetName(name, fold);
        if duplicateName.Some? {
          return Err("Can not create an Excel sheet with name=" + name + ", cause a sheet with the same name="
                     + duplicateName.value + " already exists (comparison is case insensitive)");
        }
        var created := new ExcelSheet(name);
        sheet := created;
        book := book + [created];
        info := factory;
      } else {
        sheet := book[provided.sheetNumber];
        if overriding {
          sheet.rows := [];
          provided.Clear();
        }
        info := provided;
      }
      sheetInfo := info;
      usedRows := RegisteredRows(info.rowsById);
      return Ok(info);
    }

    /** GetRowIndex(info, id, isAdding, isUpdating): a registered id gives
        its row and succeeds iff updating; an unregistered one succeeds iff
        adding, with a NewRow. */
    method GetRowIndex(info: SheetInfo, id: BGId, isAdding: bool, isUpdating: bool)
      returns (found: Result<bool>, rowIndex: int)
      requires sheet != null
      modifies this`usedRows
      ensures info.GetRow(id) != -1 ==>
                found == Ok(isUpdating) && rowIndex == info.GetRow(id) && usedRows == old(usedRows)
      ensures info.GetRow(id) == -1 && !isAdding ==>
                found == Ok(false) && rowIndex == -1 && usedRows == old(usedRows)
      ensures info.GetRow(id) == -1 && isAdding ==>
                match FirstFree(sheet.rows, old(usedRows), 1)
                case Some(k) => found == Ok(true) && rowIndex == k && usedRows == old(usedRows) + {k}
                case None => found.Err? && usedRows == old(usedRows)
    {
      rowIndex := info.GetRow(id);
      if rowIndex == -1 {
        if isAdding {
          var row := NewRow();
          if row.Err? {
            return Err(row.error), rowIndex;
          }
          rowIndex := row.value;
        } else {
          return Ok(false), rowIndex;
        }
      } else if !isUpdating {
        return Ok(false), rowIndex;
      }
      return Ok(true), rowIndex;
    }
  }
}
