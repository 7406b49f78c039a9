// The spreadsheet cells the Excel runtime reads and writes (NPOI's ICell
// and IRow), the emptiness test the sheet writer uses
// (BGExcelSheetWriterART.IsCellEmpty) and the conversion of a cell to text
// the sheet readers use (BGExcelSheetReaderART.ReadCell). A number's
// invariant-culture text is a parameter: doubles are not modelled.
module ExcelCells {
  import opened Wrappers
  import opened DotNetText

  /** A database id (BGId): the empty id, or one of the others. */
  datatype BGId = EmptyId | Id(key: nat)

  /** NPOI's CellType. */
  datatype CellType = UnknownType | NumericType | StringType | FormulaType | BlankType | BooleanType | ErrorType

  /** The cell properties the rules read. For a formula cell the number,
      text and flag hold its cached result, and `resultType` is the type
      the result is read as: the cached result type, or for an array
      formula the type the workbook's evaluator reports. */
  datatype Cell = Cell(column: nat, cellType: CellType, number: real, text: Option<string>, flag: bool,
                       formula: Option<string>, resultType: CellType)

  /** A row: its cells in list order. */
  datatype Row = Row(cells: seq<Cell>)

  /** `row.GetCell(column)`: the row's cell in that column, if any. */
  function GetCell(row: Row, column: int): (r: Option<Cell>)
    ensures r.Some? ==> r.value in row.cells && r.value.column == column
    ensures r.None? <==> forall i :: 0 <= i < |row.cells| ==> row.cells[i].column != column
    decreases |row.cells|
  {
    if |row.cells| == 0 then None
    else if row.cells[0].column == column then Some(row.cells[0])
    else
      var r := GetCell(Row(row.cells[1..]), column);
      assert forall i :: 1 <= i < |row.cells| ==> row.cells[i] == row.cells[1..][i - 1];
      r
  }

  /** IsCellEmpty: a missing cell, a blank or unknown one, the number 0,
      a null or empty string and `false` are empty; formulas and errors
      never are. */
  predicate IsCellEmpty(cell: Option<Cell>)
  {
    match cell
    case None => true
    case Some(c) =>
      match c.cellType
      case UnknownType => true
      case NumericType => c.number == 0.0
      case StringType => IsNullOrEmpty(c.text)
      case FormulaType => false
      case BlankType => true
      case BooleanType => !c.flag
      case ErrorType => false
  }

  /** ReadCell(cellType, cell, allowFormula): the cell as text, or None
      for null. Err is the exception a formula whose result is itself
      read as a formula throws. */
  function ReadCell(t: CellType, cell: Cell, allowFormula: bool, numberText: real -> string): Result<Option<string>>
    decreases allowFormula
  {
    match t
    case NumericType => Ok(Some(numberText(cell.number)))
    case StringType => Ok(if cell.text.None? then None else Some(Trim(cell.text.value)))
    case BooleanType => Ok(Some(if cell.flag then "1" else "0"))
    case FormulaType =>
      if !allowFormula then Err("Formulas not allowed at this point")
      else if IsNullOrEmpty(cell.formula) then Ok(None)
      else ReadCell(cell.resultType, cell, false, numberText)
    case _ => Ok(None)
  }

  /** ReadAsString: null for a missing cell, else ReadCell on the cell's
      own type with formulas allowed. */
  function ReadAsString(cell: Option<Cell>, numberText: real -> string): Result<Option<string>>
  {
    if cell.None? then Ok(None) else ReadCell(cell.value.cellType, cell.value, true, numberText)
  }

  /** The value text a non-formula cell of type `t` holding `c`'s values reads as. */
  function PlainText(t: CellType, c: Cell, numberText: real -> string): Option<string>
  {
    match t
    case NumericType => Some(numberText(c.number))
    case StringType => if c.text.None? then None else Some(Trim(c.text.value))
    case BooleanType => Some(if c.flag then "1" else "0")
    case _ => None
  }

  /** What ReadAsString gives for each kind of cell: strings come back
      trimmed and booleans as "1" or "0"; blank, error and unknown cells
      read as null; a formula reads as null when its formula text is empty,
      fails when its result is itself a formula, and otherwise reads as its
      result would. */
  lemma ReadAsStringSpec(cell: Cell, numberText: real -> string)
    ensures var r := ReadAsString(Some(cell), numberText);
      (r.Err? <==> cell.cellType == FormulaType && !IsNullOrEmpty(cell.formula) && cell.resultType == FormulaType)
      && (cell.cellType != FormulaType ==> r == Ok(PlainText(cell.cellType, cell, numberText)))
      && (cell.cellType == FormulaType && IsNullOrEmpty(cell.formula) ==> r == Ok(None))
      && (cell.cellType == FormulaType && !IsNullOrEmpty(cell.formula) && cell.resultType != FormulaType ==>
            r == Ok(PlainText(cell.resultType, cell, numberText)))
  {
  }

  /** A string, blank or unknown cell that IsCellEmpty calls empty reads
      as null or "" (a zero number or a `false` reads as "0", so those two
      kinds are excluded). */
  lemma EmptyCellReadsNothing(cell: Cell, numberText: real -> string)
    requires IsCellEmpty(Some(cell)) && cell.cellType != NumericType && cell.cellType != BooleanType
    ensures ReadAsString(Some(cell), numberText) == Ok(None) || ReadAsString(Some(cell), numberText) == Ok(Some(""))
  {
  }

  /** ReadNotNull(row, index, action): the text the action receives, or
      None when it is not called (no cell, or the cell reads as null or
      ""). */
  function ReadNotNull(row: Row, index: int, numberText: real -> string): (r: Result<Option<string>>)
    ensures r.Ok? && r.value.Some? ==>
              r.value.value != "" && GetCell(row, index).Some?
              && ReadAsString(GetCell(row, index), numberText) == Ok(r.value)
    ensures GetCell(row, index).None? ==> r == Ok(None)
    ensures r.Err? <==> ReadAsString(GetCell(row, index), numberText).Err?
  {
    var cell := GetCell(row, index);
    if cell.None? then Ok(None)
    else
      match ReadAsString(cell, numberText)
      case Err(e) => Err(e)
      case Ok(value) => if IsNullOrEmpty(value) then Ok(None) else Ok(value)
  }

  /** The rows, in order, whose action does not end in an ExitException. */
  function Survivors(rows: seq<Row>, exits: Row -> bool): seq<Row>
  {
    if |rows| == 0 then []
    else
      var last := rows[|rows| - 1];
      Survivors(rows[..|rows| - 1], exits) + (if exits(last) then [] else [last])
  }

  /** An exit abandons only its own row: exactly the rows whose action
      does not exit survive. */
  lemma {:induction false} SurvivorsSpec(rows: seq<Row>, exits: Row -> bool)
    ensures forall x :: x in Survivors(rows, exits) <==> x in rows && !exits(x)
    decreases |rows|
  {
    if |rows| > 0 {
      var last := rows[|rows| - 1];
      assert rows == rows[..|rows| - 1] + [last];
      SurvivorsSpec(rows[..|rows| - 1], exits);
    }
  }

  /** ForEachRowNoHeader(sheet, action) over the sheet's enumerated rows:
      the first row is the header and is skipped, every other row is handed
      to the action in order, and the count includes the header. A row
      whose action ends in an ExitException (`exits`) is abandoned and the
      loop goes on; `completed` are the rows whose action ran to the end. */
  method ForEachRowNoHeader(rows: seq<Row>, exits: Row -> bool) returns (count: nat, visited: seq<Row>, completed: seq<Row>)
    ensures count == |rows|
    ensures visited == if |rows| == 0 then [] else rows[1..]
    ensures completed == Survivors(visited, exits)
  {
    count := 0;
    visited := [];
    completed := [];
    while count < |rows|
      invariant 0 <= count <= |rows|
      invariant visited == if count == 0 then [] else rows[1..count]
      invariant completed == Survivors(visited, exits)
    {
      var row := rows[count];
      count := count + 1;
      if count == 1 {
        continue;
      }
      assert rows[1..count] == rows[1..count - 1] + [row];
      assert (visited + [row])[..|visited|] == visited;
      visited := visited + [row];
      if !exits(row) {
        completed := completed + [row];
      }
    }
  }

  /** ForEachCell(row, action): each cell of a row, in list order, paired
      with its position in the list (not its column); a null row gives
      nothing. */
  method ForEachCell(row: Option<Row>) returns (visits: seq<(nat, Cell)>)
    ensures row.None? ==> visits == []
    ensures row.Some? ==> |visits| == |row.value.cells|
                          && forall i :: 0 <= i < |visits| ==> visits[i] == (i, row.value.cells[i])
  {
    visits := [];
    if row.None? {
      return;
    }
    var cells := row.value.cells;
    var i := 0;
    while i < |cells|
      invariant 0 <= i <= |cells| && |visits| == i
      invariant forall k :: 0 <= k < i ==> visits[k] == (k, cells[k])
    {
      visits := visits + [(i, cells[i])];
      i := i + 1;
    }
  }
}
