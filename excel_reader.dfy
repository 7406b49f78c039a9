// Importing entities from an Excel workbook (BGExcelSheetReaderEntityRT):
// the header row maps columns to fields and to the id column, every later
// row is classified (skipped, an existing entity, a new entity) and its
// values are read as text, and the collected rows are flushed into the
// database, plain fields first and relations after all of them. The
// database is an effect log; its field conversions are not modelled.
module ExcelEntityReader {
  import opened Wrappers
  import opened DotNetText
  import opened ExcelCells
  import opened ExcelIds

  /** The header of the id column (BGBookInfo.IdHeader). */
  const IdHeader := "_id"

  /** An enumerated sheet row: its row number and its cells. */
  datatype SheetRow = SheetRow(rowNum: nat, row: Row)

  /** A row accepted for import: its id (Empty for a new entity), one text
      per mapped column, and the sheet row it came from. */
  datatype RowData = RowData(entityId: BGId, values: seq<Option<string>>, source: SheetRow)

  /** What the import does to the database, in order. */
  datatype Effect =
    | NewEntity(meta: nat, id: BGId)
    | IdCellWritten(rowNum: nat, column: nat, id: BGId)
    | SetField(meta: nat, id: BGId, field: nat, value: string)
    | SetRelation(meta: nat, field: nat, rowIndex: nat, value: string)

  // ---------------------------------------------------------------- header mapping

  /** The header text of a cell: a string cell's text, or a formula's
      cached string; None for any other cell. */
  function HeaderName(cell: Cell): Option<string>
  {
    if cell.cellType == FormulaType then (if cell.resultType == StringType then cell.text else None)
    else if cell.cellType == StringType then cell.text
    else None
  }

  /** The id column (-1 when none) and the (field, column) pairs in header order. */
  datatype Mapping = Mapping(indexId: int, fields: seq<(nat, int)>)

  /** One header cell: an empty or non-text header is skipped, the id
      header sets the id column, a name with a field adds that field's
      column, and any other name is skipped. */
  function MapStep(m: Mapping, cell: Cell, fieldOf: string -> Option<nat>): Mapping
  {
    var name := HeaderName(cell);
    if IsNullOrEmpty(name) then m
    else if name.value == IdHeader then m.(indexId := cell.column)
    else if fieldOf(name.value).None? then m
    else m.(fields := AddField(m.fields, fieldOf(name.value).value, cell.column))
  }

  /** No field is mapped to two columns. */
  predicate DistinctFields(fields: seq<(nat, int)>)
  {
    forall i, j :: 0 <= i < j < |fields| ==> fields[i].0 != fields[j].0
  }

  /** The position of field f's entry, or -1 when f is not mapped. */
  function FieldIndex(fields: seq<(nat, int)>, f: nat): (k: int)
    ensures -1 <= k < |fields|
    ensures k == -1 <==> forall j :: 0 <= j < |fields| ==> fields[j].0 != f
    ensures k >= 0 ==> fields[k].0 == f
  {
    if |fields| == 0 then -1
    else if fields[|fields| - 1].0 == f then |fields| - 1
    else FieldIndex(fields[..|fields| - 1], f)
  }

  /** info.AddField(f, column): the sheet info keeps one column per field,
      so a field mapped again keeps its place with the new column, and a
      new field is added last. Every other entry stays where it was. */
  function AddField(fields: seq<(nat, int)>, f: nat, column: int): (r: seq<(nat, int)>)
    ensures (f, column) in r
    ensures |fields| <= |r| <= |fields| + 1
    ensures forall j :: 0 <= j < |fields| ==> r[j].0 == fields[j].0
    ensures forall j :: 0 <= j < |fields| && fields[j].0 != f ==> r[j] == fields[j]
    ensures forall j :: |fields| <= j < |r| ==> r[j] == (f, column)
    ensures DistinctFields(fields) ==> DistinctFields(r) && forall j :: 0 <= j < |r| && r[j].0 == f ==> r[j].1 == column
  {
    var k := FieldIndex(fields, f);
    if k == -1 then fields + [(f, column)]
    else
      var r := fields[k := (f, column)];
      assert r[k] == (f, column);
      r
  }

  /** The mapping of a header row's cells, in list order. */
  function MapHeaders(cells: seq<Cell>, fieldOf: string -> Option<nat>): Mapping
  {
    if |cells| == 0 then Mapping(-1, [])
    else MapStep(MapHeaders(cells[..|cells| - 1], fieldOf), cells[|cells| - 1], fieldOf)
  }

  /** A header cell names a field: a non-empty text other than the id
      header that the table knows. */
  predicate NamesField(cell: Cell, fieldOf: string -> Option<nat>, field: nat)
  {
    !IsNullOrEmpty(HeaderName(cell)) && HeaderName(cell).value != IdHeader
    && fieldOf(HeaderName(cell).value) == Some(field)
  }

  /** Some header cell names the entry's field, in the entry's column. */
  predicate FromHeader(cells: seq<Cell>, fieldOf: string -> Option<nat>, entry: (nat, int))
  {
    exists c :: 0 <= c < |cells| && NamesField(cells[c], fieldOf, entry.0) && cells[c].column == entry.1
  }

  /** No field is mapped twice, whatever the header row. */
  lemma {:induction false} MapHeadersDistinct(cells: seq<Cell>, fieldOf: string -> Option<nat>)
    ensures DistinctFields(MapHeaders(cells, fieldOf).fields)
    decreases |cells|
  {
    if |cells| > 0 {
      MapHeadersDistinct(cells[..|cells| - 1], fieldOf);
    }
  }

  /** The k-th mapped field column comes from a header cell naming that
      field, in that column. */
  lemma {:induction false} FieldFromHeader(cells: seq<Cell>, fieldOf: string -> Option<nat>, k: nat)
    requires k < |MapHeaders(cells, fieldOf).fields|
    ensures FromHeader(cells, fieldOf, MapHeaders(cells, fieldOf).fields[k])
    decreases |cells|
  {
    assert |cells| > 0;
    var n := |cells| - 1;
    var prev := MapHeaders(cells[..n], fieldOf);
    var m := MapHeaders(cells, fieldOf);
    assert m == MapStep(prev, cells[n], fieldOf);
    MapHeadersDistinct(cells[..n], fieldOf);
    if k < |prev.fields| && m.fields[k] == prev.fields[k] {
      FieldFromHeader(cells[..n], fieldOf, k);
      var c :| 0 <= c < n && NamesField(cells[..n][c], fieldOf, prev.fields[k].0)
               && cells[..n][c].column == prev.fields[k].1;
      assert cells[c] == cells[..n][c];
    } else {
      assert NamesField(cells[n], fieldOf, m.fields[k].0) && cells[n].column == m.fields[k].1;
    }
  }

  /** The last header cell naming a field is mapped, with its column. */
  lemma {:induction false} HeaderMapped(cells: seq<Cell>, fieldOf: string -> Option<nat>, c: nat, f: nat)
    requires c < |cells| && NamesField(cells[c], fieldOf, f)
    requires forall d :: c < d < |cells| ==> !NamesField(cells[d], fieldOf, f)
    ensures (f, cells[c].column as int) in MapHeaders(cells, fieldOf).fields
    decreases |cells|
  {
    var n := |cells| - 1;
    var prev := MapHeaders(cells[..n], fieldOf);
    var m := MapHeaders(cells, fieldOf);
    assert m == MapStep(prev, cells[n], fieldOf);
    if c < n {
      assert cells[..n][c] == cells[c];
      HeaderMapped(cells[..n], fieldOf, c, f);
      var j :| 0 <= j < |prev.fields| && prev.fields[j] == (f, cells[c].column as int);
      assert m.fields[j] == prev.fields[j];
    }
  }

  /** Each field is mapped once; every mapped field column comes from a
      header cell naming that field, in that column; and the last cell
      naming a field is the one mapped. */
  lemma MapHeadersFields(cells: seq<Cell>, fieldOf: string -> Option<nat>)
    ensures var m := MapHeaders(cells, fieldOf);
      DistinctFields(m.fields)
      && (forall k :: 0 <= k < |m.fields| ==> FromHeader(cells, fieldOf, m.fields[k]))
      && (forall c, f: nat ::
            (0 <= c < |cells| && NamesField(cells[c], fieldOf, f)
             && forall d :: c < d < |cells| ==> !NamesField(cells[d], fieldOf, f))
            ==> (f, cells[c].column as int) in m.fields)
  {
    MapHeadersDistinct(cells, fieldOf);
    forall k | 0 <= k < |MapHeaders(cells, fieldOf).fields|
      ensures FromHeader(cells, fieldOf, MapHeaders(cells, fieldOf).fields[k])
    {
      FieldFromHeader(cells, fieldOf, k);
    }
    forall c, f: nat | 0 <= c < |cells| && NamesField(cells[c], fieldOf, f)
                       && (forall d :: c < d < |cells| ==> !NamesField(cells[d], fieldOf, f))
      ensures (f, cells[c].column as int) in MapHeaders(cells, fieldOf).fields
    {
      HeaderMapped(cells, fieldOf, c, f);
    }
  }

  /** The id column is the column of the last id header, and -1 when
      there is none. */
  lemma {:induction false} MapHeadersIndexId(cells: seq<Cell>, fieldOf: string -> Option<nat>)
    ensures var m := MapHeaders(cells, fieldOf);
      (m.indexId == -1 <==> forall c :: 0 <= c < |cells| ==> HeaderName(cells[c]) != Some(IdHeader))
      && (m.indexId != -1 ==>
            exists c :: 0 <= c < |cells| && HeaderName(cells[c]) == Some(IdHeader) && cells[c].column == m.indexId
                        && (forall d :: c < d < |cells| ==> HeaderName(cells[d]) != Some(IdHeader)))
    decreases |cells|
  {
    if |cells| > 0 {
      var n := |cells| - 1;
      MapHeadersIndexId(cells[..n], fieldOf);
      assert forall c :: 0 <= c < n ==> cells[..n][c] == cells[c];
    }
  }

  /** info.GetFieldColumn: each mapped field's column (a later header for
      the same field wins). */
  function ColumnsById(fields: seq<(nat, int)>): map<nat, int>
  {
    if |fields| == 0 then map[]
    else ColumnsById(fields[..|fields| - 1])[fields[|fields| - 1].0 := fields[|fields| - 1].1]
  }

  /** With one column per field, GetFieldColumn and the mapped list agree:
      exactly the mapped fields have a column, and it is the listed one. */
  lemma {:induction false} ColumnsByIdAgrees(fields: seq<(nat, int)>)
    requires DistinctFields(fields)
    ensures forall k :: 0 <= k < |fields| ==>
              fields[k].0 in ColumnsById(fields) && ColumnsById(fields)[fields[k].0] == fields[k].1
    ensures forall f :: f in ColumnsById(fields) ==> exists k :: 0 <= k < |fields| && fields[k].0 == f
  {
    if |fields| > 0 {
      var n := |fields| - 1;
      ColumnsByIdAgrees(fields[..n]);
      forall k | 0 <= k < n
        ensures fields[k] == fields[..n][k] && fields[k].0 != fields[n].0
      {
      }
    }
  }

  /** The number of accepted rows for new entities. */
  function CountNew(rows: seq<RowData>): nat
  {
    if |rows| == 0 then 0
    else CountNew(rows[..|rows| - 1]) + (if rows[|rows| - 1].entityId == EmptyId then 1 else 0)
  }

  /** The rows the row loop counts: every enumerated row after the first
      that is present and is not row 0. */
  function CountedRows(rows: seq<Option<SheetRow>>): (r: nat)
    ensures r < |rows| || r == 0
  {
    if |rows| <= 1 then 0
    else
      var last := rows[|rows| - 1];
      CountedRows(rows[..|rows| - 1]) + (if last.Some? && last.value.rowNum != 0 then 1 else 0)
  }

  // ---------------------------------------------------------------- flushing

  /** The entity a row is flushed into: its own id, or a fresh one. */
  function EntityOf(row: RowData, newId: BGId): BGId
  {
    if row.entityId != EmptyId then row.entityId else newId
  }

  /** EnsureEntity: the entity is created (with the row's id, or a fresh
      id that is also written into the row's id cell when there is an id
      column). */
  function EnsureEffects(meta: nat, row: RowData, indexId: int, newId: BGId): (r: seq<Effect>)
    ensures forall e :: e in r ==> e.NewEntity? || e.IdCellWritten?
    ensures |r| > 0 && r[0] == NewEntity(meta, EntityOf(row, newId))
  {
    if row.entityId != EmptyId then [NewEntity(meta, row.entityId)]
    else [NewEntity(meta, newId)] + (if indexId >= 0 then [IdCellWritten(row.source.rowNum, indexId, newId)] else [])
  }

  /** The field writes for the first n mapped columns of one row. */
  function FieldEffects(meta: nat, id: BGId, fields: seq<(nat, int)>, values: seq<Option<string>>,
                        relations: set<nat>, n: nat): seq<Effect>
    requires n <= |fields| && n <= |values|
  {
    if n == 0 then []
    else
      FieldEffects(meta, id, fields, values, relations, n - 1)
      + (if fields[n - 1].0 in relations || IsNullOrEmpty(values[n - 1]) then []
         else [SetField(meta, id, fields[n - 1].0, values[n - 1].value)])
  }

  predicate Shaped(rows: seq<RowData>, fields: seq<(nat, int)>)
  {
    forall i :: 0 <= i < |rows| ==> |rows[i].values| == |fields|
  }

  /** FlushData's effects for the first n rows. */
  function DataEffects(meta: nat, rows: seq<RowData>, fields: seq<(nat, int)>, relations: set<nat>, indexId: int,
                       newIds: seq<BGId>, n: nat): seq<Effect>
    requires n <= |rows| && n <= |newIds| && Shaped(rows, fields)
  {
    if n == 0 then []
    else
      var row := rows[n - 1];
      DataEffects(meta, rows, fields, relations, indexId, newIds, n - 1)
      + EnsureEffects(meta, row, indexId, newIds[n - 1])
      + FieldEffects(meta, EntityOf(row, newIds[n - 1]), fields, row.values, relations, |fields|)
  }

  /** The relation writes of one relation column for the first n rows. */
  function ColumnRelations(meta: nat, rows: seq<RowData>, field: nat, j: nat, n: nat): seq<Effect>
    requires n <= |rows| && forall i :: 0 <= i < |rows| ==> j < |rows[i].values|
  {
    if n == 0 then []
    else
      ColumnRelations(meta, rows, field, j, n - 1)
      + (if IsNullOrEmpty(rows[n - 1].values[j]) then [] else [SetRelation(meta, field, n - 1, rows[n - 1].values[j].value)])
  }

  /** FlushRelations' effects for the first m mapped columns. */
  function RelationEffects(meta: nat, rows: seq<RowData>, fields: seq<(nat, int)>, relations: set<nat>, m: nat): seq<Effect>
    requires m <= |fields| && Shaped(rows, fields)
  {
    if m == 0 then []
    else
      RelationEffects(meta, rows, fields, relations, m - 1)
      + (if fields[m - 1].0 !in relations then [] else ColumnRelations(meta, rows, fields[m - 1].0, m - 1, |rows|))
  }

  lemma DataEffectsSnoc(meta: nat, rows: seq<RowData>, fields: seq<(nat, int)>, relations: set<nat>, indexId: int,
                        newIds: seq<BGId>, n: nat)
    requires n < |rows| && n < |newIds| && Shaped(rows, fields)
    ensures DataEffects(meta, rows, fields, relations, indexId, newIds, n + 1)
            == DataEffects(meta, rows, fields, relations, indexId, newIds, n)
               + EnsureEffects(meta, rows[n], indexId, newIds[n])
               + FieldEffects(meta, EntityOf(rows[n], newIds[n]), fields, rows[n].values, relations, |fields|)
  {
  }

  /** A data write: it creates an entity, fills its id cell, or sets a
      plain field to a non-empty value. */
  predicate IsDataEffect(e: Effect, relations: set<nat>)
  {
    e.NewEntity? || e.IdCellWritten? || (e.SetField? && e.field !in relations && e.value != "")
  }

  /** A relation write of a non-empty value to a relation field. */
  predicate IsRelationEffect(e: Effect, relations: set<nat>)
  {
    e.SetRelation? && e.field in relations && e.value != ""
  }

  lemma {:induction false} FieldEffectsAreData(meta: nat, id: BGId, fields: seq<(nat, int)>, values: seq<Option<string>>,
                                               relations: set<nat>, n: nat)
    requires n <= |fields| && n <= |values|
    ensures forall e :: e in FieldEffects(meta, id, fields, values, relations, n) ==> IsDataEffect(e, relations) && e.SetField?
  {
    if n > 0 {
      FieldEffectsAreData(meta, id, fields, values, relations, n - 1);
    }
  }

  /** FlushData writes only entities, id cells and plain fields with
      non-empty values. */
  lemma {:induction false} DataEffectsAreData(meta: nat, rows: seq<RowData>, fields: seq<(nat, int)>, relations: set<nat>,
                                              indexId: int, newIds: seq<BGId>, n: nat)
    requires n <= |rows| && n <= |newIds| && Shaped(rows, fields)
    ensures forall e :: e in DataEffects(meta, rows, fields, relations, indexId, newIds, n) ==> IsDataEffect(e, relations)
  {
    if n > 0 {
      DataEffectsAreData(meta, rows, fields, relations, indexId, newIds, n - 1);
      var row := rows[n - 1];
      FieldEffectsAreData(meta, EntityOf(row, newIds[n - 1]), fields, row.values, relations, |fields|);
      var before := DataEffects(meta, rows, fields, relations, indexId, newIds, n - 1);
      var ensure := EnsureEffects(meta, row, indexId, newIds[n - 1]);
      var writes := FieldEffects(meta, EntityOf(row, newIds[n - 1]), fields, row.values, relations, |fields|);
      assert DataEffects(meta, rows, fields, relations, indexId, newIds, n) == before + ensure + writes;
      AllData(before, ensure, writes, relations);
    }
  }

  lemma AllData(a: seq<Effect>, b: seq<Effect>, c: seq<Effect>, relations: set<nat>)
    requires forall e :: e in a ==> IsDataEffect(e, relations)
    requires forall e :: e in b ==> e.NewEntity? || e.IdCellWritten?
    requires forall e :: e in c ==> IsDataEffect(e, relations)
    ensures forall e :: e in a + b + c ==> IsDataEffect(e, relations)
  {
  }

  lemma {:induction false} ColumnRelationsAreRelations(meta: nat, rows: seq<RowData>, field: nat, j: nat, n: nat,
                                                       relations: set<nat>)
    requires n <= |rows| && (forall i :: 0 <= i < |rows| ==> j < |rows[i].values|) && field in relations
    ensures forall e :: e in ColumnRelations(meta, rows, field, j, n) ==> IsRelationEffect(e, relations)
  {
    if n > 0 {
      ColumnRelationsAreRelations(meta, rows, field, j, n - 1, relations);
    }
  }

  /** FlushRelations writes only relation fields with non-empty values. */
  lemma {:induction false} RelationEffectsAreRelations(meta: nat, rows: seq<RowData>, fields: seq<(nat, int)>,
                                                       relations: set<nat>, m: nat)
    requires m <= |fields| && Shaped(rows, fields)
    ensures forall e :: e in RelationEffects(meta, rows, fields, relations, m) ==> IsRelationEffect(e, relations)
  {
    if m > 0 {
      RelationEffectsAreRelations(meta, rows, fields, relations, m - 1);
      if fields[m - 1].0 in relations {
        ColumnRelationsAreRelations(meta, rows, fields[m - 1].0, m - 1, |rows|, relations);
      }
    }
  }

  // ---------------------------------------------------------------- reading rows

  /** Every mapped cell of the row is empty (IsRowEmpty). */
  predicate MappedCellsEmpty(fields: seq<(nat, int)>, row: Row)
  {
    forall k :: 0 <= k < |fields| ==> IsCellEmpty(GetCell(row, fields[k].1))
  }

  /** The texts of the first n mapped cells of a row, or the error of the
      first cell that cannot be read. */
  function ValuesOf(fields: seq<(nat, int)>, row: Row, numberText: real -> string, n: nat): Result<seq<Option<string>>>
    requires n <= |fields|
  {
    if n == 0 then Ok([])
    else
      match ValuesOf(fields, row, numberText, n - 1)
      case Err(e) => Err(e)
      case Ok(vs) =>
        match ReadAsString(GetCell(row, fields[n - 1].1), numberText)
        case Err(e) => Err(e)
        case Ok(v) => Ok(vs + [v])
  }

  /** The values are the mapped cells read as text, one per column, and
      reading fails exactly when one of the cells cannot be read. */
  lemma {:induction false} ValuesOfSpec(fields: seq<(nat, int)>, row: Row, numberText: real -> string, n: nat)
    requires n <= |fields|
    ensures var r := ValuesOf(fields, row, numberText, n);
      (r.Err? <==> exists k :: 0 <= k < n && ReadAsString(GetCell(row, fields[k].1), numberText).Err?)
      && (r.Ok? ==> |r.value| == n
                    && forall k :: 0 <= k < n ==> ReadAsString(GetCell(row, fields[k].1), numberText) == Ok(r.value[k]))
  {
    if n > 0 {
      ValuesOfSpec(fields, row, numberText, n - 1);
    }
  }

  /** Once a cell cannot be read, later columns do not change the error. */
  lemma {:induction false} ValuesOfErrKeeps(fields: seq<(nat, int)>, row: Row, numberText: real -> string, k: nat, n: nat)
    requires k <= n <= |fields| && ValuesOf(fields, row, numberText, k).Err?
    ensures ValuesOf(fields, row, numberText, n) == ValuesOf(fields, row, numberText, k)
    decreases n
  {
    if n > k {
      ValuesOfErrKeeps(fields, row, numberText, k, n - 1);
    }
  }

  /** The reader's fixed settings once the header is mapped. */
  datatype Config = Config(resolver: Resolver, ignoreNew: bool, indexId: int, fields: seq<(nat, int)>)

  /** What the row loop has gathered: the registered ids with their row
      numbers (info.AddRow), the three counters and the accepted rows. */
  datatype Tally = Tally(rowsById: map<BGId, nat>, rowsCount: nat, rowsNewCount: nat, rowsExistingCount: nat,
                         data: seq<RowData>)

  /** The id under which Step accepts a row, or None when the row is
      abandoned: its id cannot be resolved or is already registered, or it
      has no id while new rows are ignored, ids come from a field, or every
      mapped cell is empty. */
  function Admitted(c: Config, rowsById: map<BGId, nat>, sr: SheetRow, newId: BGId,
                    parseId: string -> Option<BGId>, numberText: real -> string): Option<BGId>
  {
    var view := RowView(c.indexId, ColumnsById(c.fields), sr.row, sr.rowNum);
    match ResolveId(c.resolver, view, newId, parseId, numberText)
    case Err(_) => None
    case Ok(id) =>
      if id != EmptyId && id in rowsById then None
      else if id == EmptyId && (c.ignoreNew || c.resolver.FieldResolver? || MappedCellsEmpty(c.fields, sr.row)) then None
      else Some(id)
  }

  /** One enumerated row (neither null nor row 0): it is counted; a row
      whose id cannot be resolved, whose id is already registered, or
      that has no id while new rows are ignored, ids come from a field,
      or every mapped cell is empty, is abandoned; any other row has its
      id registered, is counted as new or existing and is accepted with
      its values. A value that cannot be read aborts the import. */
  function Step(c: Config, t: Tally, sr: SheetRow, newId: BGId, parseId: string -> Option<BGId>,
                numberText: real -> string): Result<Tally>
  {
    var counted := t.(rowsCount := t.rowsCount + 1);
    match Admitted(c, t.rowsById, sr, newId, parseId, numberText)
    case None => Ok(counted)
    case Some(id) =>
        match ValuesOf(c.fields, sr.row, numberText, |c.fields|)
        case Err(e) => Err(e)
        case Ok(values) =>
          Ok(Tally(if id == EmptyId then t.rowsById else t.rowsById[id := sr.rowNum],
                   counted.rowsCount,
                   t.rowsNewCount + (if id == EmptyId then 1 else 0),
                   t.rowsExistingCount + (if id == EmptyId then 0 else 1),
                   t.data + [RowData(id, values, sr)]))
  }

  /** A row the loop hands to Step: present and not row 0. */
  predicate Counted(row: Option<SheetRow>)
  {
    row.Some? && row.value.rowNum != 0
  }

  /** The tally after the loop has gone through the first n enumerated
      rows (the first is the header); newIds[i] is the id a resolver
      would create for row i. */
  function Steps(c: Config, rows: seq<Option<SheetRow>>, newIds: seq<BGId>, parseId: string -> Option<BGId>,
                 numberText: real -> string, n: nat): Result<Tally>
    requires n <= |rows| && |newIds| == |rows|
  {
    if n <= 1 then Ok(Tally(map[], 0, 0, 0, []))
    else
      match Steps(c, rows, newIds, parseId, numberText, n - 1)
      case Err(e) => Err(e)
      case Ok(t) => if Counted(rows[n - 1]) then Step(c, t, rows[n - 1].value, newIds[n - 1], parseId, numberText) else Ok(t)
  }

  /** Once the import is aborted, later rows do not change the error. */
  lemma {:induction false} StepsErrKeeps(c: Config, rows: seq<Option<SheetRow>>, newIds: seq<BGId>,
                                         parseId: string -> Option<BGId>, numberText: real -> string, k: nat, n: nat)
    requires k <= n <= |rows| && |newIds| == |rows| && Steps(c, rows, newIds, parseId, numberText, k).Err?
    ensures Steps(c, rows, newIds, parseId, numberText, n) == Steps(c, rows, newIds, parseId, numberText, k)
    decreases n
  {
    if n > k {
      StepsErrKeeps(c, rows, newIds, parseId, numberText, k, n - 1);
    }
  }

  /** The accepted rows: each has one text per mapped column, read from
      that column; an existing entity's id is registered with its row
      number and appears once; a new entity's row is only there when new
      rows are not ignored, ids do not come from a field and some mapped
      cell is not empty. */
  predicate RowsAccepted(c: Config, t: Tally, numberText: real -> string)
  {
    (forall i :: 0 <= i < |t.data| ==> RowRead(c, t.data[i], numberText))
    && (forall i :: 0 <= i < |t.data| && t.data[i].entityId != EmptyId ==>
          t.data[i].entityId in t.rowsById && t.rowsById[t.data[i].entityId] == t.data[i].source.rowNum)
    && (forall i, j :: 0 <= i < j < |t.data| && t.data[j].entityId != EmptyId ==> t.data[i].entityId != t.data[j].entityId)
    && (forall i :: 0 <= i < |t.data| && t.data[i].entityId == EmptyId ==> NewRowAllowed(c, t.data[i]))
  }

  /** The row has one text per mapped column, read from that column. */
  predicate RowRead(c: Config, r: RowData, numberText: real -> string)
  {
    |r.values| == |c.fields|
    && forall k :: 0 <= k < |c.fields| ==> ReadAsString(GetCell(r.source.row, c.fields[k].1), numberText) == Ok(r.values[k])
  }

  /** A row without an id may be imported as a new entity. */
  predicate NewRowAllowed(c: Config, r: RowData)
  {
    !c.ignoreNew && !c.resolver.FieldResolver? && !MappedCellsEmpty(c.fields, r.source.row)
  }

  /** The counters agree with the accepted rows: new plus existing is the
      number of accepted rows, at most the number of counted rows. */
  predicate CountersAgree(t: Tally)
  {
    t.rowsNewCount == CountNew(t.data) && t.rowsNewCount + t.rowsExistingCount == |t.data| <= t.rowsCount
  }

  /** Every registered id belongs to an accepted row. */
  predicate RegisteredAccepted(t: Tally)
  {
    forall id :: id in t.rowsById ==> exists i :: 0 <= i < |t.data| && t.data[i].entityId == id
  }

  /** What a step that succeeds does to the accepted rows: it keeps them
      and the registered ids, or appends one row read from `sr` whose id
      was not registered yet (and is then registered) or is empty in a
      sheet that imports new rows. */
  predicate Extends(c: Config, t: Tally, u: Tally, sr: SheetRow, numberText: real -> string)
  {
    (u.data == t.data && u.rowsById == t.rowsById)
    || (|u.data| == |t.data| + 1 && u.data[..|t.data|] == t.data
        && var last := u.data[|t.data|];
        last.source == sr && RowRead(c, last, numberText)
        && (last.entityId != EmptyId ==>
              last.entityId !in t.rowsById && u.rowsById == t.rowsById[last.entityId := sr.rowNum])
        && (last.entityId == EmptyId ==> u.rowsById == t.rowsById && NewRowAllowed(c, last)))
  }

  lemma StepShape(c: Config, t: Tally, sr: SheetRow, newId: BGId, parseId: string -> Option<BGId>,
                  numberText: real -> string)
    ensures var r := Step(c, t, sr, newId, parseId, numberText);
      r.Ok? ==> Extends(c, t, r.value, sr, numberText)
  {
    ValuesOfSpec(c.fields, sr.row, numberText, |c.fields|);
  }

  /** Extending the tally as a step does keeps its rows accepted. */
  lemma ExtendsRowsAccepted(c: Config, t: Tally, u: Tally, sr: SheetRow, numberText: real -> string)
    requires RowsAccepted(c, t, numberText) && Extends(c, t, u, sr, numberText)
    ensures RowsAccepted(c, u, numberText)
  {
    if u.data != t.data {
      var n := |t.data|;
      var last := u.data[n];
      assert forall i :: 0 <= i < n ==> u.data[i] == t.data[i];
      forall i | 0 <= i < |u.data|
        ensures RowRead(c, u.data[i], numberText)
        ensures u.data[i].entityId == EmptyId ==> NewRowAllowed(c, u.data[i])
      {
        if i < n {
          assert u.data[i] == t.data[i];
        }
      }
      forall i | 0 <= i < |u.data| && u.data[i].entityId != EmptyId
        ensures u.data[i].entityId in u.rowsById && u.rowsById[u.data[i].entityId] == u.data[i].source.rowNum
      {
        if i < n && last.entityId != EmptyId {
          assert u.data[i].entityId in t.rowsById;
        }
      }
      forall i, j | 0 <= i < j < |u.data| && u.data[j].entityId != EmptyId
        ensures u.data[i].entityId != u.data[j].entityId
      {
        if j == n {
          assert u.data[i].entityId != EmptyId ==> u.data[i].entityId in t.rowsById;
        }
      }
    }
  }

  lemma StepRowsAccepted(c: Config, t: Tally, sr: SheetRow, newId: BGId, parseId: string -> Option<BGId>,
                         numberText: real -> string)
    requires RowsAccepted(c, t, numberText)
    ensures var r := Step(c, t, sr, newId, parseId, numberText); r.Ok? ==> RowsAccepted(c, r.value, numberText)
  {
    var r := Step(c, t, sr, newId, parseId, numberText);
    StepShape(c, t, sr, newId, parseId, numberText);
    if r.Ok? {
      ExtendsRowsAccepted(c, t, r.value, sr, numberText);
    }
  }

  lemma StepCounters(c: Config, t: Tally, sr: SheetRow, newId: BGId, parseId: string -> Option<BGId>,
                     numberText: real -> string)
    requires CountersAgree(t) && RegisteredAccepted(t)
    ensures var r := Step(c, t, sr, newId, parseId, numberText);
      r.Ok? ==> CountersAgree(r.value) && RegisteredAccepted(r.value) && r.value.rowsCount == t.rowsCount + 1
  {
    var r := Step(c, t, sr, newId, parseId, numberText);
    if r.Ok? && |r.value.data| > |t.data| {
      var last := r.value.data[|t.data|];
      assert r.value.data == t.data + [last];
      assert r.value.data[..|t.data|] == t.data;
      forall id | id in r.value.rowsById
        ensures exists i :: 0 <= i < |r.value.data| && r.value.data[i].entityId == id
      {
        if id in t.rowsById {
          var i :| 0 <= i < |t.data| && t.data[i].entityId == id;
          assert r.value.data[i] == t.data[i];
        } else {
          assert r.value.data[|t.data|].entityId == id;
        }
      }
    }
  }

  lemma CountedRowsSnoc(rows: seq<Option<SheetRow>>, n: nat)
    requires 1 < n <= |rows|
    ensures CountedRows(rows[..n]) == CountedRows(rows[..n - 1]) + (if Counted(rows[n - 1]) then 1 else 0)
  {
    assert rows[..n][..n - 1] == rows[..n - 1];
  }

  /** Whatever the rows, a loop that ends without an abort leaves a
      consistent tally: the accepted rows are as RowsAccepted says, the
      counters agree with them, every registered id belongs to an accepted
      row, and every present row after the header other than row 0 was
      counted. */
  lemma {:induction false} StepsConsistent(c: Config, rows: seq<Option<SheetRow>>, newIds: seq<BGId>,
                                           parseId: string -> Option<BGId>, numberText: real -> string, n: nat)
    requires n <= |rows| && |newIds| == |rows|
    ensures var r := Steps(c, rows, newIds, parseId, numberText, n);
      r.Ok? ==> RowsAccepted(c, r.value, numberText) && CountersAgree(r.value) && RegisteredAccepted(r.value)
                && r.value.rowsCount == CountedRows(rows[..n])
  {
    if n > 1 {
      StepsConsistent(c, rows, newIds, parseId, numberText, n - 1);
      CountedRowsSnoc(rows, n);
      var r := Steps(c, rows, newIds, parseId, numberText, n - 1);
      if r.Ok? && Counted(rows[n - 1]) {
        StepRowsAccepted(c, r.value, rows[n - 1].value, newIds[n - 1], parseId, numberText);
        StepCounters(c, r.value, rows[n - 1].value, newIds[n - 1], parseId, numberText);
      }
    }
  }

  // ---------------------------------------------------------------- the whole workbook

  /** What one reader's flush works on: its meta, accepted rows, mapped
      columns, relation fields, id column and the ids it creates. */
  datatype Flush = Flush(meta: nat, data: seq<RowData>, fields: seq<(nat, int)>, relations: set<nat>, indexId: int,
                         newIds: seq<BGId>)

  predicate FlushOk(f: Flush)
  {
    Shaped(f.data, f.fields) && |f.newIds| >= |f.data|
  }

  /** FlushData's writes for one reader. */
  function DataOf(f: Flush): seq<Effect>
    requires FlushOk(f)
  {
    DataEffects(f.meta, f.data, f.fields, f.relations, f.indexId, f.newIds, |f.data|)
  }

  /** FlushRelations' writes for one reader. */
  function RelationsOf(f: Flush): seq<Effect>
    requires Shaped(f.data, f.fields)
  {
    RelationEffects(f.meta, f.data, f.fields, f.relations, |f.fields|)
  }

  /** Every snapshot can be flushed. */
  predicate AllFlushOk(fs: seq<Flush>)
  {
    forall k :: 0 <= k < |fs| ==> FlushOk(fs[k])
  }

  /** FlushData of the first n readers, in order. */
  function DataLog(fs: seq<Flush>, n: nat): seq<Effect>
    requires n <= |fs| && AllFlushOk(fs)
  {
    if n == 0 then []
    else
      DataLog(fs, n - 1) + DataOf(fs[n - 1])
  }

  /** FlushRelations of the first n readers, in order. */
  function RelationLog(fs: seq<Flush>, n: nat): seq<Effect>
    requires n <= |fs| && AllFlushOk(fs)
  {
    if n == 0 then []
    else
      RelationLog(fs, n - 1) + RelationsOf(fs[n - 1])
  }

  lemma {:induction false} DataLogKinds(fs: seq<Flush>, n: nat)
    requires n <= |fs| && AllFlushOk(fs)
    ensures forall e :: e in DataLog(fs, n) ==> !e.SetRelation?
  {
    if n > 0 {
      DataLogKinds(fs, n - 1);
      var f := fs[n - 1];
      DataEffectsAreData(f.meta, f.data, f.fields, f.relations, f.indexId, f.newIds, |f.data|);
    }
  }

  lemma {:induction false} RelationLogKinds(fs: seq<Flush>, n: nat)
    requires n <= |fs| && AllFlushOk(fs)
    ensures forall e :: e in RelationLog(fs, n) ==> e.SetRelation?
  {
    if n > 0 {
      RelationLogKinds(fs, n - 1);
      var f := fs[n - 1];
      RelationEffectsAreRelations(f.meta, f.data, f.fields, f.relations, |f.fields|);
    }
  }

  /** Relations are resolved only after every reader's data is in: in the
      import's log no relation write comes before any other write. */
  lemma DataBeforeRelations(fs: seq<Flush>)
    requires AllFlushOk(fs)
    ensures var log := DataLog(fs, |fs|) + RelationLog(fs, |fs|);
      forall i, j :: 0 <= i < j < |log| && log[i].SetRelation? ==> log[j].SetRelation?
  {
    DataLogKinds(fs, |fs|);
    RelationLogKinds(fs, |fs|);
    var d := DataLog(fs, |fs|);
    var log := d + RelationLog(fs, |fs|);
    forall i, j | 0 <= i < j < |log| && log[i].SetRelation?
      ensures log[j].SetRelation?
    {
      assert forall k :: 0 <= k < |d| ==> log[k] == d[k];
      assert log[j] in RelationLog(fs, |fs|) by {
        assert log[j] == RelationLog(fs, |fs|)[j - |d|];
      }
    }
  }

  /** A sheet of the workbook: its name, its number of physical rows,
      its row 0 (if present) and its rows as the row enumerator yields
      them. */
  datatype Sheet = Sheet(name: string, physicalRows: nat, headers: Option<Row>, rows: seq<Option<SheetRow>>)

  /** The (sheet index, meta) pairs that get a reader among the first n
      sheets: a sheet is skipped when its name is empty, when no meta has
      its name, or when its meta already has a sheet. */
  function Selected(sheets: seq<Sheet>, metaOf: string -> Option<nat>, n: nat): seq<(nat, nat)>
    requires n <= |sheets|
  {
    if n == 0 then []
    else
      var prev := Selected(sheets, metaOf, n - 1);
      var name := sheets[n - 1].name;
      if name == "" || metaOf(name).None? || metaOf(name).value in MetasOf(prev) then prev
      else prev + [(n - 1, metaOf(name).value)]
  }

  function MetasOf(sel: seq<(nat, nat)>): set<nat>
  {
    set k | 0 <= k < |sel| :: sel[k].1
  }

  /** Each listed sheet comes before n, has a non-empty name and that
      name's meta. */
  predicate SelectionSound(sheets: seq<Sheet>, metaOf: string -> Option<nat>, sel: seq<(nat, nat)>, n: nat)
  {
    forall k :: 0 <= k < |sel| ==> SheetNamesMeta(sheets, metaOf, sel[k], n)
  }

  predicate SheetNamesMeta(sheets: seq<Sheet>, metaOf: string -> Option<nat>, p: (nat, nat), n: nat)
  {
    p.0 < n <= |sheets| && sheets[p.0].name != "" && metaOf(sheets[p.0].name) == Some(p.1)
  }

  /** Each selected sheet has a non-empty name naming its meta. */
  lemma {:induction false} SelectedSound(sheets: seq<Sheet>, metaOf: string -> Option<nat>, n: nat)
    requires n <= |sheets|
    ensures SelectionSound(sheets, metaOf, Selected(sheets, metaOf, n), n)
  {
    if n > 0 {
      SelectedSound(sheets, metaOf, n - 1);
      var prev := Selected(sheets, metaOf, n - 1);
      var sel := Selected(sheets, metaOf, n);
      var name := sheets[n - 1].name;
      forall k | 0 <= k < |sel|
        ensures SheetNamesMeta(sheets, metaOf, sel[k], n)
      {
        if k < |prev| {
          assert sel[k] == prev[k];
          assert SheetNamesMeta(sheets, metaOf, prev[k], n - 1);
        } else {
          assert sel == prev + [(n - 1, metaOf(name).value)];
        }
      }
    }
  }

  /** The selected sheets come in increasing order and no two share a meta. */
  lemma {:induction false} SelectedDistinct(sheets: seq<Sheet>, metaOf: string -> Option<nat>, n: nat)
    requires n <= |sheets|
    ensures forall k, l :: 0 <= k < l < |Selected(sheets, metaOf, n)| ==>
              Selected(sheets, metaOf, n)[k].0 < Selected(sheets, metaOf, n)[l].0
              && Selected(sheets, metaOf, n)[k].1 != Selected(sheets, metaOf, n)[l].1
  {
    if n > 0 {
      SelectedDistinct(sheets, metaOf, n - 1);
      SelectedSound(sheets, metaOf, n - 1);
      var prev := Selected(sheets, metaOf, n - 1);
      var sel := Selected(sheets, metaOf, n);
      var name := sheets[n - 1].name;
      forall k, l | 0 <= k < l < |sel|
        ensures sel[k].0 < sel[l].0 && sel[k].1 != sel[l].1
      {
        assert sel[k] == prev[k];
        if l < |prev| {
          assert sel[l] == prev[l];
        } else {
          assert sel == prev + [(n - 1, metaOf(name).value)];
          assert SheetNamesMeta(sheets, metaOf, prev[k], n - 1);
          assert prev[k].1 in MetasOf(prev);
        }
      }
    }
  }

  /** Some selected sheet at or before s has meta m. */
  predicate MetaTakenBy(sel: seq<(nat, nat)>, s: nat, m: nat)
  {
    exists k :: 0 <= k < |sel| && sel[k].0 <= s && sel[k].1 == m
  }

  /** A sheet with a name and a meta that is not selected shares its meta
      with an earlier selected sheet. */
  lemma {:induction false} SelectedComplete(sheets: seq<Sheet>, metaOf: string -> Option<nat>, n: nat)
    requires n <= |sheets|
    ensures forall s :: 0 <= s < n && sheets[s].name != "" && metaOf(sheets[s].name).Some? ==>
              MetaTakenBy(Selected(sheets, metaOf, n), s, metaOf(sheets[s].name).value)
  {
    if n > 0 {
      SelectedComplete(sheets, metaOf, n - 1);
      var prev := Selected(sheets, metaOf, n - 1);
      var sel := Selected(sheets, metaOf, n);
      forall s | 0 <= s < n && sheets[s].name != "" && metaOf(sheets[s].name).Some?
        ensures MetaTakenBy(sel, s, metaOf(sheets[s].name).value)
      {
        var name := sheets[s].name;
        if s < n - 1 {
          assert MetaTakenBy(prev, s, metaOf(name).value);
          var k :| 0 <= k < |prev| && prev[k].0 <= s && prev[k].1 == metaOf(name).value;
          assert sel[k] == prev[k];
        } else if metaOf(name).value in MetasOf(prev) {
          var k :| 0 <= k < |prev| && prev[k].1 == metaOf(name).value;
          SelectedSound(sheets, metaOf, n - 1);
          assert SheetNamesMeta(sheets, metaOf, prev[k], n - 1);
          assert sel[k] == prev[k];
        } else {
          assert sel[|prev|] == (s, metaOf(name).value);
        }
      }
    }
  }

  /** FlushRelations for one relation column: every row's non-empty value
      in column j is handed to the resolver of field, with the row's
      position. */
  method FlushColumn(db: Database, meta: nat, rows: seq<RowData>, field: nat, j: nat)
    requires forall i :: 0 <= i < |rows| ==> j < |rows[i].values|
    modifies db
    ensures db.log == old(db.log) + ColumnRelations(meta, rows, field, j, |rows|)
  {
    var i := 0;
    while i < |rows|
      invariant 0 <= i <= |rows|
      invariant db.log == old(db.log) + ColumnRelations(meta, rows, field, j, i)
    {
      var value := rows[i].values[j];
      if !IsNullOrEmpty(value) {
        db.log := db.log + [SetRelation(meta, field, i, value.value)];
      }
      i := i + 1;
    }
  }

  /** The database the readers flush into, as the list of its writes. */
  class Database {
    var log: seq<Effect>

    constructor ()
      ensures log == []
    {
      log := [];
    }
  }

  /** One sheet's reader (BGExcelSheetReaderEntityRT): the header mapping
      (BGEntitySheetInfo), the row counters and the accepted rows. */
  class EntitySheetReader {
    const sheetNumber: nat
    const metaId: nat
    const ignoreNew: bool
    const resolver: Resolver
    /** The meta's relation fields. */
    const relations: set<nat>
    const hasHeaders: bool
    var indexId: int
    var fields: seq<(nat, int)>
    var physicalColumnCount: nat
    var rowsById: map<BGId, nat>
    var rowsCount: nat
    var rowsNewCount: nat
    var rowsExistingCount: nat
    var data: Option<seq<RowData>>

    function Settings(): Config
      reads this`indexId, this`fields
    {
      Config(resolver, ignoreNew, indexId, fields)
    }

    function Gathered(): Tally
      reads this`rowsById, this`rowsCount, this`rowsNewCount, this`rowsExistingCount, this`data
    {
      Tally(rowsById, rowsCount, rowsNewCount, rowsExistingCount, data.GetOr([]))
    }

    /** Info.HasAnyData: at least one column is mapped to a field. */
    predicate HasAnyData()
      reads this`fields
    {
      |fields| > 0
    }

    /** Every accepted row has one value per mapped column. */
    predicate Valid()
      reads this`data, this`fields
    {
      data.Some? ==> Shaped(data.value, fields)
    }

    /** The constructor up to the row loop: without a header row nothing is
        mapped; otherwise every header cell is mapped in list order. A
        missing resolver is the id-column one. */
    constructor (sheetNumber: nat, metaId: nat, ignoreNew: bool, headers: Option<Row>, resolver: Option<Resolver>,
                 relations: set<nat>, fieldOf: string -> Option<nat>)
      ensures this.sheetNumber == sheetNumber && this.metaId == metaId && this.ignoreNew == ignoreNew
      ensures this.resolver == resolver.GetOr(IdColumnResolver) && this.relations == relations
      ensures hasHeaders == headers.Some?
      ensures headers.None? ==> indexId == -1 && fields == [] && physicalColumnCount == 0
      ensures headers.Some? ==> Mapping(indexId, fields) == MapHeaders(headers.value.cells, fieldOf)
                                && physicalColumnCount == |headers.value.cells|
      ensures Gathered() == Tally(map[], 0, 0, 0, []) && data.None? && Valid()
    {
      this.sheetNumber := sheetNumber;
      this.metaId := metaId;
      this.ignoreNew := ignoreNew;
      this.resolver := resolver.GetOr(IdColumnResolver);
      this.relations := relations;
      hasHeaders := headers.Some?;
      indexId := -1;
      fields := [];
      physicalColumnCount := 0;
      rowsById := map[];
      rowsCount := 0;
      rowsNewCount := 0;
      rowsExistingCount := 0;
      data := None;
      new;
      if headers.None? {
        return;
      }
      var cells := headers.value.cells;
      physicalColumnCount := |cells|;
      var i := 0;
      while i < |cells|
        invariant 0 <= i <= |cells|
        invariant Mapping(indexId, fields) == MapHeaders(cells[..i], fieldOf)
        invariant physicalColumnCount == |cells| && data.None? && rowsById == map[]
        invariant rowsCount == 0 && rowsNewCount == 0 && rowsExistingCount == 0
      {
        var cell := cells[i];
        assert cells[..i + 1][..i] == cells[..i];
        i := i + 1;
        var name := HeaderName(cell);
        if IsNullOrEmpty(name) {
          continue;
        }
        if name.value == IdHeader {
          indexId := cell.column;
        } else {
          var field := fieldOf(name.value);
          if field.None? {
            continue;
          }
          fields := AddField(fields, field.value, cell.column);
        }
      }
      assert cells[..i] == cells;
    }

    /** IsRowEmpty: no mapped cell of the row holds a value. */
    method IsRowEmpty(row: Row) returns (empty: bool)
      ensures empty == MappedCellsEmpty(fields, row)
    {
      var hasValue := false;
      var k := 0;
      while k < |fields|
        invariant 0 <= k <= |fields|
        invariant hasValue <==> exists j :: 0 <= j < k && !IsCellEmpty(GetCell(row, fields[j].1))
      {
        if !hasValue {
          hasValue := !IsCellEmpty(GetCell(row, fields[k].1));
        }
        k := k + 1;
      }
      empty := !hasValue;
    }

    /** The row's value texts, one per mapped column, read into an array;
        a cell that cannot be read stops the reading. */
    method ReadValues(row: Row, numberText: real -> string) returns (r: Result<seq<Option<string>>>)
      ensures r == ValuesOf(fields, row, numberText, |fields|)
    {
      var rowsData := new Option<string>[|fields|](_ => None);
      var k := 0;
      while k < |fields|
        invariant 0 <= k <= |fields|
        invariant ValuesOf(fields, row, numberText, k) == Ok(rowsData[..k])
      {
        var v := ReadAsString(GetCell(row, fields[k].1), numberText);
        if v.Err? {
          ValuesOfErrKeeps(fields, row, numberText, k + 1, |fields|);
          return Err(v.error);
        }
        rowsData[k] := v.value;
        assert rowsData[..k + 1] == rowsData[..k] + [v.value];
        k := k + 1;
      }
      assert rowsData[..k] == rowsData[..];
      r := Ok(rowsData[..]);
    }

    /** The checks of the row action that decide whether a row is
        abandoned, in the order the row action makes them. */
    method AdmitRow(sr: SheetRow, newId: BGId, parseId: string -> Option<BGId>, numberText: real -> string)
      returns (admitted: Option<BGId>)
      ensures admitted == Admitted(Settings(), rowsById, sr, newId, parseId, numberText)
    {
      var resolved := ResolveId(resolver, RowView(indexId, ColumnsById(fields), sr.row, sr.rowNum), newId, parseId, numberText);
      if resolved.Err? {
        return None;
      }
      var entityId := resolved.value;
      if entityId != EmptyId {
        if entityId in rowsById {
          return None;
        }
      } else {
        if ignoreNew {
          return None;
        }
        if resolver.FieldResolver? {
          return None;
        }
        var empty := IsRowEmpty(sr.row);
        if empty {
          return None;
        }
      }
      admitted := Some(entityId);
    }

    /** The row action for one row that is neither null nor row 0. */
    method ProcessRow(sr: SheetRow, newId: BGId, parseId: string -> Option<BGId>, numberText: real -> string)
      returns (error: Option<string>)
      requires data.Some?
      modifies this`rowsById, this`rowsCount, this`rowsNewCount, this`rowsExistingCount, this`data
      ensures Settings() == old(Settings())
      ensures var r := old(Step(Settings(), Gathered(), sr, newId, parseId, numberText));
        r.Ok? ==> error.None? && data.Some? && Gathered() == r.value
      ensures var r := old(Step(Settings(), Gathered(), sr, newId, parseId, numberText));
        r.Err? ==> error == Some(r.error)
    {
      var rows := data.value;
      rowsCount := rowsCount + 1;
      var admitted := AdmitRow(sr, newId, parseId, numberText);
      if admitted.None? {
        return None;
      }
      var entityId := admitted.value;
      if entityId != EmptyId {
        rowsById := rowsById[entityId := sr.rowNum];
      }
      if entityId == EmptyId {
        rowsNewCount := rowsNewCount + 1;
      } else {
        rowsExistingCount := rowsExistingCount + 1;
      }
      var values := ReadValues(sr.row, numberText);
      if values.Err? {
        return Some(values.error);
      }
      data := Some(rows + [RowData(entityId, values.value, sr)]);
      error := None;
    }

    /** The constructor's row loop: nothing is read without a header row
        or without a mapped field; otherwise the rows end up as Steps says,
        or the import is aborted with the error of a value that could not
        be read. */
    method ReadRows(rows: seq<Option<SheetRow>>, newIds: seq<BGId>, parseId: string -> Option<BGId>,
                    numberText: real -> string) returns (error: Option<string>)
      requires |newIds| == |rows|
      requires Gathered() == Tally(map[], 0, 0, 0, []) && data.None?
      modifies this`rowsById, this`rowsCount, this`rowsNewCount, this`rowsExistingCount, this`data
      ensures Settings() == old(Settings())
      ensures !hasHeaders || !HasAnyData() ==> error.None? && data.None? && Gathered() == old(Gathered())
      ensures hasHeaders && HasAnyData() ==>
        match Steps(Settings(), rows, newIds, parseId, numberText, |rows|)
        case Ok(t) => error.None? && data.Some? && Gathered() == t && Valid() && |data.value| <= |rows|
        case Err(e) => error == Some(e)
    {
      if !hasHeaders || !HasAnyData() {
        return None;
      }
      data := Some([]);
      var count := 0;
      while count < |rows|
        invariant 0 <= count <= |rows| && data.Some?
        invariant Settings() == old(Settings())
        invariant Steps(Settings(), rows, newIds, parseId, numberText, count) == Ok(Gathered())
      {
        var row := rows[count];
        count := count + 1;
        if count == 1 {
          continue;
        }
        if row.None? || row.value.rowNum == 0 {
          continue;
        }
        var e := ProcessRow(row.value, newIds[count - 1], parseId, numberText);
        if e.Some? {
          StepsErrKeeps(Settings(), rows, newIds, parseId, numberText, count, |rows|);
          return e;
        }
      }
      StepsConsistent(Settings(), rows, newIds, parseId, numberText, |rows|);
      assert rows[..|rows|] == rows;
      error := None;
    }

    /** EnsureEntity: the row's entity is created under the row's id, or
        under a fresh id that is also written into the row's id cell when
        the sheet has an id column. Returns the entity's id. */
    method EnsureEntity(db: Database, row: RowData, newId: BGId) returns (entity: BGId)
      modifies db
      ensures entity == EntityOf(row, newId)
      ensures db.log == old(db.log) + EnsureEffects(metaId, row, indexId, newId)
    {
      if row.entityId != EmptyId {
        entity := row.entityId;
        db.log := db.log + [NewEntity(metaId, entity)];
      } else {
        entity := newId;
        db.log := db.log + [NewEntity(metaId, entity)];
        if indexId >= 0 {
          db.log := db.log + [IdCellWritten(row.source.rowNum, indexId, entity)];
        }
      }
    }

    /** FlushData: every accepted row's entity is ensured and its plain
        (non-relation) fields with a non-empty value are set; newIds[i] is
        the id created for row i if it is new. */
    method FlushData(db: Database, newIds: seq<BGId>)
      requires FlushOk(Snapshot(newIds))
      modifies db
      ensures db.log == old(db.log) + DataOf(Snapshot(newIds))
    {
      if data.None? {
        return;
      }
      FlushRows(db, data.value, newIds);
    }

    /** FlushData's row loop over the accepted rows. */
    method FlushRows(db: Database, rows: seq<RowData>, newIds: seq<BGId>)
      requires Shaped(rows, fields) && |newIds| >= |rows|
      modifies db
      ensures db.log == old(db.log) + DataEffects(metaId, rows, fields, relations, indexId, newIds, |rows|)
    {
      var i := 0;
      while i < |rows|
        invariant 0 <= i <= |rows|
        invariant db.log == old(db.log) + DataEffects(metaId, rows, fields, relations, indexId, newIds, i)
      {
        var rowsData := rows[i];
        var entity := EnsureEntity(db, rowsData, newIds[i]);
        SetFields(db, entity, rowsData.values);
        DataEffectsSnoc(metaId, rows, fields, relations, indexId, newIds, i);
        LogAppend3(old(db.log), DataEffects(metaId, rows, fields, relations, indexId, newIds, i),
                   EnsureEffects(metaId, rowsData, indexId, newIds[i]),
                   FieldEffects(metaId, entity, fields, rowsData.values, relations, |fields|));
        i := i + 1;
      }
    }

    /** FlushData's inner loop: the plain fields of one row with a
        non-empty value are set on the entity, in column order. */
    method SetFields(db: Database, entity: BGId, values: seq<Option<string>>)
      requires |values| == |fields|
      modifies db
      ensures db.log == old(db.log) + FieldEffects(metaId, entity, fields, values, relations, |fields|)
    {
      var j := 0;
      while j < |fields|
        invariant 0 <= j <= |fields|
        invariant db.log == old(db.log) + FieldEffects(metaId, entity, fields, values, relations, j)
      {
        var field := fields[j].0;
        var value := values[j];
        j := j + 1;
        if field in relations {
          continue;
        }
        if IsNullOrEmpty(value) {
          continue;
        }
        db.log := db.log + [SetField(metaId, entity, field, value.value)];
      }
    }

    /** FlushRelations: for each relation column in turn, every accepted
        row's non-empty value is handed to the column's relation resolver
        with the row's position. */
    method FlushRelations(db: Database)
      requires Valid()
      modifies db
      ensures db.log == old(db.log) + RelationsOf(Snapshot([]))
    {
      if data.None? {
        RelationEffectsNoRows(metaId, fields, relations, |fields|);
        return;
      }
      var rows := data.value;
      var j := 0;
      while j < |fields|
        invariant 0 <= j <= |fields|
        invariant db.log == old(db.log) + RelationEffects(metaId, rows, fields, relations, j)
      {
        var field := fields[j].0;
        if field !in relations {
          j := j + 1;
          continue;
        }
        FlushColumn(db, metaId, rows, field, j);
        LogAppend(old(db.log), RelationEffects(metaId, rows, fields, relations, j),
                  ColumnRelations(metaId, rows, field, j, |rows|));
        j := j + 1;
      }
    }

    /** What the flush of this reader works on, with the ids it creates. */
    function Snapshot(newIds: seq<BGId>): Flush
      reads this`data, this`fields, this`indexId
    {
      Flush(metaId, data.GetOr([]), fields, relations, indexId, newIds)
    }
  }

  /** Each reader's flush works on its flush snapshot, and each snapshot
      can be flushed. */
  predicate Matches(readers: seq<EntitySheetReader>, flushes: seq<Flush>)
    reads set k | 0 <= k < |readers| :: readers[k]
  {
    |readers| == |flushes|
    && AllFlushOk(flushes)
    && forall k :: 0 <= k < |readers| ==> readers[k].Snapshot(flushes[k].newIds) == flushes[k]
  }

  /** Appending to the log in three steps. */
  lemma LogAppend3(log: seq<Effect>, a: seq<Effect>, b: seq<Effect>, c: seq<Effect>)
    ensures log + (a + b + c) == log + a + b + c
  {
  }

  /** The j-th reader flushes the j-th snapshot. */
  lemma MatchedReader(readers: seq<EntitySheetReader>, flushes: seq<Flush>, j: nat)
    requires Matches(readers, flushes) && j < |readers|
    ensures readers[j].Snapshot(flushes[j].newIds) == flushes[j] && FlushOk(flushes[j])
  {
  }

  /** A reader whose flush snapshot can be flushed is valid, and its
      relation writes do not depend on the ids handed to the flush. */
  lemma SnapshotRelations(r: EntitySheetReader, f: Flush)
    requires r.Snapshot(f.newIds) == f && FlushOk(f)
    ensures r.Valid() && RelationsOf(r.Snapshot([])) == RelationsOf(f)
  {
  }

  /** Appending to the log in two steps. */
  lemma LogAppend(log: seq<Effect>, a: seq<Effect>, b: seq<Effect>)
    ensures log + (a + b) == (log + a) + b
  {
  }

  /** The readers' FlushData, in order. */
  method FlushAllData(readers: seq<EntitySheetReader>, flushes: seq<Flush>, db: Database)
    requires Matches(readers, flushes)
    modifies db
    ensures db.log == old(db.log) + DataLog(flushes, |flushes|)
  {
    var j := 0;
    while j < |readers|
      invariant 0 <= j <= |readers|
      invariant db.log == old(db.log) + DataLog(flushes, j)
    {
      var f := flushes[j];
      MatchedReader(readers, flushes, j);
      readers[j].FlushData(db, f.newIds);
      LogAppend(old(db.log), DataLog(flushes, j), DataOf(f));
      j := j + 1;
    }
  }

  /** The readers' FlushRelations, in order. */
  method FlushAllRelations(readers: seq<EntitySheetReader>, flushes: seq<Flush>, db: Database)
    requires Matches(readers, flushes)
    modifies db
    ensures db.log == old(db.log) + RelationLog(flushes, |flushes|)
  {
    var j := 0;
    while j < |readers|
      invariant 0 <= j <= |readers|
      invariant db.log == old(db.log) + RelationLog(flushes, j)
    {
      var f := flushes[j];
      MatchedReader(readers, flushes, j);
      SnapshotRelations(readers[j], f);
      readers[j].FlushRelations(db);
      LogAppend(old(db.log), RelationLog(flushes, j), RelationsOf(f));
      j := j + 1;
    }
  }

  /** What reading one selected sheet yields: the settings its reader reads
      with and, when a header row maps some field, the tally of its rows. */
  datatype SheetResult = SheetResult(settings: Config, tally: Option<Tally>)

  /** Reading one selected sheet: a sheet without physical rows has no
      header row and the id-column resolver; otherwise the resolver comes
      from the factory (the id-column one without a factory) and the
      header row, when there is one, is mapped. The rows are stepped
      through only when some field is mapped. A resolver the factory
      cannot create, or a value that cannot be read, is the error. */
  function ReadSheet(sheet: Sheet, meta: nat, fieldOf: string -> Option<nat>, ignoreNew: bool,
                     factory: Option<nat -> Result<Resolver>>, resolverIds: seq<BGId>,
                     parseId: string -> Option<BGId>, numberText: real -> string): Result<SheetResult>
    requires |resolverIds| == |sheet.rows|
  {
    var resolver := if sheet.physicalRows == 0 || factory.None? then Ok(IdColumnResolver) else factory.value(meta);
    if resolver.Err? then Err(resolver.error)
    else
      var headers := if sheet.physicalRows == 0 then None else sheet.headers;
      var m := if headers.None? then Mapping(-1, []) else MapHeaders(headers.value.cells, fieldOf);
      var c := Config(resolver.value, ignoreNew, m.indexId, m.fields);
      if headers.None? || |m.fields| == 0 then Ok(SheetResult(c, None))
      else
        match Steps(c, sheet.rows, resolverIds, parseId, numberText, |sheet.rows|)
        case Err(e) => Err(e)
        case Ok(t) => Ok(SheetResult(c, Some(t)))
  }

  /** A read sheet's settings map each field once, to the column of the
      last header naming it, and its tally holds only rows read from
      those columns, consistently counted. */
  lemma ReadSheetConsistent(sheet: Sheet, meta: nat, fieldOf: string -> Option<nat>, ignoreNew: bool,
                            factory: Option<nat -> Result<Resolver>>, resolverIds: seq<BGId>,
                            parseId: string -> Option<BGId>, numberText: real -> string)
    requires |resolverIds| == |sheet.rows|
    ensures var r := ReadSheet(sheet, meta, fieldOf, ignoreNew, factory, resolverIds, parseId, numberText);
      r.Ok? ==> DistinctFields(r.value.settings.fields)
                && (r.value.tally.Some? ==>
                      var t := r.value.tally.value;
                      RowsAccepted(r.value.settings, t, numberText) && CountersAgree(t) && RegisteredAccepted(t)
                      && t.rowsCount == CountedRows(sheet.rows))
  {
    if sheet.physicalRows != 0 && sheet.headers.Some? {
      MapHeadersDistinct(sheet.headers.value.cells, fieldOf);
    }
    var r := ReadSheet(sheet, meta, fieldOf, ignoreNew, factory, resolverIds, parseId, numberText);
    if r.Ok? && r.value.tally.Some? {
      StepsConsistent(r.value.settings, sheet.rows, resolverIds, parseId, numberText, |sheet.rows|);
      assert sheet.rows[..|sheet.rows|] == sheet.rows;
    }
  }

  /** Every sheet has one resolver id per row. */
  predicate IdsFit(sheets: seq<Sheet>, resolverIds: seq<seq<BGId>>)
  {
    |resolverIds| == |sheets| && forall s :: 0 <= s < |sheets| ==> |resolverIds[s]| == |sheets[s].rows|
  }

  /** Reading the sheets selected among the first n, in order: the
      results of all of them, or the error of the first that fails. */
  function ReadUpTo(sheets: seq<Sheet>, metaOf: string -> Option<nat>, n: nat, fieldOf: nat -> string -> Option<nat>,
                    ignoreNew: bool, factory: Option<nat -> Result<Resolver>>, resolverIds: seq<seq<BGId>>,
                    parseId: string -> Option<BGId>, numberText: real -> string): Result<seq<SheetResult>>
    requires n <= |sheets| && IdsFit(sheets, resolverIds)
  {
    if n == 0 then Ok([])
    else
      match ReadUpTo(sheets, metaOf, n - 1, fieldOf, ignoreNew, factory, resolverIds, parseId, numberText)
      case Err(e) => Err(e)
      case Ok(rs) =>
        var name := sheets[n - 1].name;
        if name == "" || metaOf(name).None? || metaOf(name).value in MetasOf(Selected(sheets, metaOf, n - 1)) then Ok(rs)
        else
          var m := metaOf(name).value;
          match ReadSheet(sheets[n - 1], m, fieldOf(m), ignoreNew, factory, resolverIds[n - 1], parseId, numberText)
          case Err(e) => Err(e)
          case Ok(r) => Ok(rs + [r])
  }

  /** Once a selected sheet fails, the sheets selected after it do not
      change the error. */
  lemma {:induction false} ReadUpToErrKeeps(sheets: seq<Sheet>, metaOf: string -> Option<nat>, i: nat, n: nat,
                                            fieldOf: nat -> string -> Option<nat>, ignoreNew: bool,
                                            factory: Option<nat -> Result<Resolver>>, resolverIds: seq<seq<BGId>>,
                                            parseId: string -> Option<BGId>, numberText: real -> string)
    requires i <= n <= |sheets| && IdsFit(sheets, resolverIds)
    requires ReadUpTo(sheets, metaOf, i, fieldOf, ignoreNew, factory, resolverIds, parseId, numberText).Err?
    ensures ReadUpTo(sheets, metaOf, n, fieldOf, ignoreNew, factory, resolverIds, parseId, numberText)
            == ReadUpTo(sheets, metaOf, i, fieldOf, ignoreNew, factory, resolverIds, parseId, numberText)
    decreases n
  {
    if n > i {
      ReadUpToErrKeeps(sheets, metaOf, i, n - 1, fieldOf, ignoreNew, factory, resolverIds, parseId, numberText);
    }
  }

  /** The flush holds what reading its sheet gave. */
  predicate FlushOf(f: Flush, meta: nat, r: SheetResult)
  {
    f.meta == meta && f.fields == r.settings.fields && f.indexId == r.settings.indexId
    && f.data == (if r.tally.None? then [] else r.tally.value.data)
  }

  /** Building one sheet's reader (ReadEntities' per-sheet work for a
      selected sheet): the reader is new, has the sheet's number and meta,
      and its rows are read; a resolver that cannot be created or a value
      that cannot be read is an error. */
  method BuildReader(sheet: Sheet, sheetNumber: nat, meta: nat, fieldOf: string -> Option<nat>, relations: set<nat>,
                     ignoreNew: bool, factory: Option<nat -> Result<Resolver>>, resolverIds: seq<BGId>, entityIds: seq<BGId>,
                     parseId: string -> Option<BGId>, numberText: real -> string)
    returns (reader: EntitySheetReader?, error: Option<string>)
    requires |resolverIds| == |sheet.rows| && |entityIds| >= |sheet.rows|
    ensures var r := ReadSheet(sheet, meta, fieldOf, ignoreNew, factory, resolverIds, parseId, numberText);
      match r
      case Err(e) => error == Some(e)
      case Ok(res) =>
        error.None? && reader != null && fresh(reader) && reader.sheetNumber == sheetNumber && reader.metaId == meta
        && reader.relations == relations && reader.Settings() == res.settings
        && (res.tally.None? ==> reader.data.None? && reader.Gathered() == Tally(map[], 0, 0, 0, []))
        && (res.tally.Some? ==> reader.data.Some? && reader.Gathered() == res.tally.value)
    ensures error.None? ==> reader != null && reader.Snapshot(entityIds).newIds == entityIds && FlushOk(reader.Snapshot(entityIds))
  {
    if sheet.physicalRows == 0 {
      reader := new EntitySheetReader(sheetNumber, meta, ignoreNew, None, None, relations, fieldOf);
    } else {
      var resolver := if factory.None? then Ok(IdColumnResolver) else factory.value(meta);
      if resolver.Err? {
        return null, Some(resolver.error);
      }
      reader := new EntitySheetReader(sheetNumber, meta, ignoreNew, sheet.headers, Some(resolver.value), relations, fieldOf);
    }
    error := reader.ReadRows(sheet.rows, resolverIds, parseId, numberText);
  }

  lemma SelectedSnoc(sheets: seq<Sheet>, metaOf: string -> Option<nat>, i: nat)
    requires i < |sheets| && sheets[i].name != "" && metaOf(sheets[i].name).Some?
    requires metaOf(sheets[i].name).value !in MetasOf(Selected(sheets, metaOf, i))
    ensures Selected(sheets, metaOf, i + 1) == Selected(sheets, metaOf, i) + [(i, metaOf(sheets[i].name).value)]
  {
  }

  lemma SelectedSkip(sheets: seq<Sheet>, metaOf: string -> Option<nat>, i: nat)
    requires i < |sheets|
    requires sheets[i].name == "" || metaOf(sheets[i].name).None?
             || metaOf(sheets[i].name).value in MetasOf(Selected(sheets, metaOf, i))
    ensures Selected(sheets, metaOf, i + 1) == Selected(sheets, metaOf, i)
  {
  }

  lemma MetasOfSnoc(sel: seq<(nat, nat)>, p: (nat, nat))
    ensures MetasOf(sel + [p]) == MetasOf(sel) + {p.1}
  {
    var t := sel + [p];
    assert forall k :: 0 <= k < |sel| ==> t[k] == sel[k];
    assert t[|sel|] == p;
  }

  /** Without rows there is nothing to relate. */
  lemma {:induction false} RelationEffectsNoRows(meta: nat, fields: seq<(nat, int)>, relations: set<nat>, m: nat)
    requires m <= |fields|
    ensures RelationEffects(meta, [], fields, relations, m) == []
  {
    if m > 0 {
      RelationEffectsNoRows(meta, fields, relations, m - 1);
    }
  }

  /** A new reader keeps the earlier readers' snapshots. */
  lemma AddReader(readers: seq<EntitySheetReader>, flushes: seq<Flush>, reader: EntitySheetReader, ids: seq<BGId>)
    requires Matches(readers, flushes) && reader.Snapshot(ids).newIds == ids && FlushOk(reader.Snapshot(ids))
    ensures Matches(readers + [reader], flushes + [reader.Snapshot(ids)])
  {
    var rs := readers + [reader];
    var fs := flushes + [reader.Snapshot(ids)];
    forall k | 0 <= k < |rs|
      ensures rs[k].Snapshot(fs[k].newIds) == fs[k] && FlushOk(fs[k])
    {
      if k < |readers| {
        assert rs[k] == readers[k] && fs[k] == flushes[k];
      }
    }
  }

  /** The readers built for the selected sheets sel: one per sheet, in
      order, with that sheet's number and meta, and a flush holding the
      sheet's ids and what reading it gave. */
  predicate BuiltFor(sel: seq<(nat, nat)>, readers: seq<EntitySheetReader>, flushes: seq<Flush>,
                     results: seq<SheetResult>, entityIds: seq<seq<BGId>>)
  {
    |readers| == |flushes| == |results| == |sel|
    && forall k :: 0 <= k < |readers| ==>
         (readers[k].sheetNumber, readers[k].metaId) == sel[k] && readers[k].sheetNumber < |entityIds|
         && flushes[k].newIds == entityIds[readers[k].sheetNumber] && FlushOf(flushes[k], readers[k].metaId, results[k])
  }

  lemma BuiltForSnoc(sel: seq<(nat, nat)>, readers: seq<EntitySheetReader>, flushes: seq<Flush>,
                     results: seq<SheetResult>, entityIds: seq<seq<BGId>>,
                     reader: EntitySheetReader, flush: Flush, result: SheetResult)
    requires BuiltFor(sel, readers, flushes, results, entityIds)
    requires reader.sheetNumber < |entityIds| && flush.newIds == entityIds[reader.sheetNumber]
    requires FlushOf(flush, reader.metaId, result)
    ensures BuiltFor(sel + [(reader.sheetNumber, reader.metaId)], readers + [reader], flushes + [flush], results + [result],
                     entityIds)
  {
  }

  /** Reading the sheets selected among the first i gives results. */
  predicate ReadFirst(sheets: seq<Sheet>, metaOf: string -> Option<nat>, i: nat, fieldOf: nat -> string -> Option<nat>,
                      ignoreNew: bool, factory: Option<nat -> Result<Resolver>>, resolverIds: seq<seq<BGId>>,
                      parseId: string -> Option<BGId>, numberText: real -> string, results: seq<SheetResult>)
  {
    i <= |sheets| && IdsFit(sheets, resolverIds)
    && ReadUpTo(sheets, metaOf, i, fieldOf, ignoreNew, factory, resolverIds, parseId, numberText)
       == Ok(results)
  }

  /** One selected sheet of ReadEntities' loop: its reader is built and
      added with its snapshot, or the sheet's error is returned. */
  method AddSheetReader(sheets: seq<Sheet>, metaOf: string -> Option<nat>, i: nat, fieldOf: nat -> string -> Option<nat>,
                        relationsOf: nat -> set<nat>, ignoreNew: bool, factory: Option<nat -> Result<Resolver>>,
                        resolverIds: seq<seq<BGId>>, entityIds: seq<seq<BGId>>,
                        parseId: string -> Option<BGId>, numberText: real -> string,
                        readers: seq<EntitySheetReader>, flushes: seq<Flush>, ghost results: seq<SheetResult>)
    returns (readers': seq<EntitySheetReader>, flushes': seq<Flush>, ghost results': seq<SheetResult>, error: Option<string>)
    requires i < |sheets| && IdsFit(sheets, resolverIds) && |entityIds| == |sheets| && |entityIds[i]| >= |sheets[i].rows|
    requires sheets[i].name != "" && metaOf(sheets[i].name).Some?
    requires metaOf(sheets[i].name).value !in MetasOf(Selected(sheets, metaOf, i))
    requires ReadFirst(sheets, metaOf, i, fieldOf, ignoreNew, factory, resolverIds, parseId, numberText, results)
    requires BuiltFor(Selected(sheets, metaOf, i), readers, flushes, results, entityIds) && Matches(readers, flushes)
    ensures var r := ReadUpTo(sheets, metaOf, i + 1, fieldOf, ignoreNew, factory, resolverIds,
                                  parseId, numberText);
      (error.Some? ==> r == Err(error.value))
      && (error.None? ==> ReadFirst(sheets, metaOf, i + 1, fieldOf, ignoreNew, factory, resolverIds, parseId, numberText, results')
                          && Matches(readers', flushes')
                          && BuiltFor(Selected(sheets, metaOf, i + 1), readers', flushes', results', entityIds))
  {
    var meta := metaOf(sheets[i].name).value;
    var reader, e := BuildReader(sheets[i], i, meta, fieldOf(meta), relationsOf(meta), ignoreNew, factory,
                                 resolverIds[i], entityIds[i], parseId, numberText);
    if e.Some? {
      return readers, flushes, results, e;
    }
    ghost var res := ReadSheet(sheets[i], meta, fieldOf(meta), ignoreNew, factory, resolverIds[i], parseId, numberText).value;
    SelectedSnoc(sheets, metaOf, i);
    AddReader(readers, flushes, reader, entityIds[i]);
    BuiltForSnoc(Selected(sheets, metaOf, i), readers, flushes, results, entityIds, reader, reader.Snapshot(entityIds[i]), res);
    readers' := readers + [reader];
    flushes' := flushes + [reader.Snapshot(entityIds[i])];
    results' := results + [res];
    error := None;
  }

  /** ReadEntities' sheet loop: one reader per selected sheet, in sheet
      order, each with its sheet's number and meta and a snapshot to
      flush holding what reading that sheet gives; the first sheet that
      fails stops the loop with its error. */
  method BuildReaders(sheets: seq<Sheet>, metaOf: string -> Option<nat>, fieldOf: nat -> string -> Option<nat>,
                      relationsOf: nat -> set<nat>, ignoreNew: bool, factory: Option<nat -> Result<Resolver>>,
                      resolverIds: seq<seq<BGId>>, entityIds: seq<seq<BGId>>,
                      parseId: string -> Option<BGId>, numberText: real -> string)
    returns (readers: seq<EntitySheetReader>, flushes: seq<Flush>, error: Option<string>)
    requires IdsFit(sheets, resolverIds) && |entityIds| == |sheets|
    requires forall s :: 0 <= s < |sheets| ==> |entityIds[s]| >= |sheets[s].rows|
    ensures var r := ReadUpTo(sheets, metaOf, |sheets|, fieldOf, ignoreNew, factory, resolverIds,
                                  parseId, numberText);
      (r.Err? ==> error == Some(r.error))
      && (r.Ok? ==> error.None? && |readers| == |flushes| == |r.value| && Matches(readers, flushes)
                    && forall k :: 0 <= k < |readers| ==> FlushOf(flushes[k], readers[k].metaId, r.value[k]))
    ensures error.None? ==> |readers| == |Selected(sheets, metaOf, |sheets|)|
    ensures error.None? ==> forall k :: 0 <= k < |readers| ==>
              (readers[k].sheetNumber, readers[k].metaId) == Selected(sheets, metaOf, |sheets|)[k]
              && readers[k].sheetNumber < |sheets| && flushes[k].newIds == entityIds[readers[k].sheetNumber]
  {
    readers := [];
    flushes := [];
    ghost var results: seq<SheetResult> := [];
    var processed: set<nat> := {};
    var i := 0;
    while i < |sheets|
      invariant 0 <= i <= |sheets|
      invariant ReadFirst(sheets, metaOf, i, fieldOf, ignoreNew, factory, resolverIds, parseId, numberText, results)
      invariant BuiltFor(Selected(sheets, metaOf, i), readers, flushes, results, entityIds) && Matches(readers, flushes)
      invariant processed == MetasOf(Selected(sheets, metaOf, i))
    {
      var meta := if sheets[i].name == "" then None else metaOf(sheets[i].name);
      if meta.None? || meta.value in processed {
        SelectedSkip(sheets, metaOf, i);
      } else {
        var e;
        readers, flushes, results, e := AddSheetReader(sheets, metaOf, i, fieldOf, relationsOf, ignoreNew, factory,
                                                       resolverIds, entityIds, parseId, numberText, readers, flushes, results);
        if e.Some? {
          ReadUpToErrKeeps(sheets, metaOf, i + 1, |sheets|, fieldOf, ignoreNew, factory, resolverIds, parseId, numberText);
          return readers, flushes, e;
        }
        SelectedSnoc(sheets, metaOf, i);
        MetasOfSnoc(Selected(sheets, metaOf, i), (i, meta.value));
        processed := processed + {meta.value};
      }
      i := i + 1;
    }
    error := None;
  }

  /** ReadEntities: a reader is built for every selected sheet, in sheet
      order (a sheet without physical rows gets a reader with no header
      row; otherwise the resolver comes from the factory, or is the
      id-column one without a factory), its rows are read, and then every
      reader's data is flushed before any reader's relations. A resolver
      that cannot be created or a value that cannot be read aborts the
      import before anything is written. resolverIds[s] and entityIds[s]
      are the ids created for sheet s's rows by its resolver and by the
      flush. */
  method ReadEntities(sheets: seq<Sheet>, metaOf: string -> Option<nat>, fieldOf: nat -> string -> Option<nat>,
                      relationsOf: nat -> set<nat>, ignoreNew: bool, factory: Option<nat -> Result<Resolver>>,
                      resolverIds: seq<seq<BGId>>, entityIds: seq<seq<BGId>>,
                      parseId: string -> Option<BGId>, numberText: real -> string, db: Database)
    returns (readers: seq<EntitySheetReader>, flushes: seq<Flush>, error: Option<string>)
    requires IdsFit(sheets, resolverIds) && |entityIds| == |sheets|
    requires forall s :: 0 <= s < |sheets| ==> |entityIds[s]| >= |sheets[s].rows|
    modifies db
    ensures var r := ReadUpTo(sheets, metaOf, |sheets|, fieldOf, ignoreNew, factory, resolverIds,
                                  parseId, numberText);
      (r.Err? ==> error == Some(r.error))
      && (r.Ok? ==> error.None? && |readers| == |flushes| == |r.value|
                    && forall k :: 0 <= k < |readers| ==> FlushOf(flushes[k], readers[k].metaId, r.value[k]))
    ensures error.Some? ==> db.log == old(db.log)
    ensures error.None? ==> |readers| == |flushes| == |Selected(sheets, metaOf, |sheets|)|
    ensures error.None? ==> Matches(readers, flushes)
    ensures error.None? ==> forall k :: 0 <= k < |readers| ==>
              (readers[k].sheetNumber, readers[k].metaId) == Selected(sheets, metaOf, |sheets|)[k]
              && readers[k].sheetNumber < |sheets| && flushes[k].newIds == entityIds[readers[k].sheetNumber]
    ensures error.None? ==> db.log == old(db.log) + DataLog(flushes, |flushes|) + RelationLog(flushes, |flushes|)
  {
    readers, flushes, error := BuildReaders(sheets, metaOf, fieldOf, relationsOf, ignoreNew, factory, resolverIds, entityIds,
                                            parseId, numberText);
    if error.Some? {
      return;
    }
    FlushAllData(readers, flushes, db);
    FlushAllRelations(readers, flushes, db);
  }
}
