// How an imported sheet row is matched to an entity id: the id resolvers
// (BGExcelIdResolverIdRT, ...NoIdRT, ...IndexRT, ...FieldART with its string
// and int variants) and the factory that picks one for a table
// (BGExcelIdResolverFactoryRT.Create). A fresh id (BGId.NewId) and the
// parsing of an id's text are parameters.
module ExcelIds {
  import opened Wrappers
  import opened DotNetText
  import opened ExcelCells

  /** The field types an id field can have. */
  datatype FieldKind = StringField | IntField | OtherField

  /** A value of a string or int field; `NullString` is a string field
      holding null. */
  datatype FieldValue = StrValue(s: string) | IntValue(n: int) | NullString

  /** A field of a table in the main database: its type, whether the id
      configuration supports it, and per entity (in entity order) the
      field's value and the entity's id. */
  datatype Field = Field(kind: FieldKind, supported: bool, column: seq<(FieldValue, BGId)>)

  /** A table (meta) of the main database: its entity ids in order and its
      fields by field id. */
  datatype Meta = Meta(ids: seq<BGId>, fields: map<nat, Field>)

  /** The id configuration kinds of BGSyncIdConfig; `OtherConfig` stands for
      any other enum value. */
  datatype ConfigType = IdColumn | NoId | Index | FieldConfig | OtherConfig

  datatype MetaConfig = MetaConfig(configType: ConfigType, fieldId: nat)

  /** An id resolver. A field resolver keeps its field's id, the value
      conversion its kind implies and its value-to-id dictionary. */
  datatype Resolver =
    | IdColumnResolver
    | NoIdResolver
    | IndexResolver(mainMeta: Option<seq<BGId>>)
    | FieldResolver(kind: FieldKind, fieldId: nat, value2Id: map<FieldValue, BGId>)

  /** The dictionary the field resolver's constructor builds: each value
      maps to the id of the first entity holding it. */
  function FirstIds(column: seq<(FieldValue, BGId)>): map<FieldValue, BGId>
  {
    if |column| == 0 then map[]
    else
      var prefix := FirstIds(column[..|column| - 1]);
      var (v, id) := column[|column| - 1];
      if v in prefix then prefix else prefix[v := id]
  }

  /** The dictionary's keys are exactly the field's values. */
  lemma {:induction false} FirstIdsKeys(column: seq<(FieldValue, BGId)>)
    ensures forall v :: v in FirstIds(column) <==> exists i :: 0 <= i < |column| && column[i].0 == v
    decreases |column|
  {
    if |column| > 0 {
      var n := |column| - 1;
      FirstIdsKeys(column[..n]);
      assert forall i :: 0 <= i < n ==> column[..n][i] == column[i];
      forall v | v in FirstIds(column)
        ensures exists i :: 0 <= i < |column| && column[i].0 == v
      {
        if v !in FirstIds(column[..n]) {
          assert column[n].0 == v;
        }
      }
    }
  }

  /** A value maps to the id of the first entity holding it; later
      duplicates are ignored. */
  lemma {:induction false} FirstIdsFirst(column: seq<(FieldValue, BGId)>, i: nat)
    requires i < |column| && forall j :: 0 <= j < i ==> column[j].0 != column[i].0
    ensures column[i].0 in FirstIds(column) && FirstIds(column)[column[i].0] == column[i].1
    decreases |column|
  {
    var n := |column| - 1;
    var v := column[i].0;
    if i < n {
      assert forall j :: 0 <= j <= i ==> column[..n][j] == column[j];
      FirstIdsFirst(column[..n], i);
    } else {
      FirstIdsKeys(column[..n]);
      assert forall j :: 0 <= j < n ==> column[..n][j].0 == column[j].0 != v;
    }
  }

  /** Some entity of the table holds null in the field. */
  predicate HoldsNull(column: seq<(FieldValue, BGId)>)
  {
    exists i :: 0 <= i < |column| && column[i].0 == NullString
  }

  /** The field resolver's constructor loop. Dictionary.TryGetValue throws
      ArgumentNullException on a null key, so a field holding null makes
      the constructor fail; otherwise each value maps to the id of its
      first entity. */
  method BuildValueMap(column: seq<(FieldValue, BGId)>) returns (r: Result<map<FieldValue, BGId>>)
    ensures r.Err? <==> HoldsNull(column)
    ensures r.Ok? ==> r.value == FirstIds(column)
  {
    var value2Id := map[];
    var i := 0;
    while i < |column|
      invariant 0 <= i <= |column|
      invariant value2Id == FirstIds(column[..i])
      invariant forall j :: 0 <= j < i ==> column[j].0 != NullString
    {
      var (value, id) := column[i];
      if value == NullString {
        return Err("ArgumentNullException");
      }
      assert column[..i + 1][..i] == column[..i];
      if value !in value2Id {
        value2Id := value2Id[value := id];
      }
      i := i + 1;
    }
    assert column[..i] == column;
    return Ok(value2Id);
  }

  /** The main table exists and has the field, and the id configuration
      supports the field. */
  predicate SupportedField(fieldId: nat, mainMeta: Option<Meta>)
  {
    mainMeta.Some? && fieldId in mainMeta.value.fields && mainMeta.value.fields[fieldId].supported
  }

  /** Create(metaId, ...): the resolver for a table, given its id
      configuration (None when there is no configuration or none for this
      table) and its table in the main database (None when there is no main
      database or it lacks the table). Err is the exception for a supported
      field of another type, a supported string field that some entity
      holds null in (the field resolver's constructor throws), or an
      unknown configuration type. */
  function Create(config: Option<MetaConfig>, mainMeta: Option<Meta>): (r: Result<Resolver>)
    ensures config.None? ==> r == Ok(IdColumnResolver)
    ensures config.Some? && config.value.configType == IdColumn ==> r == Ok(IdColumnResolver)
    ensures config.Some? && config.value.configType == NoId ==> r == Ok(NoIdResolver)
    ensures config.Some? && config.value.configType == Index ==>
              r == Ok(IndexResolver(if mainMeta.Some? then Some(mainMeta.value.ids) else None))
    ensures config.Some? && config.value.configType == FieldConfig && !SupportedField(config.value.fieldId, mainMeta) ==>
              r == Ok(IdColumnResolver)
    ensures config.Some? && config.value.configType == FieldConfig && SupportedField(config.value.fieldId, mainMeta) ==>
              (var f := mainMeta.value.fields[config.value.fieldId];
               (f.kind == OtherField || HoldsNull(f.column) <==> r.Err?)
               && (r.Ok? ==> r.value == FieldResolver(f.kind, config.value.fieldId, FirstIds(f.column))))
    ensures r.Err? <==>
              (config.Some? && (config.value.configType == OtherConfig
                 || (config.value.configType == FieldConfig && SupportedField(config.value.fieldId, mainMeta)
                     && (mainMeta.value.fields[config.value.fieldId].kind == OtherField
                         || HoldsNull(mainMeta.value.fields[config.value.fieldId].column)))))
  {
    if config.None? then Ok(IdColumnResolver)
    else
      match config.value.configType
      case IdColumn => Ok(IdColumnResolver)
      case NoId => Ok(NoIdResolver)
      case Index => Ok(IndexResolver(if mainMeta.Some? then Some(mainMeta.value.ids) else None))
      case FieldConfig =>
        var fieldId := config.value.fieldId;
        if mainMeta.None? || fieldId !in mainMeta.value.fields then Ok(IdColumnResolver)
        else
          var field := mainMeta.value.fields[fieldId];
          if !field.supported then Ok(IdColumnResolver)
          else if field.kind == OtherField then Err("Can not create id resolver, unsupported field type")
          else if HoldsNull(field.column) then Err("ArgumentNullException")
          else Ok(FieldResolver(field.kind, fieldId, FirstIds(field.column)))
      case OtherConfig => Err("Unsupported config type")
  }

  /** Convert(s): the text itself for a string field, int.Parse for an int
      field (None when it throws). */
  function Convert(kind: FieldKind, s: string): Option<FieldValue>
  {
    match kind
    case StringField => Some(StrValue(s))
    case IntField => if TryParseInt(s).Some? then Some(IntValue(TryParseInt(s).value)) else None
    case OtherField => None
  }

  /** What a resolver reads from the sheet info and the row: the id
      column (info.IndexId, -1 when there is none), the field columns
      (info.GetFieldColumn), the row's cells and its row number. */
  datatype RowView = RowView(indexId: int, fieldColumns: map<nat, int>, row: Row, rowNum: int)

  /** ResolveId(reader, info, row). Err is an exception: the id cell is a
      formula whose result is a formula, or (id column) its text is not an
      id. */
  function ResolveId(resolver: Resolver, view: RowView, newId: BGId, parseId: string -> Option<BGId>,
                     numberText: real -> string): Result<BGId>
  {
    match resolver
    case IdColumnResolver =>
      if view.indexId < 0 then Ok(EmptyId)
      else
        (match ReadNotNull(view.row, view.indexId, numberText)
         case Err(e) => Err(e)
         case Ok(None) => Ok(EmptyId)
         case Ok(Some(s)) => if parseId(s).Some? then Ok(parseId(s).value) else Err("invalid id " + s))
    case NoIdResolver => Ok(EmptyId)
    case IndexResolver(mainMeta) =>
      if mainMeta.None? then Ok(EmptyId)
      else
        var targetIndex := view.rowNum - 1;
        if targetIndex < 0 || targetIndex >= |mainMeta.value| then Ok(newId) else Ok(mainMeta.value[targetIndex])
    case FieldResolver(kind, fieldId, value2Id) =>
      var column := if fieldId in view.fieldColumns then view.fieldColumns[fieldId] else -1;
      if column < 0 then Ok(EmptyId)
      else
        match ReadNotNull(view.row, column, numberText)
        case Err(e) => Err(e)
        case Ok(None) => Ok(EmptyId)
        case Ok(Some(s)) =>
          var value := Convert(kind, s);
          if value.None? then Ok(EmptyId)
          else if value.value in value2Id then Ok(value2Id[value.value])
          else Ok(newId)
  }

  /** The id-column resolver: Empty without an id column or when the id
      cell is missing or reads as null or ""; otherwise the id parsed from
      the cell's text. */
  lemma IdColumnSpec(view: RowView, newId: BGId, parseId: string -> Option<BGId>, numberText: real -> string)
    ensures view.indexId < 0 ==> ResolveId(IdColumnResolver, view, newId, parseId, numberText) == Ok(EmptyId)
    ensures view.indexId >= 0 && GetCell(view.row, view.indexId).None? ==>
              ResolveId(IdColumnResolver, view, newId, parseId, numberText) == Ok(EmptyId)
    ensures view.indexId >= 0 && ReadAsString(GetCell(view.row, view.indexId), numberText) in {Ok(None), Ok(Some(""))} ==>
              ResolveId(IdColumnResolver, view, newId, parseId, numberText) == Ok(EmptyId)
    ensures view.indexId >= 0 && ReadAsString(GetCell(view.row, view.indexId), numberText).Err? ==>
              ResolveId(IdColumnResolver, view, newId, parseId, numberText).Err?
    ensures forall t :: t != "" && view.indexId >= 0 && ReadAsString(GetCell(view.row, view.indexId), numberText) == Ok(Some(t)) ==>
              ResolveId(IdColumnResolver, view, newId, parseId, numberText)
                == (if parseId(t).Some? then Ok(parseId(t).value) else Err("invalid id " + t))
  {
    assert IsNullOrEmpty(Some(""));
  }

  /** The index resolver: with no main table, Empty; with one, row r stands
      for entity r - 1 and a row outside the table gets a fresh id, so
      the result is never Empty. */
  lemma IndexSpec(mainMeta: Option<seq<BGId>>, view: RowView, newId: BGId, parseId: string -> Option<BGId>,
                  numberText: real -> string)
    requires newId != EmptyId
    requires mainMeta.Some? ==> forall i :: 0 <= i < |mainMeta.value| ==> mainMeta.value[i] != EmptyId
    ensures mainMeta.None? ==> ResolveId(IndexResolver(mainMeta), view, newId, parseId, numberText) == Ok(EmptyId)
    ensures mainMeta.Some? ==>
              (var r := ResolveId(IndexResolver(mainMeta), view, newId, parseId, numberText);
               r.Ok? && r.value != EmptyId
               && (1 <= view.rowNum <= |mainMeta.value| ==> r.value == mainMeta.value[view.rowNum - 1])
               && (view.rowNum < 1 || view.rowNum > |mainMeta.value| ==> r.value == newId))
  {
  }

  /** The field resolvers: Empty when the field has no column, the cell is
      missing or reads as null or "", or the text does not convert;
      otherwise the id of the first entity holding the value, or a fresh
      id when none does, and then never Empty. */
  lemma FieldSpec(kind: FieldKind, fieldId: nat, column: seq<(FieldValue, BGId)>, view: RowView, newId: BGId,
                  parseId: string -> Option<BGId>, numberText: real -> string)
    requires newId != EmptyId
    requires forall i :: 0 <= i < |column| ==> column[i].1 != EmptyId
    ensures var col := if fieldId in view.fieldColumns then view.fieldColumns[fieldId] else -1;
      col < 0 || GetCell(view.row, col).None? ==>
        ResolveId(FieldResolver(kind, fieldId, FirstIds(column)), view, newId, parseId, numberText) == Ok(EmptyId)
    ensures var col := if fieldId in view.fieldColumns then view.fieldColumns[fieldId] else -1;
      forall t :: col >= 0 && ReadNotNull(view.row, col, numberText) == Ok(Some(t)) ==>
        (var r := ResolveId(FieldResolver(kind, fieldId, FirstIds(column)), view, newId, parseId, numberText);
         (Convert(kind, t).None? ==> r == Ok(EmptyId))
         && (Convert(kind, t).Some? ==> r.Ok? && r.value != EmptyId)
         && (forall i :: (0 <= i < |column| && Convert(kind, t) == Some(column[i].0)
                          && forall j :: 0 <= j < i ==> column[j].0 != column[i].0) ==> r == Ok(column[i].1))
         && ((Convert(kind, t).Some? && forall i :: 0 <= i < |column| ==> column[i].0 != Convert(kind, t).value)
               ==> r == Ok(newId)))
  {
    FirstIdsKeys(column);
    FirstIdsInColumn(column);
    forall i | 0 <= i < |column| && forall j :: 0 <= j < i ==> column[j].0 != column[i].0
      ensures column[i].0 in FirstIds(column) && FirstIds(column)[column[i].0] == column[i].1
    {
      FirstIdsFirst(column, i);
    }
  }

  /** Every id the dictionary holds is the id of some entity. */
  lemma {:induction false} FirstIdsInColumn(column: seq<(FieldValue, BGId)>)
    ensures forall v :: v in FirstIds(column) ==> exists i :: 0 <= i < |column| && FirstIds(column)[v] == column[i].1
    decreases |column|
  {
    if |column| > 0 {
      var n := |column| - 1;
      FirstIdsInColumn(column[..n]);
      assert forall i :: 0 <= i < n ==> column[..n][i] == column[i];
    }
  }
}
