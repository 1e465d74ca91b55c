/**
  The schema registry and its checks (src/data/SchemaCheckProvider.tsx, lines 1-264):
  table lookup, field reads with default substitution, create/update validation
  and the parent/sibling relationship checks.
 */
module SchemaCheck {
  import opened ResultType
  import opened Js

  datatype ColumnType = Integer | Text | Real | Blob

  /**
    A field value: a JavaScript number, a string, or nullish (`null` or `undefined`).
    Reading a key a row does not have yields `Null`.
   */
  datatype Value = Num(n: int) | Str(s: string) | Null

  /** A record: field name -> value. */
  type DataRow = map<string, Value>

  /** `row[field]` */
  function Get(row: DataRow, field: string): Value {
    if field in row then row[field] else Null
  }

  /** `a ?? b` */
  function Coalesce(a: Value, b: Value): Value {
    if a.Null? then b else a
  }

  /** `v == null || v.toString().trim() === ''`: a number's text is never blank. */
  predicate IsBlank(v: Value) {
    match v
    case Null => true
    case Str(s) => IsBlankText(s)
    case Num(_) => false
  }

  datatype Schema = Schema(
    defaults: map<string, Value>,
    name: string,
    pk: string,
    requiredFields: seq<string>,
    types: map<string, ColumnType>)

  /** Table name -> schema, in `Object.keys` order. */
  type SchemaMap = Obj<Schema>

  /**
    The identity of a peer-group array object. `Caller(a)` is an array the embedding
    application allocated (at address `a`); `Copied(t)` is the array that the deep
    copy of the family allocates for table `t`'s entry.
   */
  datatype GroupId = Caller(address: nat) | Copied(table: string)

  /** A `peers` entry: an array object (its identity) with its contents. */
  datatype PeerGroup = PeerGroup(id: GroupId, tables: seq<string>)

  datatype SchemaFamily = SchemaFamily(
    schemaMap: SchemaMap,
    children: map<string, seq<string>>,
    parents: map<string, seq<string>>,
    peers: map<string, PeerGroup>)

  /** `schemaFamily.peers[table]`, as compared by `!==`: the array's identity, or undefined. */
  function PeerIdentity(family: SchemaFamily, table: string): Option<GroupId> {
    if table in family.peers then Some(family.peers[table].id) else None
  }

  /** `parents[table] ?? []` */
  function ParentsOf(family: SchemaFamily, table: string): seq<string> {
    if table in family.parents then family.parents[table] else []
  }

  /** The lookup error, listing the registered tables in `Object.keys` order. */
  function UnknownTableError(m: SchemaMap, table: string): Error {
    Error("Schema '" + table + "' does not exist. Currently available schemas are: "
          + Join(m.keys, ", "))
  }

  /** `getSchema`: the schema registered under `table`, or a lookup error. */
  function GetSchema(m: SchemaMap, table: string): (r: Result<Schema>)
    ensures r.Ok? <==> table in m.entries
    ensures r.Ok? ==> r.value == m.entries[table]
    ensures r.Err? ==> r.error == UnknownTableError(m, table)
  {
    if table !in m.entries then Err(UnknownTableError(m, table)) else Ok(m.entries[table])
  }

  /** The lookup error names every table of the map, so a mistyped name can be spotted. */
  lemma GetSchemaErrorListsEveryTable(m: SchemaMap, table: string, known: string)
    requires m.Valid() && table !in m.entries && known in m.entries
    ensures GetSchema(m, table).Err?
    ensures IsInfix(known, GetSchema(m, table).error.message)
  {
    var prefix := "Schema '" + table + "' does not exist. Currently available schemas are: ";
    JoinContains(m.keys, ", ", known);
    var i :| 0 <= i <= |Join(m.keys, ", ")| && InfixAt(known, Join(m.keys, ", "), i);
    InfixExtends(known, Join(m.keys, ", "), i, prefix, "");
    assert prefix + Join(m.keys, ", ") + "" == GetSchema(m, table).error.message;
  }

  /**
    `getProp`: reads one field of `row` as a field of `table`. A field is known iff the
    schema declares a default for it. Defaults replace a nullish value only when
    `ignoreDefaults` is true, as the source is written.
   */
  function GetProp(family: SchemaFamily, table: string, prop: string, row: DataRow, ignoreDefaults: bool)
    : (r: Result<Value>)
    ensures table !in family.schemaMap.entries ==> r == Err(UnknownTableError(family.schemaMap, table))
    ensures r.Ok? <==> table in family.schemaMap.entries && prop in family.schemaMap.entries[table].defaults
    ensures r.Ok? && !ignoreDefaults ==> r.value == Get(row, prop)
    ensures r.Ok? && ignoreDefaults && !Get(row, prop).Null? ==> r.value == row[prop]
    ensures r.Ok? && ignoreDefaults && Get(row, prop).Null? ==>
              r.value == family.schemaMap.entries[table].defaults[prop]
  {
    match GetSchema(family.schemaMap, table)
    case Err(e) => Err(e)
    case Ok(schema) =>
      if prop !in schema.defaults then
        Err(Error("Schema '" + schema.name + "' does not have a field called '" + prop + "'"))
      else
        var rawData := Get(row, prop);
        Ok(if ignoreDefaults then Coalesce(rawData, schema.defaults[prop]) else rawData)
  }

  /**
    What `getProps` returns: fail-fast on the first prop (in list order) that `getProp`
    rejects, with that prop's error; otherwise exactly the requested props, each mapped
    to what `getProp` reads.
   */
  ghost predicate IsPropsResult(family: SchemaFamily, table: string, props: seq<string>, row: DataRow,
                                ignoreDefaults: bool, r: Result<DataRow>)
  {
    && (r.Ok? <==> forall i | 0 <= i < |props| :: GetProp(family, table, props[i], row, ignoreDefaults).Ok?)
    && (r.Err? ==>
          exists i | 0 <= i < |props| ::
            && GetProp(family, table, props[i], row, ignoreDefaults) == Err(r.error)
            && forall j | 0 <= j < i :: GetProp(family, table, props[j], row, ignoreDefaults).Ok?)
    && (r.Ok? ==>
          && (forall p :: p in r.value <==> p in props)
          && forall p | p in r.value ::
               GetProp(family, table, p, row, ignoreDefaults) == Ok(r.value[p]))
  }

  /** `getProps`: fills the result record prop by prop, stopping at the first error. */
  method GetProps(family: SchemaFamily, table: string, props: seq<string>, row: DataRow, ignoreDefaults: bool)
    returns (r: Result<DataRow>)
    ensures IsPropsResult(family, table, props, row, ignoreDefaults, r)
  {
    var ret: DataRow := map[];
    for i := 0 to |props|
      invariant forall j | 0 <= j < i :: GetProp(family, table, props[j], row, ignoreDefaults).Ok?
      invariant forall p :: p in ret <==> p in props[..i]
      invariant forall p | p in ret :: GetProp(family, table, p, row, ignoreDefaults) == Ok(ret[p])
    {
      var propResult := GetProp(family, table, props[i], row, ignoreDefaults);
      if propResult.IsErr() {
        return Err(propResult.UnwrapErr());
      }
      ret := ret[props[i] := propResult.Unwrap()];
    }
    assert props[..|props|] == props;
    return Ok(ret);
  }

  /** `requiredFields.filter(...)` in `checkNew`: the required fields missing, null or blank in `record`. */
  function MissingRequired(required: seq<string>, record: DataRow): (missing: seq<string>)
    ensures forall f :: f in missing <==> f in required && IsBlank(Get(record, f))
  {
    if required == [] then []
    else
      var rest := MissingRequired(required[1..], record);
      if IsBlank(Get(record, required[0])) then [required[0]] + rest else rest
  }

  /** `requiredFields.filter(...)` in `checkUpdate`: the required fields `record` has, null or blank. */
  function EmptyButRequired(required: seq<string>, record: DataRow): (empty: seq<string>)
    ensures forall f :: f in empty <==> f in required && f in record && IsBlank(record[f])
  {
    if required == [] then []
    else
      var rest := EmptyButRequired(required[1..], record);
      if required[0] in record && IsBlank(record[required[0]]) then [required[0]] + rest else rest
  }

  /** The `reduce` that builds a `ColumnWritingError`'s map: every field -> "Can't be empty". */
  function CantBeEmpty(fields: seq<string>): (errors: map<string, string>)
    ensures forall f :: f in errors <==> f in fields
    ensures forall f | f in errors :: errors[f] == "Can't be empty"
  {
    if fields == [] then map[]
    else CantBeEmpty(fields[..|fields| - 1])[fields[|fields| - 1] := "Can't be empty"]
  }

  /**
    The defaulted record that `checkNew` builds before validating (and then drops):
    every defaulted field, taken from the record unless nullish there; or a plain copy.
   */
  function DefaultedNewRecord(schema: Schema, newRecord: DataRow, ignoreDefaults: bool): (ret: DataRow)
    ensures ignoreDefaults ==> ret == newRecord
    ensures !ignoreDefaults ==> ret.Keys == schema.defaults.Keys
    ensures !ignoreDefaults ==> forall f | f in ret ::
              ret[f] == (if Get(newRecord, f).Null? then schema.defaults[f] else newRecord[f])
  {
    if !ignoreDefaults then
      map f | f in schema.defaults :: Coalesce(Get(newRecord, f), schema.defaults[f])
    else newRecord
  }

  /**
    `checkNew`: a new record must carry a non-blank value for every required field.
    All offending fields are reported together; on success the record is returned as
    given (defaults never satisfy a requirement, and are not filled in).
   */
  function CheckNew(schema: Schema, newRecord: DataRow, ignoreDefaults: bool): (r: Result<DataRow>)
    ensures r.Err? <==> exists f :: f in schema.requiredFields && IsBlank(Get(newRecord, f))
    ensures r.Ok? ==> r.value == newRecord
    ensures r.Err? ==> r.error.ColumnWritingError?
    ensures r.Err? ==> forall f :: f in r.error.fields <==> f in schema.requiredFields && IsBlank(Get(newRecord, f))
    ensures r.Err? ==> forall f | f in r.error.fields :: r.error.fields[f] == "Can't be empty"
  {
    var missing := MissingRequired(schema.requiredFields, newRecord);
    if |missing| > 0 then
      assert missing[0] in missing;
      Err(ColumnWritingError(
            "When adding a new record, schema '" + schema.name + "' requires non-empty values for fields",
            CantBeEmpty(missing)))
    else
      Ok(newRecord)
  }

  /** Whether defaults are ignored never changes `checkNew`'s verdict or its result. */
  lemma CheckNewIndependentOfIgnoreDefaults(schema: Schema, newRecord: DataRow)
    ensures CheckNew(schema, newRecord, true) == CheckNew(schema, newRecord, false)
  {
  }

  /**
    With defaults in use, `checkNew` builds a record in which a field the new record
    lacks takes its default, yet it returns the record as given, without that field.
   */
  lemma CheckNewDropsDefaultedRecord(schema: Schema, newRecord: DataRow, f: string)
    requires f in schema.defaults && f !in newRecord
    requires CheckNew(schema, newRecord, false).Ok?
    ensures f in DefaultedNewRecord(schema, newRecord, false)
    ensures DefaultedNewRecord(schema, newRecord, false)[f] == schema.defaults[f]
    ensures f !in CheckNew(schema, newRecord, false).value
  {
  }

  /**
    What `checkUpdate` returns: only required fields present in the record are checked,
    all offenders reported together; on success the record's own keys, each value
    filled from the schema defaults when nullish unless `ignoreDefaults`.
   */
  ghost predicate IsUpdateResult(schema: Schema, recordToUpdate: DataRow, ignoreDefaults: bool, r: Result<DataRow>) {
    && (r.Err? <==> exists f :: f in schema.requiredFields && f in recordToUpdate && IsBlank(recordToUpdate[f]))
    && (r.Err? ==> r.error.ColumnWritingError?)
    && (r.Err? ==> forall f :: f in r.error.fields <==>
                     f in schema.requiredFields && f in recordToUpdate && IsBlank(recordToUpdate[f]))
    && (r.Err? ==> forall f | f in r.error.fields :: r.error.fields[f] == "Can't be empty")
    && (r.Ok? ==> r.value.Keys == recordToUpdate.Keys)
    && (r.Ok? ==> forall f | f in recordToUpdate ::
          r.value[f] == if ignoreDefaults then recordToUpdate[f]
                        else Coalesce(recordToUpdate[f], Get(schema.defaults, f)))
  }

  /** `checkUpdate`: builds the result record key by key, then validates the present required fields. */
  method CheckUpdate(schema: Schema, recordToUpdate: DataRow, ignoreDefaults: bool) returns (r: Result<DataRow>)
    ensures IsUpdateResult(schema, recordToUpdate, ignoreDefaults, r)
  {
    var ret: DataRow := map[];
    if !ignoreDefaults {
      var todo := recordToUpdate.Keys;
      while todo != {}
        invariant todo <= recordToUpdate.Keys
        invariant ret.Keys == recordToUpdate.Keys - todo
        invariant forall f | f in ret :: ret[f] == Coalesce(recordToUpdate[f], Get(schema.defaults, f))
        decreases todo
      {
        var field :| field in todo;
        ret := ret[field := Coalesce(recordToUpdate[field], Get(schema.defaults, field))];
        todo := todo - {field};
      }
    } else {
      ret := recordToUpdate;
    }
    var emptyButRequired := EmptyButRequired(schema.requiredFields, recordToUpdate);
    if |emptyButRequired| > 0 {
      assert emptyButRequired[0] in emptyButRequired;
      r := Err(ColumnWritingError(
                 "When updating a record, schema '" + schema.name + "' requires non-empty values for fields",
                 CantBeEmpty(emptyButRequired)));
    } else {
      r := Ok(ret);
    }
  }

  /**
    `checkParentHood`: both tables must be registered (the parent's lookup error first);
    then the child must be listed under `parents[parentTable]`, absent meaning none.
   */
  function CheckParentHood(family: SchemaFamily, parentTable: string, childTable: string): (r: Result<()>)
    ensures parentTable !in family.schemaMap.entries ==>
              r == Err(UnknownTableError(family.schemaMap, parentTable))
    ensures parentTable in family.schemaMap.entries && childTable !in family.schemaMap.entries ==>
              r == Err(UnknownTableError(family.schemaMap, childTable))
    ensures r.Ok? <==> && parentTable in family.schemaMap.entries
                       && childTable in family.schemaMap.entries
                       && childTable in ParentsOf(family, parentTable)
  {
    var parentSchemaResult := GetSchema(family.schemaMap, parentTable);
    if parentSchemaResult.IsErr() then Err(parentSchemaResult.UnwrapErr())
    else
      var childSchemaResult := GetSchema(family.schemaMap, childTable);
      if childSchemaResult.IsErr() then Err(childSchemaResult.UnwrapErr())
      else if childTable !in ParentsOf(family, parentTable) then
        Err(Error("Parent schema '" + parentTable + "' does not own child schema '" + childTable + "'"))
      else Ok(())
  }

  /**
    `checkSiblingHood`: both tables must be registered; a table is never its own sibling;
    otherwise two tables are siblings iff their `peers` entries are the same object
    (two absent entries are both undefined, hence equal).
   */
  function CheckSiblingHood(family: SchemaFamily, table1: string, table2: string): (r: Result<()>)
    ensures table1 !in family.schemaMap.entries ==> r == Err(UnknownTableError(family.schemaMap, table1))
    ensures table1 in family.schemaMap.entries && table2 !in family.schemaMap.entries ==>
              r == Err(UnknownTableError(family.schemaMap, table2))
    ensures table1 == table2 ==> r.Err?
    ensures r.Ok? <==> && table1 in family.schemaMap.entries
                       && table2 in family.schemaMap.entries
                       && table1 != table2
                       && PeerIdentity(family, table1) == PeerIdentity(family, table2)
  {
    var schema1Result := GetSchema(family.schemaMap, table1);
    if schema1Result.IsErr() then Err(schema1Result.UnwrapErr())
    else
      var schema2Result := GetSchema(family.schemaMap, table2);
      if schema2Result.IsErr() then Err(schema2Result.UnwrapErr())
      else if table1 == table2 then
        Err(Error("Schema relationship '" + table1 + " -> " + table2 + "' is not allowed"))
      else if PeerIdentity(family, table1) != PeerIdentity(family, table2) then
        Err(Error("Schema relationship '" + table1 + " -> " + table2 + "' is not found"))
      else Ok(())
  }
}
