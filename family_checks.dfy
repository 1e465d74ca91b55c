/**
  The bundle of bound checks (src/data/SchemaCheckProvider.tsx, lines 266-397):
  `makeSchemaFamilyChecks` freezes a deep copy of a schema family into ten
  operations, and `DefaultSchemaFamilyChecks` is the bundle used where no
  family was supplied. A bundle is a value: `Configured` with the copied
  family its closures capture, or `Unconfigured`.
 */
module FamilyChecks {
  import opened ResultType
  import opened Js
  import opened SchemaCheck

  const DefaultErrorMessage := "Not implemented, please make sure SchemaCheckProvider is used"

  /** The error every operation of the unconfigured bundle returns. */
  function NotConfigured<T>(): Result<T> {
    Err(Error(DefaultErrorMessage))
  }

  /**
    `JSON.parse(JSON.stringify(family))`: the same data, but every `peers` entry is a
    newly allocated array, so no entry is shared with the caller or with another entry.
   */
  function DeepCopy(family: SchemaFamily): (copy: SchemaFamily)
    ensures copy.schemaMap == family.schemaMap
    ensures copy.children == family.children && copy.parents == family.parents
    ensures copy.peers.Keys == family.peers.Keys
    ensures forall t | t in copy.peers :: copy.peers[t].tables == family.peers[t].tables
    ensures forall t | t in copy.peers :: !copy.peers[t].id.Caller?
    ensures forall t1, t2 | t1 in copy.peers && t2 in copy.peers && t1 != t2 ::
              copy.peers[t1].id != copy.peers[t2].id
  {
    family.(peers := map t | t in family.peers :: PeerGroup(Copied(t), family.peers[t].tables))
  }

  datatype SchemaFamilyChecks = Unconfigured | Configured(family: SchemaFamily) {

    /** `verifyTable`: `Ok(true)` for a registered table, an error otherwise. */
    function VerifyTable(table: string): (r: Result<bool>)
      ensures Unconfigured? ==> r == NotConfigured()
      ensures Configured? ==> (r.Ok? <==> table in family.schemaMap.entries)
      ensures r.Ok? ==> r.value
    {
      match this
      case Unconfigured => NotConfigured()
      case Configured(f) =>
        if table !in f.schemaMap.entries then Err(Error("Schema table '" + table + "' does not exist"))
        else Ok(true)
    }

    /** `parents`: the declared list for `table`, or none; it never fails. */
    function Parents(table: string): (ps: seq<string>)
      ensures Unconfigured? || table !in family.parents ==> ps == []
      ensures Configured? && table in family.parents ==> ps == family.parents[table]
    {
      match this
      case Unconfigured => []
      case Configured(f) => ParentsOf(f, table)
    }

    /** `pkField`: the name of `table`'s primary-key field. */
    function PkField(table: string): (r: Result<string>)
      ensures Unconfigured? ==> r == NotConfigured()
      ensures Configured? ==> (r.Ok? <==> table in family.schemaMap.entries)
      ensures Configured? && r.Ok? ==> r.value == family.schemaMap.entries[table].pk
    {
      match this
      case Unconfigured => NotConfigured()
      case Configured(f) =>
        var schemaResult := GetSchema(f.schemaMap, table);
        if schemaResult.IsErr() then Err(schemaResult.UnwrapErr())
        else Ok(schemaResult.Unwrap().pk)
    }

    /**
      `pk`: the primary-key value of `data` as a row of `table`. It fails for an unknown
      table, an absent key field, and a value that is not a string or is blank.
     */
    function Pk(table: string, data: DataRow): (r: Result<string>)
      ensures Unconfigured? ==> r == NotConfigured()
      ensures Configured? && table !in family.schemaMap.entries ==>
                r == Err(UnknownTableError(family.schemaMap, table))
      ensures Configured? ==>
                (r.Ok? <==> && table in family.schemaMap.entries
                            && var key := family.schemaMap.entries[table].pk;
                               key in data && data[key].Str? && !IsBlankText(data[key].s))
      ensures Configured? && r.Ok? ==> data[family.schemaMap.entries[table].pk] == Str(r.value)
    {
      match this
      case Unconfigured => NotConfigured()
      case Configured(f) =>
        var schemaResult := GetSchema(f.schemaMap, table);
        if schemaResult.IsErr() then Err(schemaResult.UnwrapErr())
        else
          var pkField := schemaResult.Unwrap().pk;
          if pkField !in data then Err(Error("Primary key field '" + pkField + "' not found in data"))
          else
            var pkValue := data[pkField];
            if !pkValue.Str? || IsBlankText(pkValue.s) then Err(Error("Primary key field '" + pkField + "' is empty"))
            else Ok(pkValue.s)
    }

    /** `prop`: `getProp` against the captured family. */
    function Prop(table: string, prop: string, data: DataRow, ignoreDefaults: bool): (r: Result<Value>)
      ensures Unconfigured? ==> r == NotConfigured()
      ensures Configured? ==> r == GetProp(family, table, prop, data, ignoreDefaults)
    {
      match this
      case Unconfigured => NotConfigured()
      case Configured(f) => GetProp(f, table, prop, data, ignoreDefaults)
    }

    /** `props`: `getProps` against the captured family. */
    method Props(table: string, props: seq<string>, data: DataRow, ignoreDefaults: bool) returns (r: Result<DataRow>)
      ensures Unconfigured? ==> r == NotConfigured()
      ensures Configured? ==> IsPropsResult(family, table, props, data, ignoreDefaults, r)
    {
      match this
      case Unconfigured =>
        r := NotConfigured();
      case Configured(f) =>
        r := GetProps(f, table, props, data, ignoreDefaults);
    }

    /** `checkNew` by table name: the lookup error, or `checkNew` against that table's schema. */
    function CheckNew(table: string, newRecord: DataRow, ignoreDefaults: bool): (r: Result<DataRow>)
      ensures Unconfigured? ==> r == NotConfigured()
      ensures Configured? && table !in family.schemaMap.entries ==>
                r == Err(UnknownTableError(family.schemaMap, table))
      ensures Configured? && table in family.schemaMap.entries ==>
                r == SchemaCheck.CheckNew(family.schemaMap.entries[table], newRecord, ignoreDefaults)
    {
      match this
      case Unconfigured => NotConfigured()
      case Configured(f) =>
        var schemaResult := GetSchema(f.schemaMap, table);
        if schemaResult.IsErr() then Err(schemaResult.UnwrapErr())
        else SchemaCheck.CheckNew(schemaResult.Unwrap(), newRecord, ignoreDefaults)
    }

    /** `checkUpdate` by table name: the lookup error, or `checkUpdate` against that table's schema. */
    method CheckUpdate(table: string, recordToUpdate: DataRow, ignoreDefaults: bool) returns (r: Result<DataRow>)
      ensures Unconfigured? ==> r == NotConfigured()
      ensures Configured? && table !in family.schemaMap.entries ==>
                r == Err(UnknownTableError(family.schemaMap, table))
      ensures Configured? && table in family.schemaMap.entries ==>
                IsUpdateResult(family.schemaMap.entries[table], recordToUpdate, ignoreDefaults, r)
    {
      match this
      case Unconfigured =>
        r := NotConfigured();
      case Configured(f) =>
        var schemaResult := GetSchema(f.schemaMap, table);
        if schemaResult.IsErr() {
          r := Err(schemaResult.UnwrapErr());
        } else {
          r := SchemaCheck.CheckUpdate(schemaResult.Unwrap(), recordToUpdate, ignoreDefaults);
        }
    }

    /** `checkParentHood` against the captured family. */
    function CheckParentHood(parentTable: string, childTable: string): (r: Result<()>)
      ensures Unconfigured? ==> r == NotConfigured()
      ensures Configured? ==> r == SchemaCheck.CheckParentHood(family, parentTable, childTable)
    {
      match this
      case Unconfigured => NotConfigured()
      case Configured(f) => SchemaCheck.CheckParentHood(f, parentTable, childTable)
    }

    /** `checkSiblingHood` against the captured family. */
    function CheckSiblingHood(table1: string, table2: string): (r: Result<()>)
      ensures Unconfigured? ==> r == NotConfigured()
      ensures Configured? ==> r == SchemaCheck.CheckSiblingHood(family, table1, table2)
    {
      match this
      case Unconfigured => NotConfigured()
      case Configured(f) => SchemaCheck.CheckSiblingHood(f, table1, table2)
    }
  }

  /** The bundle in effect where no schema family was supplied. */
  const DefaultSchemaFamilyChecks: SchemaFamilyChecks := Unconfigured

  /** `makeSchemaFamilyChecks`: every operation is bound to a private deep copy of `family`. */
  function MakeSchemaFamilyChecks(family: SchemaFamily): (checks: SchemaFamilyChecks)
    ensures checks.Configured?
    ensures checks.family.schemaMap == family.schemaMap && checks.family.parents == family.parents
    ensures checks.family.peers.Keys == family.peers.Keys
  {
    Configured(DeepCopy(family))
  }

  /** Outside any configured scope every check reports "not configured", and `parents` is empty. */
  lemma DefaultBundleRejectsEverything(table: string, other: string, data: DataRow, prop: string, ignoreDefaults: bool)
    ensures DefaultSchemaFamilyChecks.VerifyTable(table) == Err(Error(DefaultErrorMessage))
    ensures DefaultSchemaFamilyChecks.Pk(table, data) == Err(Error(DefaultErrorMessage))
    ensures DefaultSchemaFamilyChecks.PkField(table) == Err(Error(DefaultErrorMessage))
    ensures DefaultSchemaFamilyChecks.Parents(table) == []
    ensures DefaultSchemaFamilyChecks.Prop(table, prop, data, ignoreDefaults) == Err(Error(DefaultErrorMessage))
    ensures DefaultSchemaFamilyChecks.CheckNew(table, data, ignoreDefaults) == Err(Error(DefaultErrorMessage))
    ensures DefaultSchemaFamilyChecks.CheckParentHood(table, other) == Err(Error(DefaultErrorMessage))
    ensures DefaultSchemaFamilyChecks.CheckSiblingHood(table, other) == Err(Error(DefaultErrorMessage))
  {
  }

  /**
    Through the factory, two distinct registered tables that both have `peers` entries
    are never siblings: the copy gives each entry its own array.
   */
  lemma CopiedPeersNeverSiblings(family: SchemaFamily, table1: string, table2: string)
    requires table1 != table2
    requires table1 in family.schemaMap.entries && table2 in family.schemaMap.entries
    requires table1 in family.peers && table2 in family.peers
    ensures MakeSchemaFamilyChecks(family).CheckSiblingHood(table1, table2).Err?
  {
    var copy := DeepCopy(family);
    assert PeerIdentity(copy, table1) != PeerIdentity(copy, table2);
  }

  /** Through the factory, two distinct registered tables without `peers` entries are siblings. */
  lemma UnlistedTablesAreSiblings(family: SchemaFamily, table1: string, table2: string)
    requires table1 != table2
    requires table1 in family.schemaMap.entries && table2 in family.schemaMap.entries
    requires table1 !in family.peers && table2 !in family.peers
    ensures MakeSchemaFamilyChecks(family).CheckSiblingHood(table1, table2) == Ok(())
  {
  }

  /**
    Sharing one peer array between two tables makes them siblings for a direct call,
    but the factory's copy breaks the sharing, so its bundle rejects the same pair.
   */
  lemma CopyLosesSharedPeerGroup(family: SchemaFamily, table1: string, table2: string)
    requires table1 != table2
    requires table1 in family.schemaMap.entries && table2 in family.schemaMap.entries
    requires table1 in family.peers && table2 in family.peers
    requires family.peers[table1] == family.peers[table2]
    ensures SchemaCheck.CheckSiblingHood(family, table1, table2) == Ok(())
    ensures MakeSchemaFamilyChecks(family).CheckSiblingHood(table1, table2).Err?
  {
    CopiedPeersNeverSiblings(family, table1, table2);
  }
}
