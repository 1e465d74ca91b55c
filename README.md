# Schema checks and form validation of a CRUD UI kit, in Dafny

This project models the validation core of a small React library for record-editing
interfaces:

- `ResultType` (`result.dfy`): the `Ok(value) | Err(error)` outcome that every check
  returns, with `isOk`/`isErr`/`unwrap`/`unwrapErr`. A throwing `unwrap` is modelled as
  a `Completion` (`Returned` or `Threw`).
- `Js` (`js.dfy`): the JavaScript behaviour the checks rely on. This covers
  `String.prototype.trim` (with the exact ECMAScript whitespace and line-terminator code
  points), `Array.prototype.join`, and substring containment. It also has `Obj`, a plain
  object whose key order `Object.keys` exposes.
- `SchemaCheck` (`schema_check.dfy`): a schema registry keyed by table name.
  - `getSchema` looks up a table.
  - `getProp`/`getProps` read fields, optionally substituting schema defaults.
  - `checkNew`/`checkUpdate` check required fields and aggregate every blank one into a
    `ColumnWritingError` map.
  - `checkParentHood`/`checkSiblingHood` check relationships between tables.
  - Values are `Num | Str | Null`. A key missing from a row reads as `Null` (undefined).
- `FamilyChecks` (`family_checks.dfy`): the bundle of ten checks that
  `makeSchemaFamilyChecks` binds to a deep copy of a schema family, and the
  "not configured" default bundle.
  - A bundle is the datatype `Configured(family) | Unconfigured`.
  - Peer groups are compared by object identity. A `GroupId` stands for that identity.
    The deep copy gives every `peers` entry its own identity `Copied(table)`, which no
    `Caller` identity and no other entry shares.
- `SimpleForm` (`simple_form.dfy`): the form's required-field check `getEmptyError`,
  the initial input, and the merge of client and server field errors.
  - The `onUpdate`/`onSubmit` handlers are methods of the class `Form`, over its
    `input`, `fieldErrors` and `mutateFieldErrors`.
  - Submitting appends the input to `submitted` instead of calling the server.
  - The class invariant says that no submitted input has a blank required field.

Three behaviours of the code are modelled exactly as written:

- `checkNew` builds a record with the schema defaults filled in
  (src/data/SchemaCheckProvider.tsx:136-143), but returns `newRecord` unchanged (line 162).
  `DefaultedNewRecord` models the record that is built and then dropped, and
  `CheckNewDropsDefaultedRecord` proves, for every schema and record, that a defaulted field
  the record lacks is in that record but not in the returned one.
- `getProp` substitutes a default for a nullish value only when `ignoreDefaults` is
  **true** (line 72).
- `checkSiblingHood` compares the two `peers` entries with `!==` (line 255). The entries are
  arrays (line 22), so two tables are siblings only when they share one array object, or
  when neither has an entry.

## Model

| member | source | states |
|---|---|---|
| `ResultType.OkLaws` | src/data/result.ts:8-17 | `ok(v)` is Ok and not Err, `unwrap` returns `v`, `unwrapErr` throws an error whose message embeds `v` |
| `ResultType.ErrLaws` | src/data/result.ts:19-28 | `err(e)` is Err and not Ok, `unwrapErr` returns `e`, `unwrap` throws `e` itself |
| `ResultType.IsOkIsErrExclusive` | src/data/result.ts:8-28 | `isOk` and `isErr` are exact negations for every result |
| `ResultType.UnwrapRecoversResult` | src/data/result.ts:12-24 | what `unwrap()` returns or throws rebuilds the result it was called on |
| `Js.TrimStartRemovesLeadingWhitespace` | src/data/SchemaCheckProvider.tsx:148 | the start of `trim` removes a whitespace prefix and all of it; what is left is a suffix not starting with whitespace |
| `Js.TrimEndRemovesTrailingWhitespace` | src/data/SchemaCheckProvider.tsx:148 | the end of `trim` removes a whitespace suffix and all of it; what is left is a prefix not ending in whitespace |
| `Js.BlankIffAllWhitespace` | src/crud-ui/SimpleForm.tsx:65 | `s.trim() === ''` holds exactly when every character of `s` is whitespace |
| `Js.JoinContains` | src/data/SchemaCheckProvider.tsx:31-33 | every element of a list occurs in the list joined with any separator |
| `SchemaCheck.GetSchema` | src/data/SchemaCheckProvider.tsx:27-38 | Ok with the registered schema iff the table is a key of the map, otherwise the lookup error |
| `SchemaCheck.GetSchemaErrorListsEveryTable` | src/data/SchemaCheckProvider.tsx:28-35 | for an unknown table, the error message contains every table name of the map |
| `SchemaCheck.GetProp` | src/data/SchemaCheckProvider.tsx:47-75 | an unknown table gives the lookup error; Ok iff the prop has a declared default; without `ignoreDefaults` the raw row value; with it, the row value unless nullish (a present `0` or `""` is kept), else the default |
| `SchemaCheck.GetProps` | src/data/SchemaCheckProvider.tsx:87-113 | fail-fast: Ok iff every prop reads; otherwise the error of the first failing prop in list order; on success exactly the requested keys, each with `getProp`'s value |
| `SchemaCheck.MissingRequired` | src/data/SchemaCheckProvider.tsx:145-149 | lists exactly the required fields that the record lacks or holds null or blank |
| `SchemaCheck.EmptyButRequired` | src/data/SchemaCheckProvider.tsx:188-193 | lists exactly the required fields the record has with a null or blank value; absent fields are exempt |
| `SchemaCheck.CantBeEmpty` | src/data/SchemaCheckProvider.tsx:155-158 | the error map has exactly the offending fields as keys, each with "Can't be empty" |
| `SchemaCheck.DefaultedNewRecord` | src/data/SchemaCheckProvider.tsx:136-143 | without `ignoreDefaults`: exactly the defaulted fields, each the record's value unless nullish there, else the default; with it, a copy of the record |
| `SchemaCheck.CheckNew` | src/data/SchemaCheckProvider.tsx:130-163 | Err iff some required field of the record itself is missing, null or blank (defaults never satisfy it); the `ColumnWritingError` map lists all of them with "Can't be empty"; on success the record unchanged |
| `SchemaCheck.CheckNewIndependentOfIgnoreDefaults` | src/data/SchemaCheckProvider.tsx:133-162 | `ignoreDefaults` has no effect on `checkNew`'s result |
| `SchemaCheck.CheckNewDropsDefaultedRecord` | src/data/SchemaCheckProvider.tsx:136-162 | for every schema and record: when `checkNew` succeeds without `ignoreDefaults`, a defaulted field the record lacks is a key of the built record but not of the returned one |
| `SchemaCheck.CheckUpdate` | src/data/SchemaCheckProvider.tsx:174-206 | Err iff a required field present in the record is null or blank, all of them mapped to "Can't be empty"; on success exactly the record's keys, each filled from the defaults when nullish unless `ignoreDefaults` |
| `SchemaCheck.CheckParentHood` | src/data/SchemaCheckProvider.tsx:214-234 | the parent's lookup error comes before the child's; Ok iff both are known and the child is in `parents[parentTable]` (absent meaning empty) |
| `SchemaCheck.CheckSiblingHood` | src/data/SchemaCheckProvider.tsx:236-264 | lookup errors in order; a table is never its own sibling; otherwise Ok iff the two `peers` entries are the same object or both absent |
| `FamilyChecks.DeepCopy` | src/data/SchemaCheckProvider.tsx:319 | the copy keeps all data, gives every peer entry a `Copied` identity, distinct from every caller-allocated (`Caller`) identity and from every other entry |
| `FamilyChecks.MakeSchemaFamilyChecks` | src/data/SchemaCheckProvider.tsx:316-320 | the bundle is configured with a copy of the family's schemas, parents and peer tables |
| `FamilyChecks.SchemaFamilyChecks.VerifyTable` | src/data/SchemaCheckProvider.tsx:321-327 | `Ok(true)` iff the table is known |
| `FamilyChecks.SchemaFamilyChecks.Parents` | src/data/SchemaCheckProvider.tsx:328-331 | the declared list for the table, or the empty list; never fails |
| `FamilyChecks.SchemaFamilyChecks.PkField` | src/data/SchemaCheckProvider.tsx:332-337 | Ok iff the table is known, with its schema's `pk` name |
| `FamilyChecks.SchemaFamilyChecks.Pk` | src/data/SchemaCheckProvider.tsx:338-357 | Ok iff the table is known, its pk field is a key of `data`, and the value is a non-blank string; the result is that string |
| `FamilyChecks.SchemaFamilyChecks.Prop` | src/data/SchemaCheckProvider.tsx:358-365 | `getProp` on the copied family |
| `FamilyChecks.SchemaFamilyChecks.Props` | src/data/SchemaCheckProvider.tsx:367-374 | the fail-fast `getProps` outcome on the copied family |
| `FamilyChecks.SchemaFamilyChecks.CheckNew` | src/data/SchemaCheckProvider.tsx:375-379 | the lookup error for an unknown table, else `checkNew` with that table's schema |
| `FamilyChecks.SchemaFamilyChecks.CheckUpdate` | src/data/SchemaCheckProvider.tsx:381-389 | the lookup error for an unknown table, else the `checkUpdate` outcome with that table's schema |
| `FamilyChecks.SchemaFamilyChecks.CheckParentHood` | src/data/SchemaCheckProvider.tsx:391-392 | `checkParentHood` on the copied family |
| `FamilyChecks.SchemaFamilyChecks.CheckSiblingHood` | src/data/SchemaCheckProvider.tsx:394-395 | `checkSiblingHood` on the copied family |
| `FamilyChecks.DefaultBundleRejectsEverything` | src/data/SchemaCheckProvider.tsx:300-314 | the default bundle answers every check with the fixed "not configured" error, and `parents` with `[]` |
| `FamilyChecks.CopiedPeersNeverSiblings` | src/data/SchemaCheckProvider.tsx:316-395 | through the factory, two distinct known tables that both have peer entries are never siblings |
| `FamilyChecks.UnlistedTablesAreSiblings` | src/data/SchemaCheckProvider.tsx:394-395 | through the factory, two distinct known tables without peer entries are siblings |
| `FamilyChecks.CopyLosesSharedPeerGroup` | src/data/SchemaCheckProvider.tsx:255 | two tables sharing one peer array are siblings for a direct call but not through the factory's bundle |
| `SimpleForm.EmptyErrorsOver` | src/crud-ui/SimpleForm.tsx:63-69 | the `reduce` flags exactly the listed keys that are required and blank, each with "<key> is required" |
| `SimpleForm.GetEmptyError` | src/crud-ui/SimpleForm.tsx:59-70 | flags `key` iff it is a setup key that is required and whose `(input[key] ?? '').trim()` is empty; message "<key> is required" |
| `SimpleForm.EmptyErrorIgnoresUnlistedInput` | src/crud-ui/SimpleForm.tsx:63-65 | changing an input outside the setup never changes the errors |
| `SimpleForm.BlankInput` | src/crud-ui/SimpleForm.tsx:113-116 | every listed key, and only those, mapped to `''` |
| `SimpleForm.InitialInput` | src/crud-ui/SimpleForm.tsx:111-117 | `initialData` when given, else every setup key mapped to `''` |
| `SimpleForm.CombinedFieldErrors` | src/crud-ui/SimpleForm.tsx:139-141 | union of client and server errors, server messages winning on shared keys |
| `SimpleForm.HasFieldError` | src/crud-ui/SimpleForm.tsx:143-148 | true iff the combined errors are non-empty |
| `SimpleForm.Form.constructor` | src/crud-ui/SimpleForm.tsx:111-123 | initial input, no errors of either kind, nothing submitted |
| `SimpleForm.Form.OnUpdate` | src/crud-ui/SimpleForm.tsx:163-172 | exactly the named field changes; server errors cleared; client errors recomputed from the new input; invariant kept |
| `SimpleForm.Form.OnSubmit` | src/crud-ui/SimpleForm.tsx:150-161 | client errors recomputed and stored; the input is submitted iff there are none; invariant kept |
| `SimpleForm.Form.ReceiveMutationErrors` | src/crud-ui/SimpleForm.tsx:131-137 | the server's field errors replace `mutateFieldErrors`; nothing else changes |

## Left out

- React plumbing is not modelled: `SchemaCheckContext`, `useSchemaChecks`, `useSchemaProps`, `useSchemaPk` and the `SchemaCheckProvider` component. A bundle is passed explicitly instead. `useSchemaPk`'s second emptiness check repeats `pk`'s.
- The JSON round trip of the family is modelled only by its effect. All data is kept, and every `peers` entry gets a fresh identity. Datatypes are values, so later changes to the caller's family cannot reach the bundle.
- JavaScript's `in` also finds keys inherited from `Object.prototype` (for example `toString`). The model treats only own keys as present.
- Numbers are mathematical integers. Floating point, `NaN` and number-to-text conversion are not modelled; a number is never blank, as in the source.
- `ColumnType` and `Schema.types`, and the family's `children`, are carried as data only. No check reads them.
- `CallUnwrapErr` renders the value in its error message through a caller-supplied `show` function, which stands for JavaScript's template-literal conversion.
- Error objects keep only their message, plus the field map for `ColumnWritingError`. Names, stacks and `instanceof` are not modelled.
- SimpleForm: the `defaultProcessInput` / `onProcessInput` payload conversion is not modelled; `submitted` records the raw input. `useMutation`, `isPending`, the disabled button and all rendering are left out. The server's field errors arrive as a plain map through `ReceiveMutationErrors`.
- SimpleForm: React applies state updates asynchronously and may batch them. The model applies each handler's updates at once, in program order.
