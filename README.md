# querybuilder in Dafny

A model of `Query` (index.js), a fluent SQL statement assembler. One object
holds the statement text built so far (`_query`), the statement type
(`select`, `update`, `insert`, `delete`, `raw`, or unset) and six named
section buffers (`columns`, `escaped`, `values`, `where`, `orderBy`,
`limit`). Starters set the type and a template; contributors append to or
overwrite sections; `create` runs the placeholder fill, appends the
sections the statement type permits, validates required and forbidden
sections, and hands back the error, the bare SQL text, or the pair of SQL
text and bound values.

Files:

- `wrappers.dfy` — `Option`.
- `js_strings.dfy` — the JavaScript string built-ins the builder relies on:
  `join`, `indexOf`/`includes`, `replace` with a string pattern (including
  the `$` patterns of the replacement text), `trim`, `slice`.
- `js_values.dfy` — JavaScript values (`JsValue`) and `String(v)`, the
  conversion template literals and `+=` apply; integer-to-text with its
  round trip.
- `json.dfy` — `JSON.stringify` for those values.
- `query_spec.dfy` (module `QuerySpec`) — the value-level rules: statement
  types, section keys, the policy tables `_canHave`, `mustHave`,
  `cantHave`, the validation order, the fill and the append as functions,
  the text each contributor produces, and the lemmas about them.
- `query.dfy` (module `QueryBuilder`) — class `Query` with the fields
  `query`, `queryType`, `sections` and `table`, whose methods update them in
  place and are proved against the functions of `QuerySpec`; and four
  methods that build whole statements call by call.

Behaviour of index.js that the model keeps:

- `create` runs the placeholder fill before it appends the sections
  (index.js:27-36), so the sections a call appends are not filled by that
  same call; a later `create` fills them like any other text.
- `create` keeps its result in `_query`; a second call fills and appends
  again, so it is not idempotent (`SecondCreateAppendsAgain`).
- `create` returns the pair when `escaped` is non-empty, not when `values`
  is (index.js:44).
- The array branch of `whereInPivot` tests a string that is already quoted
  and never runs; a list value reaches the subquery as one quoted literal
  of its comma-joined text (`PivotListValue`). `table1` is unused, and the
  subquery spells the alias keyword `as` in lower case.
- `where` with a `null` or `undefined` value inlines the text `null`.
- `setValues` writes `VALUES (?, …)` only when the statement is already an
  insert; called before `insert()` it writes update-style assignments.
- The fill looks for each section name anywhere in the text, so a table
  name or raw text containing `where`, `limit`, etc. is rewritten too; the
  whole-statement methods `InsertRow` and `SelectColumns` therefore require
  that no section name occurs in the template.

## Model

| member | source | states |
|---|---|---|
| QuerySpec.CanHave | index.js:15-21 | the permitted sections of each type: none exactly for raw, in declared section order, never `values` |
| QuerySpec.MustHave | index.js:207-213 | the required sections of each type; each is either appended for that type or is the bound `values` |
| QuerySpec.CantHave | index.js:215-221 | the forbidden sections of each type; none of them is also required or appended for that type |
| QuerySpec.SectionExists | index.js:242-244 | a section exists when its length is non-zero; for a section held as text, exactly when the text is non-empty |
| QuerySpec.MissingWhereMessage | index.js:227 | the error for a missing where section reads `"where" missing in query.` |
| QuerySpec.Bound | index.js:103-108 | a plain object or array is bound as its JSON text, any other value unchanged (see BoundValuesFlat and InsertRow for what this gives the driver) |
| QuerySpec.BoundValues | index.js:103-108 | one bound value per property, in key order (see BoundValuesFlat and InsertRow) |
| QuerySpec.ParseValue | index.js:185-200 | null and undefined give null; an object or array gives its JSON text in single quotes; a number or the string `NULL` is returned unchanged; any other string is trimmed and double-quoted |
| QuerySpec.ParseMulti | index.js:202-204 | every value is parsed by `_parseValue`, in order, with the length kept |
| QuerySpec.ValidIff | index.js:206-244 | validation passes exactly when every required section is non-empty and every forbidden section is empty |
| QuerySpec.RequiredBeforeForbidden | index.js:223-237 | a missing required section is reported if and only if one exists: required sections are checked before forbidden ones |
| QuerySpec.ValidationRules | index.js:206-240 | per type: select fails on non-empty values; update and insert fail on empty values; delete fails on empty where, then on columns, then on values; raw never fails |
| QuerySpec.FilledConcat | index.js:250-259 | the fill over a run of keys is the fill over its first part followed by the fill over the rest |
| QuerySpec.FilledUntouched | index.js:250-259 | a text holding none of the section names is left unchanged by the fill |
| QuerySpec.FillSelect | index.js:250-259 | the fill puts the column text of a select exactly where the `columns` placeholder stands, after `SELECT` or `SELECT DISTINCT` |
| QuerySpec.AppendedOnlyReads | index.js:29-36 | the appended text depends only on the permitted sections: buffers agreeing on them append the same text |
| QuerySpec.RawAppendsNothing | index.js:15-36 | a raw statement appends no section |
| QuerySpec.SelectAppends | index.js:15-36 | a select appends where, orderBy and limit, in that order |
| QuerySpec.UpdateAppends | index.js:15-36 | an update appends escaped then where |
| QuerySpec.InsertAppends | index.js:15-36 | an insert appends columns (when non-empty), escaped, then where |
| QuerySpec.SelectColumnsText | index.js:24-56 | a fresh select with column text finalises to `SELECT<cols> FROM <table> ` and passes validation |
| QuerySpec.DistinctSelect | index.js:138-141 | `distinct` on the select template yields `SELECT DISTINCTcolumns FROM <table> ` |
| QuerySpec.SecondCreateAppendsAgain | index.js:24-36 | a second `create` on a text without section names appends the permitted sections again, so the text changes |
| QuerySpec.WhereTextShape | index.js:80-95 | conditions added to an empty where section give `WHERE c1 AND c2 … ` |
| QuerySpec.WhereTwo | index.js:80-95 | two conditions give `WHERE c1 AND c2 ` |
| QuerySpec.ExampleConditions | index.js:80-88 | `where('age', 18)` gives `age = 18`; `where('status', ' active ')` gives `status = "active"` |
| QuerySpec.PivotListValue | index.js:154-164 | a list value reaches the pivot subquery as one single-quoted comma-joined literal |
| QuerySpec.PlaceholderCount | index.js:102 | an insert's `VALUES (…)` holds exactly one `?` per value |
| QuerySpec.AssignmentRunJoin | index.js:261-272 | the loop's accumulated text is the comma-separated assignments plus one trailing separator |
| QuerySpec.UpdatePlaceholderCount | index.js:261-272 | the update assignments hold exactly one `?` per column, when no column name holds one |
| QuerySpec.BoundValuesFlat | index.js:103-108 | no bound value is an object or an array |
| QuerySpec.LimitClauseRoundTrip | index.js:143-145 | the limit section `LIMIT off, n` determines the offset and count it was made from |
| QuerySpec.PagesAdjacent | index.js:147-152 | page 1 starts at offset 0 and consecutive pages start one page length apart |
| QuerySpec.OnlyQualifies | index.js:119-122 | for a non-empty list, `only` gives a leading space and `table.c` for each column, comma-separated |
| QuerySpec.FilteredMembers | index.js:124-136 | an entry survives `except` exactly when it was present, is non-empty and includes none of the excluded names |
| QueryBuilder.Query.constructor | index.js:1-22 | empty text, no statement type, all six sections empty |
| QueryBuilder.Query.StartNewQuery | index.js:169-173 | the text becomes the template |
| QueryBuilder.Query.AddRawToQuery | index.js:175-179 | the fragment is appended to the text |
| QueryBuilder.Query.PermittedSections | index.js:246-248 | the permitted sections are empty exactly for raw, come in declared section order, and include every required section other than `values` |
| QueryBuilder.Query.DetectIfExistsWhere | index.js:181-183 | true exactly when the where section exists, and then the keyword is `AND`, else `WHERE` |
| QueryBuilder.Query.Select | index.js:52-56 | type select, columns from the aliased-fields capability, template `SELECTcolumns FROM <table> ` |
| QueryBuilder.Query.Update | index.js:57-60 | type update, template `UPDATE <table> SET ` |
| QueryBuilder.Query.Insert | index.js:62-65 | type insert, template `INSERT INTO <table> ` |
| QueryBuilder.Query.Delete | index.js:67-70 | type delete, template `DELETE FROM <table> ` |
| QueryBuilder.Query.Raw | index.js:72-75 | type raw, the caller's text as template |
| QueryBuilder.Query.Where | index.js:80-88 | one comparison appended with `WHERE` or `AND`, operator `=` by default, value inlined by `_parseValue`; nothing else changes |
| QueryBuilder.Query.WhereIn | index.js:90-95 | one `IN` test appended with the same keyword rule; nothing else changes |
| QueryBuilder.Query.SetValues | index.js:97-111 | columns, placeholders (insert or assignment form) and bound values all in key order; other sections unchanged |
| QueryBuilder.Query.OrderBy | index.js:113-117 | `ORDER BY c dir ` appended, direction `ASC` by default |
| QueryBuilder.Query.Only | index.js:119-122 | columns overwritten with the table-qualified list |
| QueryBuilder.Query.Except | index.js:124-136 | a list-valued columns section keeps, in order, exactly the entries passing the filter |
| QueryBuilder.Query.ExceptTest | index.js:126-134 | the filter callback keeps an entry iff it is non-empty and includes no excluded name |
| QueryBuilder.Query.Distinct | index.js:138-141 | the first `SELECT` of the text becomes `SELECT DISTINCT` |
| QueryBuilder.Query.Limit | index.js:143-145 | limit overwritten with `LIMIT off, n`, offset 0 by default |
| QueryBuilder.Query.Paginate | index.js:147-152 | equal to `limit(n, (p - 1) * n)` |
| QueryBuilder.Query.WhereInPivot | index.js:154-164 | `whereIn('id', subquery)` with the pivot subquery |
| QueryBuilder.Query.BuildUpdateValues | index.js:261-272 | `c1 = ?, c2 = ? `; a single space for no columns |
| QueryBuilder.Query.FillBlanks | index.js:250-259 | each section name, in key order, has its first occurrence replaced by the section's text |
| QueryBuilder.Query.CheckForErrors | index.js:206-240 | the first empty required section, else the first non-empty forbidden one, else none |
| QueryBuilder.Query.AppendSections | index.js:29-36 | the text grows by each non-empty section of the permitted list, in that order, and by nothing else |
| QueryBuilder.Query.Create | index.js:24-48 | text = fill of the old text + permitted non-empty sections in order; result is the error, the pair when escaped is non-empty, or the text |
| QueryBuilder.DeleteWithoutWhere | index.js:206-227 | a delete with no condition fails with the where section missing, with the message `"where" missing in query.` |
| QueryBuilder.SelectWithValues | index.js:206-236 | a select after `setValues` with a property fails with values forbidden |
| QueryBuilder.InsertRow | index.js:24-48 | insert plus `setValues` gives `INSERT INTO t (cols) VALUES (?, …) ` and bound values in column order |
| QueryBuilder.SelectColumns | index.js:24-56 | a select with column text gives `SELECT<cols> FROM <table> ` as a bare string |

## Left out

- The model object: only its table name is kept. `_model` is read only
  through `getAliasedFields()` (index.js:54), which becomes the
  `aliasedFields` parameter of `Select`. `_lastAdded` is written and never
  read, so it is not modelled.
- Numbers are integers; JavaScript's floating-point formatting (in
  template literals and `JSON.stringify`) is not modelled.
- QueryBuilder.Query.Where: a boolean value is excluded, because the
  source's `trim` throws a TypeError on it.
- QueryBuilder.Query.Create: requires a starter to have run, because with
  no statement type the source throws a TypeError at index.js:29.
- QueryBuilder.Query.Except: requires a list-valued columns section,
  because on text the source's `filter` throws a TypeError.
- `limit` and `except` return `undefined` (index.js:143-145, 124-136), so a
  chained call after either throws in the source; methods here are called
  one after the other and return nothing.
- Arguments that the source only interpolates into text (table, columns,
  operators, directions, `whereIn` lists) are strings; the coercion of
  other values in those positions is not modelled.
- Objects are plain objects with their properties in enumeration order;
  class instances, functions, symbols, dates and `toJSON` are not modelled,
  nor are cyclic structures.
