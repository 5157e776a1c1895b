/**
 * The statement builder of index.js as a stateful object: the current query
 * text, the statement type and the section buffer are fields that the
 * starters, the contributors and `create` update in place. Each method is
 * specified by the value-level functions of QuerySpec.
 *
 * The fluent `return this` of the source is modelled by calling the methods
 * one after the other on the same object.
 */
module QueryBuilder {
  import opened Wrappers
  import opened JsStrings
  import opened JsValues
  import opened QuerySpec

  class Query {
    /** `_query`: the statement text built so far. */
    var query: string
    /** `_queryType`. */
    var queryType: QueryType
    /** `sections`. */
    var sections: Sections
    /** `_table`, read from the model at construction. */
    const table: string

    /** `new Query(model)`, with the model reduced to its table name. */
    constructor (table: string)
      ensures query == "" && queryType == Unset && sections == NoSections && this.table == table
    {
      query := "";
      queryType := Unset;
      sections := NoSections;
      this.table := table;
    }

    // -------------------------------------------------------------------------
    // Helpers
    // -------------------------------------------------------------------------

    /** `_startNewQuery`: the query text becomes `str`. */
    method StartNewQuery(str: string)
      modifies this`query
      ensures query == str
    {
      query := str;
    }

    /** `addRawToQuery`: `str` is appended to the query text. */
    method AddRawToQuery(str: string)
      modifies this`query
      ensures query == old(query) + str
    {
      query := query + str;
    }

    /** `_permittedSections`: the `_canHave` entry of the current statement type. */
    function PermittedSections(): (r: seq<SectionKey>)
      reads this
      requires queryType != Unset
      ensures queryType == QueryType.Raw <==> r == []
      ensures forall i, j :: 0 <= i < j < |r| ==> Position(r[i]) < Position(r[j])
      ensures forall k :: k in MustHave(queryType) ==> k in r || k == ValuesKey
    {
      CanHave(queryType)
    }

    /** `_detectIfExists("WHERE")`: whether the where section already holds a condition. */
    predicate DetectIfExistsWhere()
      reads this
      ensures DetectIfExistsWhere() <==> SectionExists(sections, WhereKey)
      ensures Keyword(sections.where) == if DetectIfExistsWhere() then "AND" else "WHERE"
    {
      sections.where != ""
    }

    // -------------------------------------------------------------------------
    // Starters
    // -------------------------------------------------------------------------

    /**
     * `select`: the columns section receives what the schema's
     * aliased-fields capability returns, `aliasedFields` here, and the
     * template runs `SELECT` into the `columns` placeholder.
     */
    method Select(aliasedFields: Columns)
      modifies this`queryType, this`sections, this`query
      ensures queryType == QueryType.Select
      ensures sections == old(sections).(columns := aliasedFields)
      ensures query == SelectTemplate(table)
    {
      queryType := QueryType.Select;
      sections := sections.(columns := aliasedFields);
      StartNewQuery(SelectTemplate(table));
    }

    /** `update`. */
    method Update()
      modifies this`queryType, this`query
      ensures queryType == QueryType.Update && query == UpdateTemplate(table)
    {
      queryType := QueryType.Update;
      StartNewQuery(UpdateTemplate(table));
    }

    /** `insert`. */
    method Insert()
      modifies this`queryType, this`query
      ensures queryType == QueryType.Insert && query == InsertTemplate(table)
    {
      queryType := QueryType.Insert;
      StartNewQuery(InsertTemplate(table));
    }

    /** `delete`. */
    method Delete()
      modifies this`queryType, this`query
      ensures queryType == QueryType.Delete && query == DeleteTemplate(table)
    {
      queryType := QueryType.Delete;
      StartNewQuery(DeleteTemplate(table));
    }

    /** `raw`: the caller's text is the template, verbatim. */
    method Raw(text: string)
      modifies this`queryType, this`query
      ensures queryType == QueryType.Raw && query == text
    {
      queryType := QueryType.Raw;
      StartNewQuery(text);
    }

    // -------------------------------------------------------------------------
    // Contributors
    // -------------------------------------------------------------------------

    /**
     * `where(row, value)` when `op` is None, `where(row, op, value)`
     * otherwise: one comparison is added to the where section, introduced by
     * `WHERE` on an empty section and by `AND` after that. A boolean value
     * makes the source's `trim` throw, so it is excluded.
     */
    method Where(row: string, op: Option<string>, value: JsValue)
      requires !value.Bool?
      modifies this`sections
      ensures sections == old(sections).(where := AddCondition(old(sections.where), Comparison(row, op.GetOr("="), value)))
    {
      var keyWord := if DetectIfExistsWhere() then "AND" else "WHERE";
      var modifier := op.GetOr("=");
      sections := sections.(where := sections.where + keyWord + " " + (row + " " + modifier + " " + ToJsString(ParseValue(value))) + " ");
    }

    /** `whereIn(row, list)`: one membership test is added, with the same keyword rule as `where`. */
    method WhereIn(row: string, list: string)
      modifies this`sections
      ensures sections == old(sections).(where := AddCondition(old(sections.where), Membership(row, list)))
    {
      var keyWord := if DetectIfExistsWhere() then "AND" else "WHERE";
      sections := sections.(where := sections.where + keyWord + " " + (row + " IN " + list) + " ");
    }

    /**
     * `setValues(data)`, with `data` given as its properties in enumeration
     * order: the column list, the placeholders (a `VALUES` list when the
     * statement is already an insert, assignments otherwise) and the bound
     * values, all in key order.
     */
    method SetValues(data: seq<(string, JsValue)>)
      modifies this`sections
      ensures sections == old(sections).(
                columns := ColumnText(ColumnsSection(Keys(data))),
                escaped := if queryType == QueryType.Insert then Placeholders(|data|) else UpdateAssignments(Keys(data)),
                values := BoundValues(data))
    {
      var columns := Keys(data);
      var escaped: string;
      if queryType == QueryType.Insert {
        escaped := Placeholders(|data|);
      } else {
        escaped := BuildUpdateValues(columns);
      }
      sections := sections.(columns := ColumnText(ColumnsSection(columns)), escaped := escaped, values := BoundValues(data));
    }

    /** `orderBy(column, direction)`; the direction defaults to `ASC`, and repeated calls accumulate. */
    method OrderBy(column: string, direction: Option<string>)
      modifies this`sections
      ensures sections == old(sections).(orderBy := old(sections.orderBy) + OrderClause(column, direction.GetOr("ASC")))
    {
      sections := sections.(orderBy := sections.orderBy + "ORDER BY " + column + " " + direction.GetOr("ASC") + " ");
    }

    /** `only(columns)`: the columns section is overwritten with the table-qualified list. */
    method Only(columns: seq<string>)
      modifies this`sections
      ensures sections == old(sections).(columns := ColumnText(OnlyColumns(table, columns)))
    {
      sections := sections.(columns := ColumnText(" " + table + "." + Join(columns, ", " + table + ".")));
    }

    /**
     * `except(columns)`: the entries of a list-valued columns section that
     * mention none of the excluded names (and are non-empty) are kept, in
     * order. On a text-valued section the source's `filter` throws, so the
     * section is required to be a list.
     */
    method Except(excluded: seq<string>)
      requires sections.columns.ColumnList?
      modifies this`sections
      ensures sections == old(sections).(columns := ColumnList(Filtered(old(sections.columns.items), excluded)))
    {
      var items := sections.columns.items;
      var kept: seq<string> := [];
      var i := 0;
      while i < |items|
        invariant 0 <= i <= |items|
        invariant kept == Filtered(items[..i], excluded)
        invariant sections == old(sections)
      {
        var keep := ExceptTest(items[i], excluded);
        if keep {
          kept := kept + [items[i]];
        }
        assert items[..i + 1][..i] == items[..i];
        i := i + 1;
      }
      assert items[..|items|] == items;
      sections := sections.(columns := ColumnList(kept));
    }

    /**
     * The callback `except` passes to `filter`: false as soon as the entry
     * includes an excluded name, otherwise the entry itself, which is falsy
     * when empty.
     */
    method ExceptTest(entry: string, excluded: seq<string>) returns (keep: bool)
      ensures keep <==> entry != "" && forall j :: 0 <= j < |excluded| ==> !Includes(entry, excluded[j])
    {
      for i := 0 to |excluded|
        invariant forall j :: 0 <= j < i ==> !Includes(entry, excluded[j])
      {
        if Includes(entry, excluded[i]) {
          return false;
        }
      }
      return entry != "";
    }

    /** `distinct`: the first `SELECT` in the query text becomes `SELECT DISTINCT`. */
    method Distinct()
      modifies this`query
      ensures query == ReplaceFirst(old(query), "SELECT", "SELECT DISTINCT")
    {
      query := ReplaceFirst(query, "SELECT", "SELECT DISTINCT");
    }

    /** `limit(count, offset)`: the limit section is overwritten; the offset defaults to 0. */
    method Limit(count: int, offset: Option<int>)
      modifies this`sections
      ensures sections == old(sections).(limit := LimitClause(count, offset.GetOr(0)))
    {
      sections := sections.(limit := "LIMIT " + IntToString(offset.GetOr(0)) + ", " + IntToString(count));
    }

    /** `paginate(page, pageLength)`: `limit(pageLength, (page - 1) * pageLength)`. */
    method Paginate(page: int, pageLength: int)
      modifies this`sections
      ensures sections == old(sections).(limit := LimitClause(pageLength, PageOffset(page, pageLength)))
    {
      var queryLimit := (page - 1) * pageLength;
      Limit(pageLength, Some(queryLimit));
    }

    /** `whereInPivot(args)`: `whereIn('id', …)` with the pivot subquery. */
    method WhereInPivot(args: PivotArgs)
      modifies this`sections
      ensures sections == old(sections).(where := AddCondition(old(sections.where), Membership("id", PivotSubquery(args))))
    {
      WhereIn("id", PivotSubquery(args));
    }

    // -------------------------------------------------------------------------
    // Finalisation
    // -------------------------------------------------------------------------

    /**
     * `_buildUpdateValues(columns)`: `c = ?, ` for each column, then the
     * last two characters are sliced off and one space appended.
     */
    method BuildUpdateValues(columns: seq<string>) returns (str: string)
      ensures |columns| == 0 ==> str == " "
      ensures |columns| > 0 ==> str == Join(Assignments(columns), ", ") + " "
    {
      str := "";
      var i := 0;
      while i < |columns|
        invariant 0 <= i <= |columns|
        invariant str == AssignmentRun(columns[..i])
      {
        str := str + columns[i] + " = ?, ";
        assert columns[..i + 1][..i] == columns[..i];
        i := i + 1;
      }
      assert columns[..|columns|] == columns;
      if |columns| > 0 {
        AssignmentRunJoin(columns);
      }
      str := Slice(str, 0, |str| - 2) + " ";
    }

    /**
     * `_fillBlanks`: for each section name in key order, the first
     * occurrence of the name in the query text is replaced by that section's
     * text.
     */
    method FillBlanks()
      modifies this`query
      ensures query == Filled(old(query), sections, AllKeys)
    {
      var keys := AllKeys;
      var i := 0;
      while i < |keys|
        invariant 0 <= i <= |keys|
        invariant query == Filled(old(query), sections, keys[..i])
      {
        var section := Name(keys[i]);
        if Includes(query, section) {
          query := ReplaceFirst(query, section, SectionText(sections, keys[i]));
        }
        assert keys[..i + 1][..i] == keys[..i];
        i := i + 1;
      }
      assert keys[..|keys|] == keys;
    }

    /**
     * `_checkForErrors`: the first required section that is empty, failing
     * that the first forbidden section that is not, is reported; None when
     * the statement is valid.
     */
    method CheckForErrors() returns (e: Option<QueryError>)
      requires queryType != Unset
      ensures e.Some? ==> (e.value.Missing? && e.value.section in MustHave(queryType) && !SectionExists(sections, e.value.section))
                          || (e.value.Forbidden? && e.value.section in CantHave(queryType) && SectionExists(sections, e.value.section))
      ensures e == FirstError(queryType, sections)
    {
      var mustHave := MustHave(queryType);
      for i := 0 to |mustHave|
        invariant FirstMissing(sections, mustHave, 0) == FirstMissing(sections, mustHave, i)
      {
        if !SectionExists(sections, mustHave[i]) {
          return Some(Missing(mustHave[i]));
        }
      }
      var cantHave := CantHave(queryType);
      for i := 0 to |cantHave|
        invariant FirstPresent(sections, cantHave, 0) == FirstPresent(sections, cantHave, i)
      {
        if SectionExists(sections, cantHave[i]) {
          return Some(Forbidden(cantHave[i]));
        }
      }
      return None;
    }

    /** The append loop of `create`: each non-empty section of `keys`, in order, is added to the text. */
    method AppendSections(keys: seq<SectionKey>)
      modifies this`query
      ensures query == old(query) + Appended(sections, keys)
    {
      for i := 0 to |keys|
        invariant query == old(query) + Appended(sections, keys[..i])
      {
        var section := SectionText(sections, keys[i]);
        if SectionLength(sections, keys[i]) > 0 {
          AddRawToQuery(section);
        }
        assert keys[..i + 1][..i] == keys[..i];
      }
      assert keys[..|keys|] == keys;
    }

    /**
     * `create`: the placeholder fill, then the permitted non-empty sections
     * appended in their listed order, then validation. The query text keeps
     * what was built, so a second call fills and appends again. The result
     * is the error, the text with the bound values when the escaped section
     * is non-empty, or the text alone. Calling it before any starter makes
     * the source throw a TypeError, so a starter is required.
     */
    method Create() returns (r: Created)
      requires queryType != Unset
      modifies this`query
      ensures query == Filled(old(query), sections, AllKeys) + Appended(sections, CanHave(queryType))
      ensures r == Outcome(queryType, sections, query)
    {
      var permitted := PermittedSections();
      FillBlanks();
      AppendSections(permitted);
      var error := CheckForErrors();
      if error.Some? {
        return Failure(error.value);
      }
      if sections.escaped != "" {
        return WithValues(query, sections.values);
      }
      return Statement(query);
    }
  }

  // ---------------------------------------------------------------------------
  // Whole statements, built call by call
  // ---------------------------------------------------------------------------

  /** `delete()` and `create()` with no condition: the where section is reported missing. */
  method DeleteWithoutWhere(table: string) returns (r: Created)
    ensures r == Failure(Missing(WhereKey))
    ensures Message(r.error) == "\"where\" missing in query."
  {
    var q := new Query(table);
    q.Delete();
    r := q.Create();
    assert r == Failure(Missing(WhereKey)) by { ValidationRules(q.sections); }
    MissingWhereMessage();
  }

  /** `select()`, `setValues(data)` with at least one property, then `create()`: the values section is forbidden. */
  method SelectWithValues(table: string, aliasedFields: Columns, data: seq<(string, JsValue)>) returns (r: Created)
    requires |data| > 0
    ensures r == Failure(Forbidden(ValuesKey))
  {
    var q := new Query(table);
    q.Select(aliasedFields);
    q.SetValues(data);
    r := q.Create();
    ValidationRules(q.sections);
  }

  /**
   * `insert()`, `setValues(data)`, `create()`, for a table whose name holds
   * no section name: the statement lists the columns and one `?` per column,
   * and the bound values come in the same key order.
   */
  method InsertRow(table: string, data: seq<(string, JsValue)>) returns (r: Created)
    requires |data| > 0
    requires forall k :: k in AllKeys ==> !Includes(InsertTemplate(table), Name(k))
    ensures r.WithValues?
    ensures r.sql == InsertTemplate(table) + ColumnsSection(Keys(data)) + Placeholders(|data|)
    ensures |r.values| == |Keys(data)| == |data|
    ensures forall i :: 0 <= i < |data| ==> Keys(data)[i] == data[i].0 && r.values[i] == Bound(data[i].1)
  {
    var q := new Query(table);
    q.Insert();
    q.SetValues(data);
    assert ColumnsSection(Keys(data))[0] == '(' && Placeholders(|data|)[0] == 'V';
    InsertText(table, q.sections);
    r := q.Create();
  }

  /**
   * `select()` with column text `cols`, then `create()`: the columns take
   * the place of their placeholder and, with no other section set, nothing
   * is appended.
   */
  method SelectColumns(table: string, cols: string) returns (r: Created)
    requires '$' !in cols
    requires forall k :: k in AllKeys[1..] ==> !Includes("SELECT" + (cols + SelectTail(table)), Name(k))
    ensures r == Statement("SELECT" + cols + " FROM " + table + " ")
  {
    var q := new Query(table);
    q.Select(ColumnText(cols));
    SelectColumnsText(table, q.sections);
    r := q.Create();
  }
}
