/** The per-clause compilers of the grammar (Elasticsearch/Query/Grammar/Grammar.php): each turns
    one where record into a request fragment. */
module Clauses {
  import opened Wrappers
  import opened Wire
  import opened Strings

  /** `whereOperatorsMapping`. */
  const WhereOperatorsMapping: map<string, string> := map[">" := "gt", ">=" := "gte", "<" := "lt", "<=" := "lte"]

  /** The operators `whereBasic` knows; `=`, `!=` and `<>` are the only ones it flags as filters. */
  const RangeOperators: set<string> := {">", ">=", "<", "<="}
  const FilterOperators: set<string> := {"=", "!=", "<>"}
  const BasicOperators: set<string> := RangeOperators + {"like"} + FilterOperators

  /** `removeTableFromColumn`: an unqualified column is kept; a qualified one must name the
      query's own table, and the piece of `explode('.', ...)` after the table is kept. */
  function RemoveTableFromColumn(from: Option<string>, column: string): (r: Result<string>)
    ensures '.' !in column ==> r == Ok(column)
    ensures '.' in column ==> (r.Ok? <==> from == Some(Before(column, '.')))
    ensures r.Ok? && '.' in column ==> r.value == Before(After(column, '.'), '.')
    ensures r.Err? ==> r.error == Unsupported("Join table search")
  {
    if '.' !in column then Ok(column)
    else
      var table := Before(column, '.');
      if Some(table) != from then Err(Unsupported("Join table search"))
      else Ok(Before(After(column, '.'), '.'))
  }

  /** `table.col` resolves to `col` exactly when `table` is the query's table. */
  lemma QualifiedColumn(from: Option<string>, table: string, col: string)
    requires '.' !in table && '.' !in col
    ensures RemoveTableFromColumn(from, table + "." + col) ==
      if from == Some(table) then Ok(col) else Err(Unsupported("Join table search"))
  {
    var s := table + "." + col;
    assert s == table + ['.'] + col;
    assert s[|table|] == '.';
    SplitAtFirst(table, '.', col);
    assert Before(col, '.') == col by {
      BeforeWithout(col, '.');
    }
  }

  lemma {:induction false} BeforeWithout(s: string, c: char)
    requires c !in s
    ensures Before(s, c) == s
  {
    if |s| > 0 {
      assert c !in s[1..] by {
        forall i | 0 <= i < |s[1..]| ensures s[1..][i] != c { assert s[1..][i] == s[i + 1]; }
      }
      BeforeWithout(s[1..], c);
      assert s == [s[0]] + s[1..];
    }
  }

  function Term(column: string, value: Json): Json {
    Obj1("term", Obj1(column, value))
  }

  /** `whereBasic`: the fragment and the filter flag. The column is resolved first; then
      `=` gives a term, `!=`/`<>` a negated term, both flagged as filters; a range operator gives
      a range and `like` a fuzzy match, both NOT flagged (the flag starts false and only the
      equality cases set it); any other operator is refused. */
  function WhereBasic(from: Option<string>, column: string, operator: string, value: Json): (r: Result<(Json, bool)>)
    ensures RemoveTableFromColumn(from, column).Err? ==> r == Err(RemoveTableFromColumn(from, column).error)
    ensures RemoveTableFromColumn(from, column).Ok? ==>
      var col := RemoveTableFromColumn(from, column).value;
      && (r.Ok? <==> operator in BasicOperators)
      && (r.Err? ==> r.error == Unsupported("where operator " + operator))
      && (r.Ok? ==> (r.value.1 <==> operator in FilterOperators))
      && (operator == "=" ==> r.value.0 == Term(col, value))
      && (operator in {"!=", "<>"} ==> r.value.0 == Obj1("not", Term(col, value)))
      && (operator in RangeOperators ==>
            r.value.0 == Obj1("range", Obj1(col, Obj1(WhereOperatorsMapping[operator], value))))
      && (operator == "like" ==>
            r.value.0 == Obj1("match", Obj1(col, JObj(map["query" := value, "fuzziness" := JStr("AUTO"), "operator" := JStr("and")]))))
  {
    var col :- RemoveTableFromColumn(from, column);
    if operator in RangeOperators then
      Ok((Obj1("range", Obj1(col, Obj1(WhereOperatorsMapping[operator], value))), false))
    else if operator == "like" then
      Ok((Obj1("match", Obj1(col, JObj(map["query" := value, "fuzziness" := JStr("AUTO"), "operator" := JStr("and")]))), false))
    else if operator == "=" then
      Ok((Term(col, value), true))
    else if operator == "<>" || operator == "!=" then
      Ok((Obj1("not", Term(col, value)), true))
    else
      Err(Unsupported("where operator " + operator))
  }

  /** `whereIn`: an empty value list gives `false` (here `None`) before the column is looked at;
      otherwise a terms fragment on the resolved column. */
  function WhereIn(from: Option<string>, column: string, values: seq<Json>): (r: Result<Option<Json>>)
    ensures |values| == 0 ==> r == Ok(None)
    ensures |values| > 0 ==> (r.Ok? <==> RemoveTableFromColumn(from, column).Ok?)
    ensures |values| > 0 && r.Ok? ==>
      r.value == Some(Obj1("terms", Obj1(RemoveTableFromColumn(from, column).value, JList(values))))
    ensures r.Err? ==> r.error == Unsupported("Join table search")
  {
    if |values| == 0 then Ok(None)
    else
      var col :- RemoveTableFromColumn(from, column);
      Ok(Some(Obj1("terms", Obj1(col, JList(values)))))
  }

  /** `whereNotIn`: `['not' => whereIn(...)]`, which is a fragment even when `whereIn` gave
      `false`: an empty not-in list yields `{not: false}` and is kept. */
  function WhereNotIn(from: Option<string>, column: string, values: seq<Json>): (r: Result<Json>)
    ensures r.Ok? <==> WhereIn(from, column, values).Ok?
    ensures |values| == 0 ==> r == Ok(Obj1("not", JBool(false)))
    ensures |values| > 0 && r.Ok? ==> r.value == Obj1("not", WhereIn(from, column, values).value.value)
  {
    var inner :- WhereIn(from, column, values);
    Ok(Obj1("not", match inner case None => JBool(false) case Some(j) => j))
  }

  /** `whereNull`: an `exists` test on the column as given (no table stripping). */
  function WhereNull(column: string): (r: Json)
    ensures r.JObj? && r.fields.Keys == {"exists"}
    ensures Get(r, "exists") == Obj1("field", JStr(column))
  {
    Obj1("exists", Obj1("field", JStr(column)))
  }

  /** `whereNotNull`: a `missing` test on the column as given. */
  function WhereNotNull(column: string): (r: Json)
    ensures r.JObj? && r.fields.Keys == {"missing"}
    ensures Get(r, "missing") == Obj1("field", JStr(column))
  {
    Obj1("missing", Obj1("field", JStr(column)))
  }

  /** `whereMultiMatch`: the record's `operator` field names the key under which `op_param` is
      sent; the literal's later keys overwrite earlier ones. */
  function WhereMultiMatch(columns: seq<string>, operator: string, opParam: string, value: Json): (r: Json)
    ensures operator !in {"query", "fields"} ==>
      r == Obj1("multi_match", JObj(map["query" := value, operator := JStr(opParam), "fields" := JList(seq(|columns|, i requires 0 <= i < |columns| => JStr(columns[i])))]))
  {
    var fields := JList(seq(|columns|, i requires 0 <= i < |columns| => JStr(columns[i])));
    Obj1("multi_match", JObj(map["query" := value][operator := JStr(opParam)]["fields" := fields]))
  }
}
