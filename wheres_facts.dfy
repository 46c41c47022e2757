/** What `compileWheres` (Elasticsearch/Query/Grammar/Grammar.php:104-202) guarantees: where each
    kind of clause is routed, when a failure stops the compile, and the shape of the filter
    groups. */
module WheresFacts {
  import opened Wrappers
  import opened Wire
  import opened Strings
  import opened Builder
  import opened Clauses
  import opened Wheres

  /** The lower-cased record types that the switch sends to the current filter group. */
  const FilterTypes: set<string> := {"in", "null", "notin", "notnull", "raw"}

  /** `Lower(s) == t` checked one character at a time. */
  lemma LowerEq(s: string, t: string)
    requires |s| == |t|
    requires forall i :: 0 <= i < |s| ==> LowerChar(s[i]) == t[i]
    ensures Lower(s) == t
  {
  }

  lemma LowerBasic()
    ensures Lower("Basic") == "basic" && '_' !in "basic"
  {
    assert Lower("Basic")[0] == 'b';
  }

  lemma LowerMultiMatch()
    ensures Lower("MultiMatch") == "multimatch" && '_' !in "multimatch"
  {
    LowerEq("MultiMatch", "multimatch");
  }

  lemma LowerIn()
    ensures Lower("In") == "in" && '_' !in "in"
  {
    assert Lower("In")[0] == 'i';
  }

  lemma LowerNotIn()
    ensures Lower("NotIn") == "notin" && '_' !in "notin"
  {
    assert Lower("NotIn")[0] == 'n' && Lower("NotIn")[3] == 'i';
  }

  lemma LowerNull()
    ensures Lower("Null") == "null" && '_' !in "null"
  {
    assert Lower("Null")[0] == 'n';
  }

  lemma LowerNotNull()
    ensures Lower("NotNull") == "notnull" && '_' !in "notnull"
  {
    assert Lower("NotNull")[0] == 'n' && Lower("NotNull")[3] == 'n';
  }

  lemma LowerNested()
    ensures Lower("Nested") == "nested" && '_' !in "nested"
  {
    assert Lower("Nested")[0] == 'n';
  }

  lemma MultiMatchMethodName()
    ensures "where" + "MultiMatch" == "whereMultiMatch"
  {
  }

  /** The lower-cased `type` of a record. */
  function LowerType(w: Where): (t: string)
    ensures t == Lower(w.TypeName())
    ensures !w.Other? ==> '_' !in t
  {
    match w
    case Basic(_, _, _, _) => LowerBasic(); "basic"
    case MultiMatch(_, _, _, _, _) => LowerMultiMatch(); "multimatch"
    case In(_, _, _) => LowerIn(); "in"
    case NotIn(_, _, _) => LowerNotIn(); "notin"
    case Null(_, _) => LowerNull(); "null"
    case NotNull(_, _) => LowerNotNull(); "notnull"
    case Nested(_, _, _) => LowerNested(); "nested"
    case Other(t, _) => Lower(t)
  }

  /** The switch key is the lower-cased boolean, `_`, and the lower-cased type. */
  lemma SwitchKeyParts(w: Where)
    ensures SwitchKey(w) == Lower(w.boolean) + "_" + LowerType(w)
  {
    LowerConcat(w.boolean + "_", w.TypeName());
    LowerConcat(w.boolean, "_");
    assert Lower("_") == "_";
  }

  /** The cases of the switch a key `x_t` hits, for a type `t` without underscore. */
  lemma KeyFacts(x: string, t: string)
    requires '_' !in t
    ensures (x + "_" + t == "and_basic") == (x == "and" && t == "basic")
    ensures (x + "_" + t == "or_basic") == (x == "or" && t == "basic")
    ensures (x + "_" + t == "and_multimatch") == (x == "and" && t == "multimatch")
    ensures (x + "_" + t in FilterCaseKeys) == ((x == "and" || x == "or") && t in FilterTypes)
  {
    ScoringKeys(x, t);
    GroupKeys(x, t);
  }

  lemma ScoringKeys(x: string, t: string)
    requires '_' !in t
    ensures (x + "_" + t == "and_basic") == (x == "and" && t == "basic")
    ensures (x + "_" + t == "or_basic") == (x == "or" && t == "basic")
    ensures (x + "_" + t == "and_multimatch") == (x == "and" && t == "multimatch")
  {
    var k := x + "_" + t;
    if k == "and_basic" { SeparatorSplit(x, t, "and", "basic"); }
    if k == "or_basic" { SeparatorSplit(x, t, "or", "basic"); }
    if k == "and_multimatch" { SeparatorSplit(x, t, "and", "multimatch"); }
  }

  lemma GroupKeys(x: string, t: string)
    requires '_' !in t
    ensures (x + "_" + t in FilterCaseKeys) == ((x == "and" || x == "or") && t in FilterTypes)
  {
    GroupKeysSplit(x, t);
    GroupKeysJoin(x, t);
  }

  lemma GroupKeysSplit(x: string, t: string)
    requires '_' !in t
    ensures x + "_" + t in FilterCaseKeys ==> (x == "and" || x == "or") && t in FilterTypes
  {
    var k := x + "_" + t;
    if k in FilterCaseKeys {
      if k == "and_in" { SeparatorSplit(x, t, "and", "in"); }
      else if k == "and_null" { SeparatorSplit(x, t, "and", "null"); }
      else if k == "or_in" { SeparatorSplit(x, t, "or", "in"); }
      else if k == "or_null" { SeparatorSplit(x, t, "or", "null"); }
      else if k == "and_notin" { SeparatorSplit(x, t, "and", "notin"); }
      else if k == "and_notnull" { SeparatorSplit(x, t, "and", "notnull"); }
      else if k == "or_notin" { SeparatorSplit(x, t, "or", "notin"); }
      else if k == "or_notnull" { SeparatorSplit(x, t, "or", "notnull"); }
      else if k == "and_raw" { SeparatorSplit(x, t, "and", "raw"); }
      else { SeparatorSplit(x, t, "or", "raw"); }
    }
  }

  lemma GroupKeysJoin(x: string, t: string)
    ensures (x == "and" || x == "or") && t in FilterTypes ==> x + "_" + t in FilterCaseKeys
  {
    var k := x + "_" + t;
    if (x == "and" || x == "or") && t in FilterTypes {
      if t == "in" {
        if x == "and" { assert k == "and_in"; } else { assert k == "or_in"; }
      } else if t == "null" {
        if x == "and" { assert k == "and_null"; } else { assert k == "or_null"; }
      } else if t == "notin" {
        if x == "and" { assert k == "and_notin"; } else { assert k == "or_notin"; }
      } else if t == "notnull" {
        if x == "and" { assert k == "and_notnull"; } else { assert k == "or_notnull"; }
      } else if t == "raw" {
        if x == "and" { assert k == "and_raw"; } else { assert k == "or_raw"; }
      }
    }
  }

  /** The switch on a basic clause's fragment: a filter-class fragment joins the current group,
      opening a new one only for the exact boolean `or`; a scoring fragment goes to `must` for
      `and` and to `should` for `or` (booleans compared lower-cased); any other boolean fails in
      the switch's default. */
  lemma SwitchBasic(w: Where, j: Json, isFilter: bool)
    requires w.Basic?
    ensures Switch(w, Fragment(j), isFilter) ==
      if Lower(w.boolean) == "and" then Ok(if isFilter then Filter(j, false) else Must(j))
      else if Lower(w.boolean) == "or" then Ok(if isFilter then Filter(j, w.boolean == "or") else Should(j))
      else Err(Unsupported("whereBasic"))
  {
    SwitchKeyParts(w);
    KeyFacts(Lower(w.boolean), "basic");
    if w.boolean == "or" {
      assert Lower(w.boolean) == "or";
    }
  }

  /** The switch on a multi-match fragment: `must` for `and`, the default's failure otherwise
      (`or` included). */
  lemma SwitchMultiMatch(w: Where, j: Json, isFilter: bool)
    requires w.MultiMatch?
    ensures Switch(w, Fragment(j), isFilter) ==
      if Lower(w.boolean) == "and" then Ok(Must(j)) else Err(Unsupported("whereMultiMatch"))
  {
    SwitchKeyParts(w);
    KeyFacts(Lower(w.boolean), "multimatch");
    MultiMatchMethodName();
  }

  /** The group of a filter-type fragment `j` for a record with the given boolean and type. */
  function GroupRoute(boolean: string, typeName: string, j: Json): Result<Placement> {
    if Lower(boolean) == "and" || Lower(boolean) == "or" then Ok(Filter(j, boolean == "or"))
    else Err(Unsupported("where" + typeName))
  }

  /** The switch on an in, not-in, null or not-null fragment: the current group, for `and` and
      `or`, whatever the filter flag. */
  lemma SwitchGroup(w: Where, j: Json)
    requires w.In? || w.NotIn? || w.Null? || w.NotNull?
    ensures Switch(w, Fragment(j), true) == GroupRoute(w.boolean, w.TypeName(), j)
  {
    SwitchKeyParts(w);
    KeyFacts(Lower(w.boolean), LowerType(w));
  }

  /** A basic clause is routed by its operator's fragment and flag (range and `like` scoring,
      equality filtering), unless the column or the operator is refused. */
  lemma BasicRoute(from: Option<string>, column: string, operator: string, value: Json, boolean: string)
    ensures
      var c := WhereBasic(from, column, operator, value);
      Route(from, Basic(column, operator, value, boolean)) ==
        if c.Err? then Err(c.error)
        else if Lower(boolean) == "and" then Ok(if c.value.1 then Filter(c.value.0, false) else Must(c.value.0))
        else if Lower(boolean) == "or" then Ok(if c.value.1 then Filter(c.value.0, boolean == "or") else Should(c.value.0))
        else Err(Unsupported("whereBasic"))
  {
    var c := WhereBasic(from, column, operator, value);
    if c.Ok? {
      SwitchBasic(Basic(column, operator, value, boolean), c.value.0, c.value.1);
    }
  }

  /** A multi-match clause is flagged filter-class (its type `MultiMatch` never equals
      `multimatch`), yet an `and` one goes to `must`; with any other boolean the compile fails. */
  lemma MultiMatchRoute(from: Option<string>, columns: seq<string>, operator: string, opParam: string, value: Json, boolean: string)
    ensures ClauseExpr(from, MultiMatch(columns, operator, opParam, value, boolean)).value.1
    ensures Route(from, MultiMatch(columns, operator, opParam, value, boolean)) ==
      if Lower(boolean) == "and" then Ok(Must(WhereMultiMatch(columns, operator, opParam, value)))
      else Err(Unsupported("whereMultiMatch"))
  {
    var w := MultiMatch(columns, operator, opParam, value, boolean);
    SwitchMultiMatch(w, WhereMultiMatch(columns, operator, opParam, value), true);
  }

  /** An in clause with no values is dropped whatever its boolean and column; otherwise its
      terms fragment joins the current group. */
  lemma InRoute(from: Option<string>, column: string, values: seq<Json>, boolean: string)
    ensures
      var col := RemoveTableFromColumn(from, column);
      Route(from, In(column, values, boolean)) ==
        if |values| == 0 then Ok(Skip)
        else if col.Err? then Err(col.error)
        else GroupRoute(boolean, "In", Obj1("terms", Obj1(col.value, JList(values))))
  {
    var col := RemoveTableFromColumn(from, column);
    if |values| > 0 && col.Ok? {
      SwitchGroup(In(column, values, boolean), Obj1("terms", Obj1(col.value, JList(values))));
    }
  }

  /** A not-in clause always yields a fragment: with no values it is `{not: false}`, and it is
      kept in the current group. */
  lemma NotInRoute(from: Option<string>, column: string, values: seq<Json>, boolean: string)
    ensures
      var col := RemoveTableFromColumn(from, column);
      Route(from, NotIn(column, values, boolean)) ==
        if |values| == 0 then GroupRoute(boolean, "NotIn", Obj1("not", JBool(false)))
        else if col.Err? then Err(col.error)
        else GroupRoute(boolean, "NotIn", Obj1("not", Obj1("terms", Obj1(col.value, JList(values)))))
  {
    var col := RemoveTableFromColumn(from, column);
    var w := NotIn(column, values, boolean);
    if |values| == 0 {
      SwitchGroup(w, Obj1("not", JBool(false)));
    } else if col.Ok? {
      SwitchGroup(w, Obj1("not", Obj1("terms", Obj1(col.value, JList(values)))));
    }
  }

  /** Null and not-null clauses join the current group with an `exists` or `missing` fragment
      on the column as given. */
  lemma NullRoute(from: Option<string>, column: string, boolean: string)
    ensures Route(from, Null(column, boolean)) == GroupRoute(boolean, "Null", WhereNull(column))
    ensures Route(from, NotNull(column, boolean)) == GroupRoute(boolean, "NotNull", WhereNotNull(column))
  {
    SwitchGroup(Null(column, boolean), WhereNull(column));
    SwitchGroup(NotNull(column, boolean), WhereNotNull(column));
  }

  /** A nested clause contributes nothing, but a failure inside the nested list stops the
      compile; a record of any other type fails. */
  lemma NestedAndOtherRoute(from: Option<string>, nestedFrom: Option<string>, nested: seq<Where>, boolean: string, t: string)
    ensures Route(from, Nested(nestedFrom, nested, boolean)) ==
      if WheresSpec(nestedFrom, nested).Err? then Err(WheresSpec(nestedFrom, nested).error) else Ok(Skip)
    ensures Route(from, Other(t, boolean)) == Err(Unsupported("where" + t))
  {
  }

  /** A list whose every clause compiles compiles. */
  lemma {:induction false} RoutesAllOk(from: Option<string>, ws: seq<Where>)
    requires forall i :: 0 <= i < |ws| ==> Route(from, ws[i]).Ok?
    ensures Routes(from, ws).Ok?
    decreases |ws|
  {
    if |ws| > 0 {
      var pre := ws[..|ws| - 1];
      forall i | 0 <= i < |pre|
        ensures Route(from, pre[i]).Ok?
      {
        assert pre[i] == ws[i];
      }
      RoutesAllOk(from, pre);
    }
  }

  /** The list compiles exactly when every clause does. */
  lemma {:induction false} RoutesOk(from: Option<string>, ws: seq<Where>)
    ensures Routes(from, ws).Ok? <==> forall i :: 0 <= i < |ws| ==> Route(from, ws[i]).Ok?
  {
    if Routes(from, ws).Ok? {
      RoutesPlaced(from, ws);
    } else if forall i :: 0 <= i < |ws| ==> Route(from, ws[i]).Ok? {
      RoutesAllOk(from, ws);
    }
  }

  /** Then clause `i` is placed at `Route(ws[i])`: order is kept and nothing is merged. */
  lemma {:induction false} RoutesPlaced(from: Option<string>, ws: seq<Where>)
    requires Routes(from, ws).Ok?
    ensures |Routes(from, ws).value| == |ws|
    ensures forall i :: 0 <= i < |ws| ==> Route(from, ws[i]) == Ok(Routes(from, ws).value[i])
    decreases |ws|
  {
    if |ws| > 0 {
      var pre, last := ws[..|ws| - 1], ws[|ws| - 1];
      RoutesPlaced(from, pre);
      var rpre := Routes(from, pre).value;
      var rs := rpre + [Route(from, last).value];
      assert Routes(from, ws) == Ok(rs);
      forall i | 0 <= i < |pre|
        ensures Route(from, ws[i]) == Ok(rs[i])
      {
        assert pre[i] == ws[i] && rs[i] == rpre[i];
      }
    }
  }

  /** A failing list fails with the error of its first failing clause. */
  lemma {:induction false} RoutesFirstError(from: Option<string>, ws: seq<Where>)
    requires Routes(from, ws).Err?
    ensures exists k :: (0 <= k < |ws| && Route(from, ws[k]).Err? &&
      (forall i :: 0 <= i < k ==> Route(from, ws[i]).Ok?) &&
      Routes(from, ws).error == Route(from, ws[k]).error)
    decreases |ws|
  {
    var pre := ws[..|ws| - 1];
    assert forall i :: 0 <= i < |pre| ==> pre[i] == ws[i];
    if Routes(from, pre).Err? {
      RoutesFirstError(from, pre);
      var k :| 0 <= k < |pre| && Route(from, pre[k]).Err? &&
        (forall i :: 0 <= i < k ==> Route(from, pre[i]).Ok?) && Routes(from, pre).error == Route(from, pre[k]).error;
      assert Route(from, ws[k]).Err?;
    } else {
      RoutesOk(from, pre);
      assert Route(from, ws[|ws| - 1]).Err?;
    }
  }

  /** The number of clauses that were dropped. */
  function SkipCount(rs: seq<Placement>): nat {
    if |rs| == 0 then 0 else SkipCount(rs[..|rs| - 1]) + (if rs[|rs| - 1].Skip? then 1 else 0)
  }

  /** Every compiled clause lands in exactly one place: `must`, `should`, a filter group, or
      nowhere. */
  lemma {:induction false} OnePlaceEach(rs: seq<Placement>)
    ensures |MustFrags(rs)| + |ShouldFrags(rs)| + |FilterFrags(rs)| + SkipCount(rs) == |rs|
  {
    if |rs| > 0 {
      OnePlaceEach(rs[..|rs| - 1]);
    }
  }

  /** Nothing is scored when no clause is routed to `must` (and likewise for `should`). */
  lemma {:induction false} NoMustFrags(rs: seq<Placement>)
    ensures MustFrags(rs) == [] <==> forall i :: 0 <= i < |rs| ==> !rs[i].Must?
    ensures ShouldFrags(rs) == [] <==> forall i :: 0 <= i < |rs| ==> !rs[i].Should?
  {
    if |rs| > 0 {
      var pre := rs[..|rs| - 1];
      NoMustFrags(pre);
      assert forall i :: 0 <= i < |pre| ==> pre[i] == rs[i];
    }
  }

  /** Under the intended guard of line 192, a list that compiles gives `false` exactly when no
      clause is scored: filter-only lists lose their filters. */
  lemma FalseWithoutScoring(from: Option<string>, ws: seq<Where>)
    requires Routes(from, ws).Ok?
    ensures WheresSpec(from, ws) == Ok(None) <==>
      forall i :: 0 <= i < |ws| ==> Route(from, ws[i]).Ok? && !Route(from, ws[i]).value.Must? && !Route(from, ws[i]).value.Should?
  {
    RoutesPlaced(from, ws);
    NoMustFrags(Routes(from, ws).value);
  }

  /** No record of the list is a nested group. */
  predicate NoNested(ws: seq<Where>) {
    forall i :: 0 <= i < |ws| ==> !ws[i].Nested?
  }

  /** When `count` of a boolean is 1, the guard as written never throws, so a clause routes as it
      does under the intended guard, nested groups included. */
  lemma {:induction false} RouteCountIsOne(from: Option<string>, w: Where)
    ensures RouteAsWritten(CountIsOne, from, w) == Route(from, w)
    decreases w, 1
  {
    if w.Nested? {
      RoutesCountIsOne(w.from, w.wheres);
      var rs := Routes(w.from, w.wheres);
      if rs.Ok? {
        assert WheresSpecAsWritten(CountIsOne, w.from, w.wheres).Ok? && WheresSpec(w.from, w.wheres).Ok?;
      } else {
        assert WheresSpecAsWritten(CountIsOne, w.from, w.wheres) == Err(rs.error) == WheresSpec(w.from, w.wheres);
      }
      assert ClauseExprAsWritten(CountIsOne, from, w) == ClauseExpr(from, w);
    }
  }

  lemma {:induction false} RoutesCountIsOne(from: Option<string>, ws: seq<Where>)
    ensures RoutesAsWritten(CountIsOne, from, ws) == Routes(from, ws)
    decreases ws, 0
  {
    if |ws| > 0 {
      RoutesCountIsOne(from, ws[..|ws| - 1]);
      RouteCountIsOne(from, ws[|ws| - 1]);
    }
  }

  /** Without nested groups, line 192 is reached only once, at the end: the routes are the same
      under either reading. */
  lemma {:induction false} RoutesNoNested(count: CountOfBool, from: Option<string>, ws: seq<Where>)
    requires NoNested(ws)
    ensures RoutesAsWritten(count, from, ws) == Routes(from, ws)
    decreases |ws|
  {
    if |ws| > 0 {
      var pre := ws[..|ws| - 1];
      assert NoNested(pre) by {
        forall i | 0 <= i < |pre| ensures !pre[i].Nested? { assert pre[i] == ws[i]; }
      }
      RoutesNoNested(count, from, pre);
    }
  }

  /** The guard of line 192 as written. When `count` of a boolean is 1, the query is always sent,
      and it agrees with the intended guard whenever something is scored. When `count` throws, a
      list without nested groups fails exactly when no clause is routed to `must`; a nested group
      whose own `must` is empty fails as well (`NestedCounterexample`). */
  lemma GuardAsWritten(from: Option<string>, ws: seq<Where>)
    requires Routes(from, ws).Ok?
    ensures WheresSpecAsWritten(CountIsOne, from, ws).Ok? && WheresSpecAsWritten(CountIsOne, from, ws).value.Some?
    ensures WheresSpec(from, ws).value.Some? ==> WheresSpecAsWritten(CountIsOne, from, ws) == WheresSpec(from, ws)
    ensures NoNested(ws) ==> (WheresSpecAsWritten(CountThrows, from, ws).Err? <==>
      forall i :: 0 <= i < |ws| ==> Route(from, ws[i]).Ok? && !Route(from, ws[i]).value.Must?)
  {
    RoutesCountIsOne(from, ws);
    if NoNested(ws) {
      RoutesNoNested(CountThrows, from, ws);
    }
    RoutesPlaced(from, ws);
    NoMustFrags(Routes(from, ws).value);
  }

  /** The lone `a = 1` filter on table `t` goes to the current group under either reading. */
  lemma LoneFilterRoutes(count: CountOfBool)
    ensures Routes(Some("t"), [ExampleWheres[0]]) == Ok([Filter(Term("a", JInt(1)), false)])
    ensures RoutesAsWritten(count, Some("t"), [ExampleWheres[0]]) == Ok([Filter(Term("a", JInt(1)), false)])
  {
    var ws := [ExampleWheres[0]];
    var p0 := Filter(Term("a", JInt(1)), false);
    ExampleClauses();
    assert ws[..0] == [];
    assert Routes(Some("t"), ws[..0]) == Ok([]);
    assert Route(Some("t"), ws[0]) == Ok(p0);
    RoutesSnoc(Some("t"), ws, 0);
    assert Routes(Some("t"), ws[..0 + 1]) == Ok([] + [p0]);
    assert [] + [p0] == [p0];
    assert ws[..1] == ws;
    assert NoNested(ws);
    RoutesNoNested(count, Some("t"), ws);
  }

  lemma LoneFilterFrags()
    ensures var rs := [Filter(Term("a", JInt(1)), false)];
      MustFrags(rs) == [] && ShouldFrags(rs) == [] && Groups(rs) == [[Term("a", JInt(1))]]
  {
    var p0 := Filter(Term("a", JInt(1)), false);
    FragsSnoc([], p0);
    assert [] + [p0] == [p0];
    assert Groups([]) == [[]];
    assert [] + [Term("a", JInt(1))] == [Term("a", JInt(1))];
  }

  /** A single `a = 1` filter on table `t`, and the empty list: the intended guard gives `false`,
      the guard as written sends `must: []` with the filter tree when `count` of a boolean is 1,
      and fails when it throws. */
  lemma GuardCounterexample()
    ensures WheresSpec(Some("t"), [ExampleWheres[0]]) == Ok(None)
    ensures WheresSpecAsWritten(CountIsOne, Some("t"), [ExampleWheres[0]]) ==
      Ok(Some(WhereBody([], [], [[Term("a", JInt(1))]])))
    ensures WheresSpecAsWritten(CountThrows, Some("t"), [ExampleWheres[0]]) == Err(NotCountable)
    ensures WheresSpec(Some("t"), []) == Ok(None)
    ensures WheresSpecAsWritten(CountIsOne, Some("t"), []) == Ok(Some(WhereBody([], [], [[]])))
    ensures WheresSpecAsWritten(CountThrows, Some("t"), []) == Err(NotCountable)
  {
    LoneFilterRoutes(CountIsOne);
    LoneFilterRoutes(CountThrows);
    LoneFilterFrags();
  }

  /** A nested group holding the lone `a = 1` filter, then `c like x`. */
  const NestedExample: seq<Where> := [Nested(Some("t"), [ExampleWheres[0]], "and"), ExampleWheres[2]]

  lemma NestedSkipped()
    ensures Route(Some("t"), NestedExample[0]) == Ok(Skip)
  {
    var t := Some("t");
    LoneFilterRoutes(CountIsOne);
    LoneFilterFrags();
    assert WheresSpec(t, [ExampleWheres[0]]) == Ok(None);
    NestedAndOtherRoute(t, t, [ExampleWheres[0]], "and", "");
    assert NestedExample[0] == Nested(t, [ExampleWheres[0]], "and");
  }

  /** Under the intended guard the nested group is skipped and the match is scored. */
  lemma NestedRoutes()
    ensures Routes(Some("t"), NestedExample) == Ok([Skip, Must(ExampleMatch)])
  {
    var t, ws := Some("t"), NestedExample;
    NestedSkipped();
    ExampleClauses();
    assert Route(t, ws[0]) == Ok(Skip);
    assert Route(t, ws[1]) == Ok(Must(ExampleMatch));
    assert ws[..0] == [];
    assert Routes(t, ws[..0]) == Ok([]);
    RoutesSnoc(t, ws, 0);
    assert Routes(t, ws[..0 + 1]) == Ok([] + [Skip]);
    assert [] + [Skip] == [Skip];
    RoutesSnoc(t, ws, 1);
    assert Routes(t, ws[..1 + 1]) == Ok([Skip] + [Must(ExampleMatch)]);
    assert [Skip] + [Must(ExampleMatch)] == [Skip, Must(ExampleMatch)];
    assert ws[..2] == ws;
  }

  /** Under the guard as written, when `count` throws, the nested compile throws first. */
  lemma NestedThrows()
    ensures RoutesAsWritten(CountThrows, Some("t"), NestedExample) == Err(NotCountable)
  {
    var t, ws := Some("t"), NestedExample;
    LoneFilterRoutes(CountThrows);
    LoneFilterFrags();
    assert WheresSpecAsWritten(CountThrows, t, [ExampleWheres[0]]) == Err(NotCountable);
    assert RouteAsWritten(CountThrows, t, ws[0]) == Err(NotCountable);
    assert ws[..1][..0] == [];
    assert ws[..1][0] == ws[0];
    assert RoutesAsWritten(CountThrows, t, ws[..1]) == Err(NotCountable);
  }

  /** Under the intended guard the nested group is skipped and the match is sent. Under the guard
      as written, when `count` throws, the nested compile throws and so does the whole list,
      although the outer `must` is not empty. */
  lemma NestedCounterexample()
    ensures WheresSpec(Some("t"), NestedExample) == Ok(Some(WhereBody([ExampleMatch], [], [[]])))
    ensures WheresSpecAsWritten(CountThrows, Some("t"), NestedExample) == Err(NotCountable)
  {
    NestedRoutes();
    NestedThrows();
    FragsSnoc([], Skip);
    FragsSnoc([Skip], Must(ExampleMatch));
    var rs := [Skip, Must(ExampleMatch)];
    assert [] + [Skip] == [Skip] && [Skip] + [Must(ExampleMatch)] == rs;
    assert MustFrags(rs) == [ExampleMatch] && ShouldFrags(rs) == [] && Groups(rs) == [[]];
  }

  /** The filter groups: never empty as a list; every group after the first is non-empty; the
      current (last) group and the first group are empty exactly when no clause was routed to
      a group, and then there is only that one group. */
  lemma {:induction false} GroupsShape(rs: seq<Placement>)
    ensures var g := Groups(rs);
      && (forall k :: 0 < k < |g| ==> |g[k]| > 0)
      && (|g[|g| - 1]| == 0 <==> FilterFrags(rs) == [])
      && (g[0] == [] <==> FilterFrags(rs) == [])
      && (g[0] == [] ==> g == [[]])
  {
    if |rs| > 0 {
      GroupsShape(rs[..|rs| - 1]);
    }
  }

  /** Concatenating the groups in order gives the filter clauses in their original order. */
  lemma {:induction false} GroupsFlatten(rs: seq<Placement>)
    ensures Flatten(Groups(rs)) == FilterFrags(rs)
  {
    if |rs| > 0 {
      var pre := rs[..|rs| - 1];
      var g := Groups(pre);
      GroupsFlatten(pre);
      match rs[|rs| - 1]
      case Filter(j, opens) =>
        if opens && |g[|g| - 1]| > 0 {
          assert (g + [[j]])[..|g|] == g;
        } else {
          var g' := g[|g| - 1 := g[|g| - 1] + [j]];
          assert g'[..|g| - 1] == g[..|g| - 1];
          assert Flatten(g) == Flatten(g[..|g| - 1]) + g[|g| - 1];
        }
      case _ =>
    }
  }

  /** A new group is opened once for every opening filter clause after the first filter clause:
      the first one always lands in the initial empty group. */
  lemma {:induction false} GroupsCount(rs: seq<Placement>)
    ensures |Groups(rs)| == 1 + (if FilterOpens(rs) == [] then 0 else CountTrue(FilterOpens(rs)[1..]))
  {
    if |rs| > 0 {
      var pre, p := rs[..|rs| - 1], rs[|rs| - 1];
      GroupsCount(pre);
      GroupsShape(pre);
      FilterOpensEmpty(pre);
      var os := FilterOpens(pre);
      AddToGroupsSize(Groups(pre), p);
      if p.Filter? {
        assert FilterOpens(rs) == os + [p.opens];
        if os != [] {
          assert (os + [p.opens])[1..] == os[1..] + [p.opens];
          CountTrueSnoc(os[1..], p.opens);
        }
      } else {
        assert FilterOpens(rs) == os;
      }
    }
  }

  lemma AddToGroupsSize(g: seq<seq<Json>>, p: Placement)
    requires |g| >= 1
    ensures |AddToGroups(g, p)| == |g| + (if p.Filter? && p.opens && |g[|g| - 1]| > 0 then 1 else 0)
  {
  }

  lemma CountTrueSnoc(bs: seq<bool>, b: bool)
    ensures CountTrue(bs + [b]) == CountTrue(bs) + (if b then 1 else 0)
  {
    assert (bs + [b])[..|bs|] == bs;
  }

  lemma {:induction false} FilterOpensEmpty(rs: seq<Placement>)
    ensures FilterOpens(rs) == [] <==> FilterFrags(rs) == []
  {
    if |rs| > 0 {
      FilterOpensEmpty(rs[..|rs| - 1]);
    }
  }

  /** A query on table `t`: `a = 1`, then `b = 2` with `or`, then `c like x`. */
  const ExampleWheres: seq<Where> :=
    [Basic("a", "=", JInt(1), "and"), Basic("b", "=", JInt(2), "or"), Basic("c", "like", JStr("x"), "and")]

  const ExampleMatch: Json :=
    Obj1("match", Obj1("c", JObj(map["query" := JStr("x"), "fuzziness" := JStr("AUTO"), "operator" := JStr("and")])))

  /** Both terms are filters, the second one opening; the match is scored. */
  lemma ExampleRoutes()
    ensures Routes(Some("t"), ExampleWheres) ==
      Ok([Filter(Term("a", JInt(1)), false), Filter(Term("b", JInt(2)), true), Must(ExampleMatch)])
  {
    var from, ws := Some("t"), ExampleWheres;
    ExampleClauses();
    var p0, p1, p2 := Filter(Term("a", JInt(1)), false), Filter(Term("b", JInt(2)), true), Must(ExampleMatch);
    assert ws[..0] == [];
    assert Routes(from, ws[..0]) == Ok([]);
    assert Route(from, ws[0]) == Ok(p0);
    RoutesSnoc(from, ws, 0);
    assert Routes(from, ws[..0 + 1]) == Ok(Routes(from, ws[..0]).value + [Route(from, ws[0]).value]);
    assert Routes(from, ws[..0]).value + [Route(from, ws[0]).value] == [p0];
    RoutesSnoc(from, ws, 1);
    assert Routes(from, ws[..1 + 1]) == Ok(Routes(from, ws[..1]).value + [Route(from, ws[1]).value]);
    assert Routes(from, ws[..1]).value + [Route(from, ws[1]).value] == [p0, p1];
    RoutesSnoc(from, ws, 2);
    assert Routes(from, ws[..2 + 1]) == Ok(Routes(from, ws[..2]).value + [Route(from, ws[2]).value]);
    assert Routes(from, ws[..2]).value + [Route(from, ws[2]).value] == [p0, p1, p2];
    assert ws[..3] == ws;
  }

  lemma ExampleClauses()
    ensures Route(Some("t"), ExampleWheres[0]) == Ok(Filter(Term("a", JInt(1)), false))
    ensures Route(Some("t"), ExampleWheres[1]) == Ok(Filter(Term("b", JInt(2)), true))
    ensures Route(Some("t"), ExampleWheres[2]) == Ok(Must(ExampleMatch))
  {
    var from := Some("t");
    assert Lower("and") == "and" && Lower("or") == "or";
    BasicRoute(from, "a", "=", JInt(1), "and");
    BasicRoute(from, "b", "=", JInt(2), "or");
    BasicRoute(from, "c", "like", JStr("x"), "and");
  }

  /** Where the three placements of the example go. */
  lemma ExampleFrags()
    ensures var rs := [Filter(Term("a", JInt(1)), false), Filter(Term("b", JInt(2)), true), Must(ExampleMatch)];
      MustFrags(rs) == [ExampleMatch] && ShouldFrags(rs) == [] && Groups(rs) == [[Term("a", JInt(1))], [Term("b", JInt(2))]]
  {
    var ta, tb := Term("a", JInt(1)), Term("b", JInt(2));
    var p0, p1, p2 := Filter(ta, false), Filter(tb, true), Must(ExampleMatch);
    var rs := [p0, p1, p2];
    FragsSnoc([], p0);
    FragsSnoc([p0], p1);
    FragsSnoc([p0, p1], p2);
    assert [] + [p0] == [p0] && [p0] + [p1] == [p0, p1] && [p0, p1] + [p2] == rs;
    var g0 := Groups([]);
    var g1 := AddToGroups(g0, p0);
    assert g1 == [[ta]] by {
      assert g0 == [[]];
      assert g0[0] + [ta] == [ta];
    }
    var g2 := AddToGroups(g1, p1);
    assert g2 == [[ta], [tb]];
  }

  /** The two terms land in two AND groups and the match is the single `must`, sent as
      itself. */
  lemma OrSplitsGroups()
    ensures WheresSpec(Some("t"), ExampleWheres) ==
      Ok(Assemble([ExampleMatch], [], [[Term("a", JInt(1))], [Term("b", JInt(2))]]))
  {
    ExampleRoutes();
    ExampleFrags();
  }
}
