/** `compileWheres` of the grammar (Elasticsearch/Query/Grammar/Grammar.php:104-202): the ordered
    where records become a scored bool query (`must`, `must_not`, `should`) and an OR-of-AND filter
    tree whose AND groups are split at `or` clauses. */
module Wheres {
  import opened Wrappers
  import opened Wire
  import opened Strings
  import opened Builder
  import opened Clauses

  /** What a `where*` method returned: an array fragment, or something the check on line 138
      skips (the `false` of an empty `whereIn`, or the grammar object `whereNested` returns).
      Every array fragment a `where*` method builds is non-empty. */
  datatype Expr = Fragment(json: Json) | NotAnArray

  /** Where one clause ends up. `opens` is the condition of line 139 minus its last conjunct:
      the clause is filter-class and its boolean is exactly `or`. */
  datatype Placement = Skip | Must(frag: Json) | Should(frag: Json) | Filter(frag: Json, opens: bool)

  /** The switch cases (other than the basic and multi-match ones) that append to the current
      filter group. */
  const FilterCaseKeys: set<string> := {
    "and_in", "and_null", "or_in", "or_null", "and_notin",
    "and_notnull", "or_notin", "or_notnull", "and_raw", "or_raw"}

  /** `strtolower(implode('_', [boolean, type]))`. */
  function SwitchKey(w: Where): string {
    Lower(w.boolean + "_" + w.TypeName())
  }

  /** Lines 130-136: the fragment and the filter flag of one clause. Only `whereBasic` computes
      the flag; every other type gets `type != 'multimatch'`, compared case-sensitively. A nested
      group is compiled for its failures only. A type with no `where*` method fails in `__call`.
      Every record type other than `Basic` is flagged filter-class, because no type is spelled
      `multimatch` in lower case; only an empty in list and a nested group return no array. */
  function ClauseExpr(from: Option<string>, w: Where): (r: Result<(Expr, bool)>)
    ensures r.Ok? && !w.Basic? ==> r.value.1
    ensures r.Ok? && r.value.0.NotAnArray? ==> (w.In? && w.values == []) || w.Nested?
    ensures w.In? && w.values == [] ==> r == Ok((NotAnArray, true))
    ensures w.Other? ==> r == Err(Unsupported("where" + w.typeName))
    decreases w, 0
  {
    match w
    case Basic(column, operator, value, _) =>
      var p :- WhereBasic(from, column, operator, value);
      Ok((Fragment(p.0), p.1))
    case MultiMatch(columns, operator, opParam, value, _) =>
      Ok((Fragment(WhereMultiMatch(columns, operator, opParam, value)), w.TypeName() != "multimatch"))
    case In(column, values, _) =>
      var e :- WhereIn(from, column, values);
      Ok((if e.Some? then Fragment(e.value) else NotAnArray, w.TypeName() != "multimatch"))
    case NotIn(column, values, _) =>
      var e :- WhereNotIn(from, column, values);
      Ok((Fragment(e), w.TypeName() != "multimatch"))
    case Null(column, _) =>
      Ok((Fragment(WhereNull(column)), w.TypeName() != "multimatch"))
    case NotNull(column, _) =>
      Ok((Fragment(WhereNotNull(column)), w.TypeName() != "multimatch"))
    case Nested(nestedFrom, nestedWheres, _) =>
      var discarded :- WheresSpec(nestedFrom, nestedWheres);
      Ok((NotAnArray, w.TypeName() != "multimatch"))
    case Other(t, _) =>
      Err(Unsupported("where" + t))
  }

  /** Lines 138-188 for one clause, given what its `where*` method returned: skipped, routed by
      the switch, or refused by the switch's default. An array is never dropped once the switch
      accepts it, only a filter-class clause with the exact boolean `or` opens a group, and only a
      scoring fragment reaches `should`. */
  function Switch(w: Where, e: Expr, isFilter: bool): (r: Result<Placement>)
    ensures e.NotAnArray? ==> r == Ok(Skip)
    ensures e.Fragment? && r.Ok? ==> !r.value.Skip? && r.value.frag == e.json
    ensures r.Ok? && r.value.Filter? ==> (r.value.opens <==> isFilter && w.boolean == "or")
    ensures r.Ok? && r.value.Should? ==> !isFilter
    ensures r.Err? ==> r.error == Unsupported("where" + w.TypeName())
  {
    match e
    case NotAnArray => Ok(Skip)
    case Fragment(j) =>
      var opens := isFilter && w.boolean == "or";
      var key := SwitchKey(w);
      if key == "and_basic" then Ok(if isFilter then Filter(j, opens) else Must(j))
      else if key == "or_basic" then Ok(if isFilter then Filter(j, opens) else Should(j))
      else if key == "and_multimatch" then Ok(Must(j))
      else if key in FilterCaseKeys then Ok(Filter(j, opens))
      else Err(Unsupported("where" + w.TypeName()))
  }

  /** Where one clause ends up. Only an empty in list and a nested group are skipped, only a
      basic clause reaches `should`, and a clause with no `where*` method fails. */
  function Route(from: Option<string>, w: Where): (r: Result<Placement>)
    ensures w.Other? ==> r == Err(Unsupported("where" + w.typeName))
    ensures w.In? && w.values == [] ==> r == Ok(Skip)
    ensures r.Ok? && r.value.Skip? ==> (w.In? && w.values == []) || w.Nested?
    ensures r.Ok? && r.value.Should? ==> w.Basic?
    ensures r.Ok? && r.value.Filter? && r.value.opens ==> w.boolean == "or"
    decreases w, 1
  {
    var e :- ClauseExpr(from, w);
    Switch(w, e.0, e.1)
  }

  /** The routes of a clause list, one per clause, or the failure of its first failing
      clause. */
  function Routes(from: Option<string>, ws: seq<Where>): (r: Result<seq<Placement>>)
    ensures r.Ok? ==> |r.value| == |ws|
    decreases ws, 0
  {
    if |ws| == 0 then Ok([])
    else
      var prefix :- Routes(from, ws[..|ws| - 1]);
      var r :- Route(from, ws[|ws| - 1]);
      Ok(prefix + [r])
  }

  function MustOf(p: Placement): seq<Json> {
    if p.Must? then [p.frag] else []
  }

  function ShouldOf(p: Placement): seq<Json> {
    if p.Should? then [p.frag] else []
  }

  function MustFrags(rs: seq<Placement>): seq<Json> {
    if |rs| == 0 then [] else MustFrags(rs[..|rs| - 1]) + MustOf(rs[|rs| - 1])
  }

  function ShouldFrags(rs: seq<Placement>): seq<Json> {
    if |rs| == 0 then [] else ShouldFrags(rs[..|rs| - 1]) + ShouldOf(rs[|rs| - 1])
  }

  function FilterFrags(rs: seq<Placement>): seq<Json> {
    if |rs| == 0 then []
    else FilterFrags(rs[..|rs| - 1]) + (if rs[|rs| - 1].Filter? then [rs[|rs| - 1].frag] else [])
  }

  /** The `opens` flags of the filter-routed clauses, in order. */
  function FilterOpens(rs: seq<Placement>): seq<bool> {
    if |rs| == 0 then []
    else FilterOpens(rs[..|rs| - 1]) + (if rs[|rs| - 1].Filter? then [rs[|rs| - 1].opens] else [])
  }

  /** The AND groups of `filter_cond`: one empty group to start with; a filter clause that opens
      starts a new group when the current (last) one is non-empty, and is appended to the last
      group. */
  function Groups(rs: seq<Placement>): (g: seq<seq<Json>>)
    ensures |g| >= 1
  {
    if |rs| == 0 then [[]] else AddToGroups(Groups(rs[..|rs| - 1]), rs[|rs| - 1])
  }

  /** One clause's effect on the groups. */
  function AddToGroups(g: seq<seq<Json>>, p: Placement): (g': seq<seq<Json>>)
    requires |g| >= 1
    ensures |g'| >= 1
  {
    match p
    case Filter(j, opens) =>
      if opens && |g[|g| - 1]| > 0 then g + [[j]]
      else g[|g| - 1 := g[|g| - 1] + [j]]
    case _ => g
  }

  function Flatten(gs: seq<seq<Json>>): seq<Json> {
    if |gs| == 0 then [] else Flatten(gs[..|gs| - 1]) + gs[|gs| - 1]
  }

  function CountTrue(bs: seq<bool>): nat {
    if |bs| == 0 then 0 else CountTrue(bs[..|bs| - 1]) + (if bs[|bs| - 1] then 1 else 0)
  }

  /** `['or' => ['filters' => [['and' => ['filters' => group]], ...]]]`. */
  function FilterTree(groups: seq<seq<Json>>): Json {
    Obj1("or", Obj1("filters", JList(seq(|groups|, k requires 0 <= k < |groups| => Obj1("and", Obj1("filters", JList(groups[k])))))))
  }

  /** The `must` entry of the bool query: a `must` of one clause is sent as that clause. */
  function MustJson(must: seq<Json>): Json {
    if |must| == 1 then must[0] else JList(must)
  }

  /** What lines 193-200 return: the bool query and the filter tree. `must_not` is never written,
      so it is sent as the empty list it started as. */
  function WhereBody(must: seq<Json>, should: seq<Json>, groups: seq<seq<Json>>): (r: map<string, Json>)
    ensures r.Keys == {"query", "filter"}
    ensures r["filter"] == FilterTree(groups)
    ensures var b := Get(r["query"], "bool");
      && b.JObj? && b.fields.Keys == {"must", "must_not", "should"}
      && (|must| == 1 ==> Get(b, "must") == must[0])
      && (|must| != 1 ==> Get(b, "must") == JList(must))
      && Get(b, "must_not") == JList([])
      && Get(b, "should") == JList(should)
  {
    map[
      "query" := Obj1("bool", JObj(map["must" := MustJson(must), "must_not" := JList([]), "should" := JList(should)])),
      "filter" := FilterTree(groups)]
  }

  /** Lines 192-201 with the guard the code evidently intends, `count($query_cond['must_not']) > 0`
      for its middle disjunct: `must_not` is never written, so the query is sent exactly when
      `must` or `should` is non-empty, and `false` (`None`) is returned otherwise. */
  function Assemble(must: seq<Json>, should: seq<Json>, groups: seq<seq<Json>>): (r: Option<map<string, Json>>)
    ensures r.None? <==> must == [] && should == []
    ensures r.Some? ==> r.value == WhereBody(must, should, groups)
  {
    if |must| > 0 || |should| > 0 then Some(WhereBody(must, should, groups)) else None
  }

  /** What `count($query_cond['must_not'] > 0)` does. `[] > 0` is true in PHP (an array is greater
      than any number), so the argument is a boolean. `CountIsOne`: PHP before 8, where `count`
      of a non-countable value is 1 (with a warning from 7.2 on). `CountThrows`: PHP 8, where it
      throws a TypeError; so does PHP 7.2-7.4 under an error handler that raises warnings. */
  datatype CountOfBool = CountIsOne | CountThrows

  /** Lines 192-201 as written. The middle disjunct is evaluated only when `must` is empty: it
      then either holds, so the query is sent even with nothing scored, or throws. */
  function AssembleAsWritten(count: CountOfBool, must: seq<Json>, should: seq<Json>, groups: seq<seq<Json>>)
    : (r: Result<Option<map<string, Json>>>)
    ensures count == CountIsOne ==> r == Ok(Some(WhereBody(must, should, groups)))
    ensures count == CountThrows ==> (r.Err? <==> must == [])
    ensures r.Err? ==> r.error == NotCountable
    ensures r.Ok? ==> r.value == Some(WhereBody(must, should, groups))
  {
    if |must| > 0 then Ok(Some(WhereBody(must, should, groups)))
    else match count
      case CountIsOne => Ok(Some(WhereBody(must, should, groups)))
      case CountThrows => Err(NotCountable)
  }

  /** `ClauseExpr` under the guard as written: `whereNested` calls `compileWheres` itself, so the
      nested list reaches line 192 again and may throw there. */
  function ClauseExprAsWritten(count: CountOfBool, from: Option<string>, w: Where): (r: Result<(Expr, bool)>)
    ensures !w.Nested? ==> r == ClauseExpr(from, w)
    ensures w.Nested? ==> (r.Ok? <==> WheresSpecAsWritten(count, w.from, w.wheres).Ok?)
    decreases w, 0
  {
    match w
    case Nested(nestedFrom, nestedWheres, _) =>
      var discarded :- WheresSpecAsWritten(count, nestedFrom, nestedWheres);
      Ok((NotAnArray, w.TypeName() != "multimatch"))
    case _ => ClauseExpr(from, w)
  }

  /** `Route` under the guard as written. */
  function RouteAsWritten(count: CountOfBool, from: Option<string>, w: Where): (r: Result<Placement>)
    ensures !w.Nested? ==> r == Route(from, w)
    decreases w, 1
  {
    var e :- ClauseExprAsWritten(count, from, w);
    Switch(w, e.0, e.1)
  }

  /** `Routes` under the guard as written. */
  function RoutesAsWritten(count: CountOfBool, from: Option<string>, ws: seq<Where>): (r: Result<seq<Placement>>)
    ensures r.Ok? ==> |r.value| == |ws|
    decreases ws, 0
  {
    if |ws| == 0 then Ok([])
    else
      var prefix :- RoutesAsWritten(count, from, ws[..|ws| - 1]);
      var r :- RouteAsWritten(count, from, ws[|ws| - 1]);
      Ok(prefix + [r])
  }

  /** What `compileWheres` as written computes for a where list, nested lists included. */
  function WheresSpecAsWritten(count: CountOfBool, from: Option<string>, ws: seq<Where>): Result<Option<map<string, Json>>>
    decreases ws, 1
  {
    var rs :- RoutesAsWritten(count, from, ws);
    AssembleAsWritten(count, MustFrags(rs), ShouldFrags(rs), Groups(rs))
  }

  /** What `compileWheres` computes for a where list. */
  function WheresSpec(from: Option<string>, ws: seq<Where>): Result<Option<map<string, Json>>>
    decreases ws, 1
  {
    var rs :- Routes(from, ws);
    Ok(Assemble(MustFrags(rs), ShouldFrags(rs), Groups(rs)))
  }

  /** What `compileWheres` computes: a null where list gives `false` (`None`). */
  function CompiledWheres(from: Option<string>, wheres: Option<seq<Where>>): Result<Option<map<string, Json>>> {
    match wheres
    case None => Ok(None)
    case Some(ws) => WheresSpec(from, ws)
  }

  /** Once a prefix of the list fails, the whole list fails the same way. */
  lemma {:induction false} RoutesExtendErr(from: Option<string>, ws: seq<Where>, n: nat)
    requires n <= |ws|
    requires Routes(from, ws[..n]).Err?
    ensures Routes(from, ws) == Routes(from, ws[..n])
    decreases |ws|
  {
    if n < |ws| {
      var ws' := ws[..|ws| - 1];
      assert ws'[..n] == ws[..n];
      RoutesExtendErr(from, ws', n);
    } else {
      assert ws[..n] == ws;
    }
  }

  lemma RoutesSnoc(from: Option<string>, ws: seq<Where>, i: nat)
    requires i < |ws| && Routes(from, ws[..i]).Ok?
    ensures Routes(from, ws[..i + 1]) ==
      if Route(from, ws[i]).Err? then Err(Route(from, ws[i]).error)
      else Ok(Routes(from, ws[..i]).value + [Route(from, ws[i]).value])
  {
    assert ws[..i + 1][..i] == ws[..i];
    assert ws[..i + 1][i] == ws[i];
  }

  lemma RouteIsSwitch(from: Option<string>, w: Where, e: Expr, isFilter: bool)
    requires ClauseExpr(from, w) == Ok((e, isFilter))
    ensures Route(from, w) == Switch(w, e, isFilter)
  {
  }

  lemma FragsSnoc(rs: seq<Placement>, p: Placement)
    ensures MustFrags(rs + [p]) == MustFrags(rs) + MustOf(p)
    ensures ShouldFrags(rs + [p]) == ShouldFrags(rs) + ShouldOf(p)
    ensures Groups(rs + [p]) == AddToGroups(Groups(rs), p)
  {
    assert (rs + [p])[..|rs|] == rs;
  }

  lemma NewGroupThenAppend(g: seq<seq<Json>>, j: Json)
    ensures (g + [[]])[|g| := (g + [[]])[|g|] + [j]] == g + [[j]]
  {
    assert (g + [[]])[|g|] + [j] == [j];
  }

  lemma OrKeyIsNotAnd(w: Where)
    ensures w.boolean == "or" ==> SwitchKey(w) != "and_multimatch"
  {
    if w.boolean == "or" {
      assert (w.boolean + "_" + w.TypeName())[0] == 'o';
      assert SwitchKey(w)[0] == 'o';
    }
  }

  /** `$this->$method($query, $where)` on line 132 or 134: the `where*` method named by the
      record's type, with the filter flag of lines 131-136. `whereNested` compiles the nested
      list by calling `compileWheres` again and discards the result. */
  method CallWhereMethod(from: Option<string>, w: Where) returns (r: Result<(Expr, bool)>)
    ensures r == ClauseExpr(from, w)
    decreases w, 0
  {
    if w.Nested? {
      var sub := CompileWheres(w.from, Some(w.wheres));
      if sub.Err? {
        return Err(sub.error);
      }
      return Ok((NotAnArray, w.TypeName() != "multimatch"));
    }
    return ClauseExpr(from, w);
  }

  /** Lines 139-188 for a clause whose `where*` method returned the fragment `j`: open a new
      group when an `or` filter clause meets a non-empty current group, then route `j` by the
      switch. `ok` is false when the switch falls through to its default. */
  method Place(w: Where, j: Json, isFilter: bool, must: seq<Json>, should: seq<Json>, groups: seq<seq<Json>>, orIndex: nat)
    returns (ok: bool, must': seq<Json>, should': seq<Json>, groups': seq<seq<Json>>, orIndex': nat)
    requires orIndex == |groups| - 1
    ensures var p := Switch(w, Fragment(j), isFilter);
      ok == p.Ok? &&
      (ok ==> must' == must + MustOf(p.value) &&
              should' == should + ShouldOf(p.value) &&
              groups' == AddToGroups(groups, p.value) &&
              orIndex' == |groups'| - 1)
  {
    must', should', groups', orIndex' := must, should, groups, orIndex;
    if isFilter && w.boolean == "or" && |groups'[orIndex']| > 0 {
      NewGroupThenAppend(groups', j);
      groups' := groups' + [[]];
      orIndex' := orIndex' + 1;
    }
    var key := SwitchKey(w);
    ok := true;
    if key == "and_basic" {
      if isFilter {
        groups' := groups'[orIndex' := groups'[orIndex'] + [j]];
      } else {
        must' := must' + [j];
      }
    } else if key == "or_basic" {
      if isFilter {
        groups' := groups'[orIndex' := groups'[orIndex'] + [j]];
      } else {
        should' := should' + [j];
      }
    } else if key == "and_multimatch" {
      OrKeyIsNotAnd(w);
      must' := must' + [j];
    } else if key in FilterCaseKeys {
      groups' := groups'[orIndex' := groups'[orIndex'] + [j]];
    } else {
      ok := false;
    }
  }

  /** One pass of the loop body (lines 130-188): compile the clause by its `where*` method, then
      route an array fragment. */
  method CompileClause(from: Option<string>, w: Where, must: seq<Json>, should: seq<Json>, groups: seq<seq<Json>>, orIndex: nat)
    returns (err: Option<Error>, must': seq<Json>, should': seq<Json>, groups': seq<seq<Json>>, orIndex': nat)
    requires orIndex == |groups| - 1
    ensures err.Some? <==> Route(from, w).Err?
    ensures err.Some? ==> err.value == Route(from, w).error
    ensures err.None? ==>
      var p := Route(from, w).value;
      must' == must + MustOf(p) && should' == should + ShouldOf(p) &&
      groups' == AddToGroups(groups, p) && orIndex' == |groups'| - 1
    decreases w, 1
  {
    must', should', groups', orIndex' := must, should, groups, orIndex;
    var call := CallWhereMethod(from, w);
    if call.Err? {
      return Some(call.error), must', should', groups', orIndex';
    }
    var expr, isFilter := call.value.0, call.value.1;
    RouteIsSwitch(from, w, expr, isFilter);
    if expr.Fragment? {
      var ok;
      ok, must', should', groups', orIndex' := Place(w, expr.json, isFilter, must, should, groups, orIndex);
      if !ok {
        return Some(Unsupported("where" + w.TypeName())), must', should', groups', orIndex';
      }
    } else {
      assert must + MustOf(Skip) == must && should + ShouldOf(Skip) == should;
    }
    err := None;
  }

  /** One pass of the loop over the where list: a failing clause fails the whole list, any other
      extends the placements and the accumulators derived from them. */
  lemma LoopStep(from: Option<string>, ws: seq<Where>, i: nat, rs: seq<Placement>)
    requires i < |ws| && Routes(from, ws[..i]) == Ok(rs)
    ensures Route(from, ws[i]).Err? ==> WheresSpec(from, ws) == Err(Route(from, ws[i]).error)
    ensures Route(from, ws[i]).Ok? ==>
      var p := Route(from, ws[i]).value;
      && Routes(from, ws[..i + 1]) == Ok(rs + [p])
      && MustFrags(rs + [p]) == MustFrags(rs) + MustOf(p)
      && ShouldFrags(rs + [p]) == ShouldFrags(rs) + ShouldOf(p)
      && Groups(rs + [p]) == AddToGroups(Groups(rs), p)
  {
    RoutesSnoc(from, ws, i);
    if Route(from, ws[i]).Err? {
      RoutesExtendErr(from, ws, i + 1);
    } else {
      FragsSnoc(rs, Route(from, ws[i]).value);
    }
  }

  /** After the whole list, the accumulated placements give the compiled result. */
  lemma LoopDone(from: Option<string>, ws: seq<Where>, rs: seq<Placement>)
    requires Routes(from, ws[..|ws|]) == Ok(rs)
    ensures WheresSpec(from, ws) == Ok(Assemble(MustFrags(rs), ShouldFrags(rs), Groups(rs)))
  {
    assert ws[..|ws|] == ws;
  }

  /** The imperative loop. Each clause is compiled by its `where*` function (a nested group by a
      recursive call), the current group is split as on line 139, and the fragment is routed by
      the switch on lines 151-188. The nested `filter_cond` arrays are kept as the list of groups
      and built into the tree at the end. */
  method CompileWheres(from: Option<string>, wheres: Option<seq<Where>>) returns (r: Result<Option<map<string, Json>>>)
    ensures r == CompiledWheres(from, wheres)
    decreases if wheres.Some? then wheres.value else [], 2
  {
    if wheres.None? {
      return Ok(None);
    }
    var ws := wheres.value;
    var must: seq<Json> := [];
    var should: seq<Json> := [];
    var groups: seq<seq<Json>> := [[]];
    var orIndex := 0;
    var i := 0;
    ghost var rs: seq<Placement> := [];
    while i < |ws|
      invariant 0 <= i <= |ws|
      invariant Routes(from, ws[..i]) == Ok(rs)
      invariant must == MustFrags(rs)
      invariant should == ShouldFrags(rs)
      invariant groups == Groups(rs)
      invariant orIndex == |groups| - 1
    {
      LoopStep(from, ws, i, rs);
      var err;
      err, must, should, groups, orIndex := CompileClause(from, ws[i], must, should, groups, orIndex);
      if err.Some? {
        return Err(err.value);
      }
      rs := rs + [Route(from, ws[i]).value];
      i := i + 1;
    }
    LoopDone(from, ws, rs);
    return Ok(Assemble(must, should, groups));
  }
}
