/** The select and insert side of the grammar: how the components of a builder are compiled into
    the body of a search request, and how an insert becomes an index request. */
module Grammar {
  import opened Wrappers
  import opened Wire
  import opened Strings
  import opened Builder
  import opened Wheres

  // ---------------------------------------------------------------------------------------------
  // Insert
  // ---------------------------------------------------------------------------------------------

  /** PHP truthiness of the key name: null, the empty string and "0" are false. */
  predicate TruthyKeyName(keyname: Option<string>) {
    keyname.Some? && keyname.value != "" && keyname.value != "0"
  }

  /** `processKeyValue`: the document id is taken from the values when the builder has a truthy
      key name and the values hold a non-null entry under it (`isset`). The entry stays in the
      values. */
  function KeyValue(keyname: Option<string>, values: map<string, Json>): (r: (bool, Json))
    ensures r.0 <==> TruthyKeyName(keyname) && keyname.value in values && values[keyname.value] != JNull
    ensures r.0 ==> r.1 == values[keyname.value]
    ensures !r.0 ==> r.1 == JNull
  {
    if TruthyKeyName(keyname) && keyname.value in values && values[keyname.value] != JNull then
      (true, values[keyname.value])
    else
      (false, JNull)
  }

  /** `compileInsert`: an index request on the connection's database whose type is the table and
      whose body is the values unchanged, carrying an `id` exactly when `KeyValue` found one. */
  function CompileInsert(q: Query, values: map<string, Json>): (r: map<string, Json>)
    ensures "index" in r && r["index"] == JStr(q.database)
    ensures "type" in r && r["type"] == StrOrNull(q.from)
    ensures "body" in r && r["body"] == JObj(values)
    ensures "id" in r <==> KeyValue(q.keyname, values).0
    ensures "id" in r ==> r["id"] == values[q.keyname.value]
    ensures r.Keys <= {"index", "type", "body", "id"}
  {
    var (found, keyValue) := KeyValue(q.keyname, values);
    var params := map["index" := JStr(q.database), "type" := StrOrNull(q.from), "body" := JObj(values)];
    if found then params["id" := keyValue] else params
  }

  // ---------------------------------------------------------------------------------------------
  // Select components
  // ---------------------------------------------------------------------------------------------

  /** The aggregate functions and the Elasticsearch aggregation each is sent as. */
  const AggregateMapping: map<string, string> := map[
    "count" := "value_count",
    "max" := "max",
    "min" := "min",
    "avg" := "avg",
    "sum" := "sum",
    "stats" := "stats"]

  /** `compileAggregate`: one aggregation keyed by the mapped function name, on a field that is
      the key name exactly when the columns are `['*']` and the comma-joined columns otherwise. */
  function CompileAggregate(q: Query, agg: AggregateCall): (r: Json)
    requires agg.fn in AggregateMapping
    ensures r.JObj? && r.fields.Keys == {"aggregate"}
    ensures Get(r, "aggregate") ==
      Obj1(AggregateMapping[agg.fn], Obj1("field", if agg.columns == ["*"] then StrOrNull(q.keyname) else JStr(Join(agg.columns, ","))))
  {
    JoinIsStar(agg.columns);
    var column := Join(agg.columns, ",");
    var field := if column == "*" then StrOrNull(q.keyname) else JStr(column);
    Obj1("aggregate", Obj1(AggregateMapping[agg.fn], Obj1("field", field)))
  }

  /** `compileColumns`: the column list goes to `_source` unless an aggregate is compiled. */
  function CompileColumns(q: Query, columns: seq<string>): (r: Option<Json>)
    ensures r.None? <==> q.aggregate.Some?
    ensures r.Some? ==> r.value.JList? && |r.value.items| == |columns|
    ensures r.Some? ==> forall k :: 0 <= k < |columns| ==> r.value.items[k] == JStr(columns[k])
  {
    if q.aggregate.Some? then None else Some(JList(seq(|columns|, k requires 0 <= k < |columns| => JStr(columns[k]))))
  }

  /** `compileFrom`: the table never appears in the body (it is the request's `type`). */
  function CompileFrom(q: Query, table: string): (r: Option<Json>)
    ensures r.None?
  {
    None
  }

  /** One `sort` entry: `[column => direction]`. */
  function SortClause(o: Order): Json {
    Obj1(o.column, JStr(o.direction))
  }

  /** The `sort` list of an `orders` list. */
  function Sorts(orders: seq<Order>): seq<Json> {
    seq(|orders|, k requires 0 <= k < |orders| => SortClause(orders[k]))
  }

  /** `compileOrders`: one `sort` entry per order, in order. */
  method CompileOrders(orders: seq<Order>) returns (sorts: seq<Json>)
    ensures |sorts| == |orders|
    ensures forall k :: 0 <= k < |orders| ==> sorts[k] == Obj1(orders[k].column, JStr(orders[k].direction))
    ensures sorts == Sorts(orders)
  {
    sorts := [];
    var i := 0;
    while i < |orders|
      invariant 0 <= i <= |orders|
      invariant |sorts| == i
      invariant forall k :: 0 <= k < i ==> sorts[k] == SortClause(orders[k])
    {
      sorts := sorts + [Obj1(orders[i].column, JStr(orders[i].direction))];
      i := i + 1;
    }
  }

  /** The properties of a relational builder that `compileComponents` visits. */
  datatype Component =
    | AggregateC | ColumnsC | FromC | JoinsC | WheresC | GroupsC
    | HavingsC | OrdersC | LimitC | OffsetC | UnionsC | LockC

  /** The inherited `selectComponents` order. */
  const SelectComponents: seq<Component> :=
    [AggregateC, ColumnsC, FromC, JoinsC, WheresC, GroupsC, HavingsC, OrdersC, LimitC, OffsetC, UnionsC, LockC]

  /** The body key each component is stored under; the empty name means "merge into the body". */
  const SelectComponentsMapping: map<Component, string> := map[
    AggregateC := "aggs",
    ColumnsC := "_source",
    FromC := "from",
    JoinsC := "joins",
    WheresC := "",
    GroupsC := "groups",
    HavingsC := "havings",
    OrdersC := "sort",
    LimitC := "size",
    OffsetC := "from",
    UnionsC := "unions",
    LockC := "lock"]

  /** Every component has a body name. */
  lemma MappingTotal(c: Component)
    ensures c in SelectComponentsMapping
  {
    match c
    case AggregateC =>
    case ColumnsC =>
    case FromC =>
    case JoinsC =>
    case WheresC =>
    case GroupsC =>
    case HavingsC =>
    case OrdersC =>
    case LimitC =>
    case OffsetC =>
    case UnionsC =>
    case LockC =>
  }

  /** Every aggregate the builder holds names a known aggregate function. */
  predicate AggregateKnown(q: Query) {
    q.aggregate.Some? ==> q.aggregate.value.fn in AggregateMapping
  }

  /** What compiling one component yields: `None` for a null property or a `false` result. The
      joins, groups, havings, unions and lock properties are taken as null: their setters and
      compilers belong to the base builder and grammar, which are not part of this model. */
  function ComponentValue(q: Query, wheres: Result<Option<map<string, Json>>>, c: Component): Result<Option<Json>>
    requires AggregateKnown(q)
  {
    match c
    case AggregateC => Ok(if q.aggregate.Some? then Some(CompileAggregate(q, q.aggregate.value)) else None)
    case ColumnsC => Ok(if q.columns.Some? then CompileColumns(q, q.columns.value) else None)
    case FromC => Ok(if q.from.Some? then CompileFrom(q, q.from.value) else None)
    case WheresC =>
      var w :- wheres;
      Ok(if w.Some? then Some(JObj(w.value)) else None)
    case OrdersC => Ok(if q.orders.Some? then Some(JList(Sorts(q.orders.value))) else None)
    case LimitC => Ok(if q.limit.Some? then Some(JInt(q.limit.value)) else None)
    case OffsetC => Ok(if q.offset.Some? then Some(JInt(q.offset.value)) else None)
    case _ => Ok(None)
  }

  /** Storing a component's result: under its mapped name, or merged key by key when the name is
      empty (`array_merge`, later keys win). */
  function Store(sql: map<string, Json>, c: Component, v: Json): map<string, Json> {
    MappingTotal(c);
    var name := SelectComponentsMapping[c];
    if name == "" then (if v.JObj? then sql + v.fields else sql) else sql[name := v]
  }

  /** The body after visiting `comps` in order. */
  function Partial(q: Query, wheres: Result<Option<map<string, Json>>>, comps: seq<Component>): Result<map<string, Json>>
    requires AggregateKnown(q)
  {
    if |comps| == 0 then Ok(map[])
    else
      var sql :- Partial(q, wheres, comps[..|comps| - 1]);
      var v :- ComponentValue(q, wheres, comps[|comps| - 1]);
      Ok(if v.Some? then Store(sql, comps[|comps| - 1], v.value) else sql)
  }

  /** The search body `compileComponents` produces. */
  function SelectBody(q: Query): Result<map<string, Json>>
    requires AggregateKnown(q)
  {
    Partial(q, CompiledWheres(q.from, Some(q.wheres)), SelectComponents)
  }

  /** The body after the aggregate, columns, from and joins components. */
  function HeadOf(q: Query): map<string, Json>
    requires AggregateKnown(q)
  {
    var withAggs := if q.aggregate.Some? then map["aggs" := CompileAggregate(q, q.aggregate.value)] else map[];
    if q.columns.Some? && q.aggregate.None? then withAggs["_source" := CompileColumns(q, q.columns.value).value] else withAggs
  }

  /** The body after the where component, given what `compileWheres` returned. */
  function WithWheres(head: map<string, Json>, w: Option<map<string, Json>>): map<string, Json> {
    if w.Some? then head + w.value else head
  }

  /** The body after the orders component. */
  function WithSort(q: Query, sql: map<string, Json>): map<string, Json> {
    if q.orders.Some? then sql["sort" := JList(Sorts(q.orders.value))] else sql
  }

  /** The body after the limit and offset components. */
  function WithPaging(q: Query, sql: map<string, Json>): map<string, Json> {
    var withSize := if q.limit.Some? then sql["size" := JInt(q.limit.value)] else sql;
    if q.offset.Some? then withSize["from" := JInt(q.offset.value)] else withSize
  }

  /** The body after the orders, limit and offset components (groups, havings, unions and lock
      are null). */
  function TailOf(q: Query, sql: map<string, Json>): map<string, Json> {
    WithPaging(q, WithSort(q, sql))
  }

  /** A straight-line reference for the body, given what `compileWheres` returned. */
  function BodyOf(q: Query, w: Option<map<string, Json>>): map<string, Json>
    requires AggregateKnown(q)
  {
    TailOf(q, WithWheres(HeadOf(q), w))
  }

  /** The aggregate becomes `aggs`; the columns become `_source` when there is no aggregate. */
  lemma PartialAggregateColumns(q: Query, wheres: Result<Option<map<string, Json>>>)
    requires AggregateKnown(q)
    ensures Partial(q, wheres, SelectComponents[..2]) == Ok(HeadOf(q))
  {
    var sc := SelectComponents;
    assert sc[..1][..0] == [] && sc[..1][0] == AggregateC;
    var withAggs := if q.aggregate.Some? then map["aggs" := CompileAggregate(q, q.aggregate.value)] else map[];
    assert Partial(q, wheres, sc[..1]) == Ok(withAggs);
    assert sc[..2][..1] == sc[..1] && sc[..2][1] == ColumnsC;
  }

  /** The from and joins components add nothing to the body. */
  lemma PartialHead(q: Query, wheres: Result<Option<map<string, Json>>>)
    requires AggregateKnown(q)
    ensures Partial(q, wheres, SelectComponents[..4]) == Ok(HeadOf(q))
  {
    var sc := SelectComponents;
    PartialAggregateColumns(q, wheres);
    assert sc[..3][..2] == sc[..2] && sc[..3][2] == FromC;
    assert Partial(q, wheres, sc[..3]) == Ok(HeadOf(q));
    assert sc[..4][..3] == sc[..3] && sc[..4][3] == JoinsC;
  }

  lemma PartialWheres(q: Query, wheres: Result<Option<map<string, Json>>>)
    requires AggregateKnown(q)
    ensures wheres.Err? ==> Partial(q, wheres, SelectComponents[..5]) == Err(wheres.error)
    ensures wheres.Ok? ==> Partial(q, wheres, SelectComponents[..5]) == Ok(WithWheres(HeadOf(q), wheres.value))
  {
    assert SelectComponents[..5][..4] == SelectComponents[..4];
    PartialHead(q, wheres);
  }

  /** Groups and havings are null; the orders become `sort`. */
  lemma PartialOrders(q: Query, wheres: Result<Option<map<string, Json>>>, sql: map<string, Json>)
    requires AggregateKnown(q)
    requires Partial(q, wheres, SelectComponents[..5]) == Ok(sql)
    ensures Partial(q, wheres, SelectComponents[..8]) == Ok(WithSort(q, sql))
  {
    var sc := SelectComponents;
    assert sc[..6][..5] == sc[..5];
    assert sc[..7][..6] == sc[..6];
    assert Partial(q, wheres, sc[..7]) == Ok(sql);
    assert sc[..8][..7] == sc[..7];
  }

  /** The limit becomes `size` and the offset `from`. */
  lemma PartialLimitOffset(q: Query, wheres: Result<Option<map<string, Json>>>, sql: map<string, Json>)
    requires AggregateKnown(q)
    requires Partial(q, wheres, SelectComponents[..8]) == Ok(sql)
    ensures Partial(q, wheres, SelectComponents[..10]) == Ok(WithPaging(q, sql))
  {
    var sc := SelectComponents;
    assert sc[..9][..8] == sc[..8];
    assert sc[..10][..9] == sc[..9];
  }

  lemma PartialTail(q: Query, wheres: Result<Option<map<string, Json>>>, sql: map<string, Json>)
    requires AggregateKnown(q)
    requires Partial(q, wheres, SelectComponents[..5]) == Ok(sql)
    ensures Partial(q, wheres, SelectComponents) == Ok(TailOf(q, sql))
  {
    var sc := SelectComponents;
    PartialOrders(q, wheres, sql);
    PartialLimitOffset(q, wheres, WithSort(q, sql));
    PartialLast(q, wheres, TailOf(q, sql));
  }

  /** Unions and lock are null. */
  lemma PartialLast(q: Query, wheres: Result<Option<map<string, Json>>>, sql: map<string, Json>)
    requires AggregateKnown(q)
    requires Partial(q, wheres, SelectComponents[..10]) == Ok(sql)
    ensures Partial(q, wheres, SelectComponents) == Ok(sql)
  {
    var sc := SelectComponents;
    assert sc[..11][..10] == sc[..10];
    assert sc[..12][..11] == sc[..11];
    assert sc[..|sc|] == sc;
  }

  /** A failure after `n` components is the failure of the whole visit. */
  lemma {:induction false} PartialExtendErr(q: Query, wheres: Result<Option<map<string, Json>>>, n: nat)
    requires AggregateKnown(q)
    requires n <= |SelectComponents|
    requires Partial(q, wheres, SelectComponents[..n]).Err?
    ensures Partial(q, wheres, SelectComponents) == Partial(q, wheres, SelectComponents[..n])
    decreases |SelectComponents| - n
  {
    if n == |SelectComponents| {
      assert SelectComponents[..n] == SelectComponents;
    } else {
      assert SelectComponents[..n + 1][..n] == SelectComponents[..n];
      PartialExtendErr(q, wheres, n + 1);
    }
  }

  /** The body of a search request: the folded component visit equals the reference, and it
      fails exactly when the where list fails to compile. */
  lemma SelectBodyIsBodyOf(q: Query)
    requires AggregateKnown(q)
    ensures CompiledWheres(q.from, Some(q.wheres)).Err? ==> SelectBody(q) == Err(CompiledWheres(q.from, Some(q.wheres)).error)
    ensures CompiledWheres(q.from, Some(q.wheres)).Ok? ==> SelectBody(q) == Ok(BodyOf(q, CompiledWheres(q.from, Some(q.wheres)).value))
  {
    var w := CompiledWheres(q.from, Some(q.wheres));
    PartialWheres(q, w);
    if w.Err? {
      PartialExtendErr(q, w, 5);
    } else {
      PartialTail(q, w, WithWheres(HeadOf(q), w.value));
    }
  }

  /** `compileComponents`: visits every component in order, compiles the non-null ones and
      stores every result that is not `false`. A where list that fails aborts the visit. */
  method CompileComponents(q: Query) returns (r: Result<map<string, Json>>)
    requires AggregateKnown(q)
    ensures r == SelectBody(q)
  {
    ghost var cw := CompiledWheres(q.from, Some(q.wheres));
    var sql: map<string, Json> := map[];
    var i := 0;
    while i < |SelectComponents|
      invariant 0 <= i <= |SelectComponents|
      invariant Partial(q, cw, SelectComponents[..i]) == Ok(sql)
    {
      var c := SelectComponents[i];
      var result := CompileComponent(q, c);
      if result.Err? {
        assert SelectComponents[..i + 1][..i] == SelectComponents[..i];
        PartialExtendErr(q, cw, i + 1);
        return Err(result.error);
      }
      if result.value.Some? {
        var name := SelectComponentsMapping[c];
        if name == "" {
          if result.value.value.JObj? {
            sql := sql + result.value.value.fields;
          }
        } else {
          sql := sql[name := result.value.value];
        }
      }
      assert SelectComponents[..i + 1][..i] == SelectComponents[..i];
      i := i + 1;
    }
    assert SelectComponents[..|SelectComponents|] == SelectComponents;
    return Ok(sql);
  }

  /** One step of `compileComponents`: `compile<Component>` on a non-null property, `None` for a
      null property or a `false` result. */
  method CompileComponent(q: Query, c: Component) returns (result: Result<Option<Json>>)
    requires AggregateKnown(q)
    ensures result == ComponentValue(q, CompiledWheres(q.from, Some(q.wheres)), c)
  {
    result := Ok(None);
    match c {
      case AggregateC =>
        if q.aggregate.Some? {
          result := Ok(Some(CompileAggregate(q, q.aggregate.value)));
        }
      case ColumnsC =>
        if q.columns.Some? {
          result := Ok(CompileColumns(q, q.columns.value));
        }
      case FromC =>
        if q.from.Some? {
          result := Ok(CompileFrom(q, q.from.value));
        }
      case WheresC =>
        var w := CompileWheres(q.from, Some(q.wheres));
        if w.Err? {
          return Err(w.error);
        }
        if w.value.Some? {
          result := Ok(Some(JObj(w.value.value)));
        }
      case OrdersC =>
        if q.orders.Some? {
          var sorts := CompileOrders(q.orders.value);
          result := Ok(Some(JList(sorts)));
        }
      case LimitC =>
        if q.limit.Some? {
          result := Ok(Some(JInt(q.limit.value)));
        }
      case OffsetC =>
        if q.offset.Some? {
          result := Ok(Some(JInt(q.offset.value)));
        }
      case _ =>
    }
  }
  /** The search request: `index` is the database, `type` the table, `body` the components. */
  function SearchRequest(q: Query, body: map<string, Json>): map<string, Json> {
    map["index" := JStr(q.database), "type" := StrOrNull(q.from), "body" := JObj(body)]
  }

  /** The builder as `compileSelect` compiles it: null columns read as the empty list. */
  function WithColumns(q: Query): Query {
    q.(columns := if q.columns.None? then Some([]) else q.columns)
  }

  /** `compileSelect`: compiles the components with null columns replaced by `[]`, then puts the
      columns back. When compiling throws, the replacement stays on the builder. */
  method CompileSelect(b: QueryBuilder) returns (r: Result<map<string, Json>>)
    requires AggregateKnown(b.Snapshot())
    modifies b
    ensures SelectBody(WithColumns(old(b.Snapshot()))).Err? ==>
      r == Err(SelectBody(WithColumns(old(b.Snapshot()))).error) && b.Snapshot() == WithColumns(old(b.Snapshot()))
    ensures SelectBody(WithColumns(old(b.Snapshot()))).Ok? ==>
      r == Ok(SearchRequest(old(b.Snapshot()), SelectBody(WithColumns(old(b.Snapshot()))).value)) && b.Snapshot() == old(b.Snapshot())
  {
    var original := b.columns;
    if b.columns.None? {
      b.columns := Some([]);
    }
    var sqls := CompileComponents(b.Snapshot());
    if sqls.Err? {
      return Err(sqls.error);
    }
    b.columns := original;
    return Ok(SearchRequest(b.Snapshot(), sqls.value));
  }

  // ---------------------------------------------------------------------------------------------
  // What the search body holds
  // ---------------------------------------------------------------------------------------------

  /** Only the single column `*` joins to `*`: any two or more columns put a comma in the join. */
  lemma JoinIsStar(columns: seq<string>)
    ensures Join(columns, ",") == "*" <==> columns == ["*"]
  {
    if |columns| >= 2 {
      var j := Join(columns, ",");
      assert j == columns[0] + "," + Join(columns[1..], ",");
      assert j[|columns[0]|] == ',';
    }
  }

  /** A compiled where list that is not `false` holds exactly `query` and `filter`. */
  lemma WheresKeys(q: Query)
    requires CompiledWheres(q.from, Some(q.wheres)).Ok? && CompiledWheres(q.from, Some(q.wheres)).value.Some?
    ensures CompiledWheres(q.from, Some(q.wheres)).value.value.Keys == {"query", "filter"}
  {
  }

  /** The keys the aggregate and columns components leave. */
  lemma HeadKeys(q: Query)
    requires AggregateKnown(q)
    ensures var head := HeadOf(q);
      && head.Keys <= {"aggs", "_source"}
      && ("aggs" in head <==> q.aggregate.Some?)
      && (q.aggregate.Some? ==> head["aggs"] == CompileAggregate(q, q.aggregate.value))
      && ("_source" in head <==> q.columns.Some? && q.aggregate.None?)
      && ("_source" in head ==> head["_source"] == CompileColumns(q, q.columns.value).value)
  {
  }

  /** The keys the orders, limit and offset components add; every other key is kept. */
  lemma TailKeys(q: Query, sql: map<string, Json>)
    ensures var tail := TailOf(q, sql);
      && tail.Keys == sql.Keys + (if q.orders.Some? then {"sort"} else {})
           + (if q.limit.Some? then {"size"} else {}) + (if q.offset.Some? then {"from"} else {})
      && (q.orders.Some? ==> tail["sort"] == JList(Sorts(q.orders.value)))
      && (q.limit.Some? ==> tail["size"] == JInt(q.limit.value))
      && (q.offset.Some? ==> tail["from"] == JInt(q.offset.value))
      && (forall k :: k in sql && k != "sort" && k != "size" && k != "from" ==> tail[k] == sql[k])
  {
  }

  /** Which keys the reference body holds, and what each is: `aggs` for an aggregate, `_source`
      for columns unless an aggregate is compiled, `query` and `filter` from the where list,
      `sort`, `size` and `from` for orders, limit and offset. The table never enters the body:
      `from` is the offset. */
  lemma BodyKeys(q: Query, w: Option<map<string, Json>>)
    requires AggregateKnown(q)
    requires w.Some? ==> w.value.Keys == {"query", "filter"}
    ensures var body := BodyOf(q, w);
      && body.Keys <= {"aggs", "_source", "query", "filter", "sort", "size", "from"}
      && ("aggs" in body <==> q.aggregate.Some?)
      && (q.aggregate.Some? ==> body["aggs"] == CompileAggregate(q, q.aggregate.value))
      && ("_source" in body <==> q.columns.Some? && q.aggregate.None?)
      && ("_source" in body ==> body["_source"] == CompileColumns(q, q.columns.value).value)
      && ("query" in body <==> w.Some?) && ("filter" in body <==> w.Some?)
      && (w.Some? ==> body["query"] == w.value["query"] && body["filter"] == w.value["filter"])
      && ("sort" in body <==> q.orders.Some?)
      && (q.orders.Some? ==> body["sort"] == JList(Sorts(q.orders.value)))
      && ("size" in body <==> q.limit.Some?)
      && (q.limit.Some? ==> body["size"] == JInt(q.limit.value))
      && ("from" in body <==> q.offset.Some?)
      && (q.offset.Some? ==> body["from"] == JInt(q.offset.value))
  {
    HeadKeys(q);
    var mid := WithWheres(HeadOf(q), w);
    assert mid.Keys <= {"aggs", "_source", "query", "filter"};
    TailKeys(q, mid);
  }

  /** The search body `compileComponents` produces has the keys `BodyKeys` describes, with the
      where list's own `query` and `filter`. */
  lemma SelectBodyKeys(q: Query)
    requires AggregateKnown(q)
    requires SelectBody(q).Ok?
    ensures CompiledWheres(q.from, Some(q.wheres)).Ok?
    ensures SelectBody(q).value == BodyOf(q, CompiledWheres(q.from, Some(q.wheres)).value)
    ensures CompiledWheres(q.from, Some(q.wheres)).value.Some? ==>
      CompiledWheres(q.from, Some(q.wheres)).value.value.Keys == {"query", "filter"}
  {
    SelectBodyIsBodyOf(q);
    if CompiledWheres(q.from, Some(q.wheres)).value.Some? {
      WheresKeys(q);
    }
  }

  /** A search request over a builder without columns asks for `_source: []`, unless it
      compiles an aggregate. */
  lemma SelectNullColumns(q: Query)
    requires AggregateKnown(q)
    requires q.columns.None? && q.aggregate.None?
    requires SelectBody(WithColumns(q)).Ok?
    ensures "_source" in SelectBody(WithColumns(q)).value
    ensures SelectBody(WithColumns(q)).value["_source"] == JList([])
  {
    SelectBodyKeys(WithColumns(q));
    BodyKeys(WithColumns(q), CompiledWheres(q.from, Some(q.wheres)).value);
  }

  /** The search an `aggregate` call runs (the builder state `Builder.QueryBuilder.Aggregate`
      hands to the select) asks for the aggregation only: `aggs` is present, `_source` is not,
      and `size` is 1. */
  lemma AggregateSearch(q: Query, fn: string, columns: seq<string>)
    requires fn in AggregateMapping
    requires var ran := q.(aggregate := Some(AggregateCall(fn, columns)), selectBindings := [], limit := Some(1),
                           columns := if q.columns.None? then Some(columns) else q.columns);
      SelectBody(WithColumns(ran)).Ok?
    ensures var ran := q.(aggregate := Some(AggregateCall(fn, columns)), selectBindings := [], limit := Some(1),
                          columns := if q.columns.None? then Some(columns) else q.columns);
      var body := SelectBody(WithColumns(ran)).value;
      && "aggs" in body && body["aggs"] == CompileAggregate(ran, AggregateCall(fn, columns))
      && "_source" !in body
      && "size" in body && body["size"] == JInt(1)
  {
    var ran := q.(aggregate := Some(AggregateCall(fn, columns)), selectBindings := [], limit := Some(1),
                  columns := if q.columns.None? then Some(columns) else q.columns);
    SelectBodyKeys(WithColumns(ran));
    BodyKeys(WithColumns(ran), CompiledWheres(ran.from, Some(ran.wheres)).value);
  }
}
