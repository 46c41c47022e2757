/** The query builder (Elasticsearch/Query/Builder.php): the state the grammar reads, and the
    builder methods this package defines on top of the relational base builder. */
module Builder {
  import opened Wrappers
  import opened Wire
  import opened Strings

  /** One entry of the builder's `wheres` list. The record's `type` string is `TypeName()`.
      `boolean` is kept as the caller's string: the compiler lower-cases it in one place and
      compares it exactly in another. */
  datatype Where =
    | Basic(column: string, operator: string, value: Json, boolean: string)
    | MultiMatch(columns: seq<string>, operator: string, opParam: string, value: Json, boolean: string)
    | In(column: string, values: seq<Json>, boolean: string)
    | NotIn(column: string, values: seq<Json>, boolean: string)
    | Null(column: string, boolean: string)
    | NotNull(column: string, boolean: string)
      /** A parenthesised group: the nested builder's table and its own where list (a nested
          builder always has a list, possibly empty). */
    | Nested(from: Option<string>, wheres: seq<Where>, boolean: string)
      /** A record whose `type` names no `where*` method of the grammar. A type that spells a
          known one in another letter case (`basic`, `NULL`) is outside this model: PHP's
          case-insensitive method lookup would call that method, while the model fails with
          `where<type>`. */
    | Other(typeName: string, boolean: string)
  {
    /** The record's `type` field. */
    function TypeName(): string {
      match this
      case Basic(_, _, _, _) => "Basic"
      case MultiMatch(_, _, _, _, _) => "MultiMatch"
      case In(_, _, _) => "In"
      case NotIn(_, _, _) => "NotIn"
      case Null(_, _) => "Null"
      case NotNull(_, _) => "NotNull"
      case Nested(_, _, _) => "Nested"
      case Other(t, _) => t
    }
  }

  /** An `orders` entry. */
  datatype Order = Order(column: string, direction: string)

  /** The `aggregate` property: `compact('function', 'columns')`. */
  datatype AggregateCall = AggregateCall(fn: string, columns: seq<string>)

  /** The argument of `stats`: a single column name or an array of them. */
  datatype ColumnArg = Column(name: string) | Columns(names: seq<string>)

  /** Everything of a builder that the grammar reads. `database` is the connection's database
      name, used as the request's `index`. */
  datatype Query = Query(
    database: string,
    from: Option<string>,
    keyname: Option<string>,
    wheres: seq<Where>,
    columns: Option<seq<string>>,
    aggregate: Option<AggregateCall>,
    orders: Option<seq<Order>>,
    limit: Option<int>,
    offset: Option<int>,
    selectBindings: seq<Json>)

  /** The primary key name `from` uses when none is given. */
  const DefaultKeyName: string := "_id"

  /** The `operator` field of a multi-match record: `minimum_should_match` when the FIRST `%` of
      the operator string stands after its first character (`strpos($operator, '%') > 0`),
      `operator` otherwise (no `%`, or a leading one). */
  function MatchKey(operator: string): (key: string)
    ensures key == "minimum_should_match" || key == "operator"
    ensures key == "minimum_should_match" <==>
      exists p :: 0 < p < |operator| && operator[p] == '%' && '%' !in operator[..p]
  {
    match IndexOf(operator, '%')
    case Some(p) =>
      if p > 0 then "minimum_should_match"
      else
        assert forall q :: 0 < q < |operator| && operator[q] == '%' ==> '%' in operator[..q] by {
          forall q | 0 < q < |operator| && operator[q] == '%'
            ensures '%' in operator[..q]
          {
            assert operator[..q][0] == '%';
          }
        }
        "operator"
    case None => "operator"
  }

  lemma MatchKeyExamples()
    ensures MatchKey("80%") == "minimum_should_match"
    ensures MatchKey("and") == "operator"
    ensures MatchKey("%80") == "operator"
  {
    assert "80%"[2] == '%' && '%' !in "80%"[..2];
    assert "and"[0] != '%' && "and"[1] != '%' && "and"[2] != '%';
  }

  /** `stats` wraps a scalar column into a one-element list. */
  function StatsColumns(arg: ColumnArg): (cols: seq<string>)
    ensures arg.Column? ==> cols == [arg.name]
    ensures arg.Columns? ==> cols == arg.names
  {
    match arg
    case Column(c) => [c]
    case Columns(cs) => cs
  }

  class QueryBuilder {
    const database: string
    var from: Option<string>
    var keyname: Option<string>
    var wheres: seq<Where>
    var columns: Option<seq<string>>
    var aggregate: Option<AggregateCall>
    var orders: Option<seq<Order>>
    var limit: Option<int>
    var offset: Option<int>
    /** `bindings['select']`. */
    var selectBindings: seq<Json>

    function Snapshot(): Query
      reads this
    {
      Query(database, from, keyname, wheres, columns, aggregate, orders, limit, offset, selectBindings)
    }

    /** A fresh builder on a connection to `database`: no table, no key name, no clauses. */
    constructor (database: string)
      ensures Snapshot() == Query(database, None, None, [], None, None, None, None, None, [])
    {
      this.database := database;
      from, keyname, wheres, columns, aggregate := None, None, [], None, None;
      orders, limit, offset, selectBindings := None, None, None, [];
    }

    /** `from($table, $primaryKeyName = '_id')`. */
    method From(table: string, primaryKeyName: string := DefaultKeyName)
      modifies this
      ensures Snapshot() == old(Snapshot()).(from := Some(table), keyname := Some(primaryKeyName))
    {
      from := Some(table);
      keyname := Some(primaryKeyName);
    }

    /** The join family always throws and changes nothing (no `modifies` clause). */
    method Join(table: string, one: string, operator: string, two: string, joinType: string := "inner")
      returns (err: Error)
      ensures err == Unsupported("join")
    {
      err := Unsupported("join");
    }

    method JoinWhere(table: string, one: string, operator: string, two: string, joinType: string := "inner")
      returns (err: Error)
      ensures err == Unsupported("joinWhere")
    {
      err := Unsupported("joinWhere");
    }

    method LeftJoin(table: string, first: string, operator: string, second: string)
      returns (err: Error)
      ensures err == Unsupported("leftJoin")
    {
      err := Unsupported("leftJoin");
    }

    method LeftJoinWhere(table: string, one: string, operator: string, two: string)
      returns (err: Error)
      ensures err == Unsupported("leftJoinWhere")
    {
      err := Unsupported("leftJoinWhere");
    }

    method RightJoin(table: string, first: string, operator: string, second: string)
      returns (err: Error)
      ensures err == Unsupported("rightJoin")
    {
      err := Unsupported("rightJoin");
    }

    method CrossJoin(table: string, first: string, operator: string, second: string)
      returns (err: Error)
      ensures err == Unsupported("crossJoin")
    {
      err := Unsupported("crossJoin");
    }

    /** `whereMultiMatch(array $columns, $value, $operator = 'and', $boolean = 'and')`: appends one
        record and keeps the caller's operator string as `op_param`. */
    method WhereMultiMatch(columns: seq<string>, value: Json, operator: string := "and", boolean: string := "and")
      modifies this
      ensures Snapshot() == old(Snapshot()).(wheres := old(wheres) + [MultiMatch(columns, MatchKey(operator), operator, value, boolean)])
    {
      var opParam := operator;
      var key := MatchKey(operator);
      wheres := wheres + [MultiMatch(columns, key, opParam, value, boolean)];
    }

    /** `whereNull($column, $boolean = 'and', $not = false)`: appends one record and touches
        nothing else. */
    method WhereNull(column: string, boolean: string := "and", negate: bool := false)
      modifies this
      ensures Snapshot() == old(Snapshot()).(wheres := old(wheres) + [if negate then NotNull(column, boolean) else Null(column, boolean)])
    {
      var w := if negate then NotNull(column, boolean) else Null(column, boolean);
      wheres := wheres + [w];
    }

    /** `offset($value)`: stores `max(0, $value)`. */
    method Offset(value: int)
      modifies this
      ensures Snapshot() == old(Snapshot()).(offset := Some(if value < 0 then 0 else value))
      ensures offset.value >= 0
    {
      offset := Some(if 0 < value then value else 0);
    }

    /** `getAggregate($columns = ['*'])`: substitutes `columns` only when the builder has none, runs the
        select, and restores the builder's own columns. `run` stands for what
        `processSelectAggregate($this, $this->runSelect())` returns or throws; `ran` is the
        builder state that run sees. When the run throws, the restore is skipped. */
    method GetAggregate(run: Result<Json>, columns: seq<string> := ["*"]) returns (r: Result<Json>, ghost ran: Query)
      modifies this
      ensures ran == old(Snapshot()).(columns := if old(this.columns).None? then Some(columns) else old(this.columns))
      ensures r == run
      ensures run.Ok? ==> Snapshot() == old(Snapshot())
      ensures run.Err? ==> Snapshot() == ran
    {
      var original := this.columns;
      if original.None? {
        this.columns := Some(columns);
      }
      ran := Snapshot();
      if run.Err? {
        return run, ran;
      }
      var results := run.value;
      this.columns := original;
      r := Ok(results);
    }

    /** `aggregate($function, $columns = ['*'])`: records the aggregate, saves columns and select
        bindings, empties the bindings, sets limit 1, runs, then clears the aggregate and restores
        columns and bindings (limit stays 1). A `stats` call returns the whole `aggregate` entry of
        the results, every other function its `value`. When the run throws nothing is restored. */
    method Aggregate(run: Result<Json>, fn: string, columns: seq<string> := ["*"]) returns (r: Result<Json>, ghost ran: Query)
      modifies this
      ensures ran == old(Snapshot()).(
        aggregate := Some(AggregateCall(fn, columns)),
        selectBindings := [],
        limit := Some(1),
        columns := if old(this.columns).None? then Some(columns) else old(this.columns))
      ensures r.Ok? <==> run.Ok?
      ensures run.Ok? ==> Snapshot() == old(Snapshot()).(limit := Some(1), aggregate := None)
      ensures run.Ok? ==> r.value == (if fn != "stats" then Get(Get(run.value, "aggregate"), "value") else Get(run.value, "aggregate"))
      ensures run.Err? ==> r == run && Snapshot() == ran
    {
      aggregate := Some(AggregateCall(fn, columns));
      var previousColumns := this.columns;
      var previousSelectBindings := selectBindings;
      selectBindings := [];
      limit := Some(1);
      var results;
      results, ran := GetAggregate(run, columns);
      if results.Err? {
        return results, ran;
      }
      aggregate := None;
      this.columns := previousColumns;
      selectBindings := previousSelectBindings;
      if fn != "stats" {
        r := Ok(Get(Get(results.value, "aggregate"), "value"));
      } else {
        r := Ok(Get(results.value, "aggregate"));
      }
    }

    /** `stats($columns = '*')`. */
    method Stats(run: Result<Json>, columns: ColumnArg := Column("*")) returns (r: Result<Json>, ghost ran: Query)
      modifies this
      ensures ran == old(Snapshot()).(
        aggregate := Some(AggregateCall("stats", StatsColumns(columns))),
        selectBindings := [],
        limit := Some(1),
        columns := if old(this.columns).None? then Some(StatsColumns(columns)) else old(this.columns))
      ensures r.Ok? <==> run.Ok?
      ensures run.Ok? ==> Snapshot() == old(Snapshot()).(limit := Some(1), aggregate := None)
      ensures run.Ok? ==> r.value == Get(run.value, "aggregate")
      ensures run.Err? ==> r == run && Snapshot() == ran
    {
      r, ran := Aggregate(run, "stats", StatsColumns(columns));
    }
  }
}
