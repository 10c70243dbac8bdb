/** The SQL query builder: `QueryBuilder` accumulates the parts of a
    `Query` call by call, and `Query.execute` renders them into one
    SELECT statement. */
module QueryBuilder {
  import opened Wrappers
  import opened Strings

  datatype Direction = Asc | Desc

  function DirectionName(d: Direction): string {
    match d
    case Asc => "ASC"
    case Desc => "DESC"
  }

  /** A `Query`; `limitCount` is None until `limit` is called. */
  datatype Query = Query(
    table: string,
    fields: seq<string>,
    conditions: seq<string>,
    orderFields: seq<string>,
    limitCount: Option<int>)

  /** `new QueryBuilder(table)`: nothing selected, filtered, ordered or limited. */
  function NewBuilder(table: string): Query {
    Query(table, [], [], [], None)
  }

  /** `select(...fields)`: replaces the field list. */
  function Select(q: Query, fields: seq<string>): (r: Query)
    ensures r.fields == fields
    ensures r.(fields := q.fields) == q
  {
    q.(fields := fields)
  }

  /** `where(condition)`: appends one condition. */
  function Where(q: Query, condition: string): (r: Query)
    ensures r.conditions == q.conditions + [condition]
    ensures r.(conditions := q.conditions) == q
  {
    q.(conditions := q.conditions + [condition])
  }

  /** `orderBy(field, direction = "ASC")`: appends "field direction". */
  function OrderBy(q: Query, field: string, direction: Direction := Asc): (r: Query)
    ensures r.orderFields == q.orderFields + [field + " " + DirectionName(direction)]
    ensures r.(orderFields := q.orderFields) == q
  {
    q.(orderFields := q.orderFields + [field + " " + DirectionName(direction)])
  }

  /** `limit(count)`: replaces any earlier limit. */
  function Limit(q: Query, count: int): (r: Query)
    ensures r.limitCount == Some(count)
    ensures r.(limitCount := q.limitCount) == q
  {
    q.(limitCount := Some(count))
  }

  /** The field list: "*" when none were selected. */
  /** The field list: comma-joined, or `*` when no field was selected. */
  function FieldsPart(fields: seq<string>): (r: string)
    ensures |fields| == 0 ==> r == "*"
    ensures |fields| == 1 ==> r == fields[0]
    ensures |fields| > 1 ==> r == fields[0] + ", " + FieldsPart(fields[1..])
  {
    if |fields| > 0 then Join(fields, ", ") else "*"
  }

  /** The WHERE clause: empty iff there is no condition. */
  function WherePart(conditions: seq<string>): (r: string)
    ensures r == "" <==> |conditions| == 0
    ensures |conditions| > 0 ==> |r| >= 6 && r[..6] == "WHERE " && r[6..] == Join(conditions, " AND ")
  {
    if |conditions| > 0 then "WHERE " + Join(conditions, " AND ") else ""
  }

  /** The ORDER BY clause: empty iff there is no order field. */
  function OrderPart(orderFields: seq<string>): (r: string)
    ensures r == "" <==> |orderFields| == 0
    ensures |orderFields| > 0 ==> |r| >= 9 && r[..9] == "ORDER BY " && r[9..] == Join(orderFields, ", ")
  {
    if |orderFields| > 0 then "ORDER BY " + Join(orderFields, ", ") else ""
  }

  /** The limit is emitted only for a truthy count, so 0 emits nothing. */
  function LimitPart(limitCount: Option<int>): (r: string)
    ensures r == "" <==> limitCount.None? || limitCount.value == 0
    ensures r != "" ==> |r| >= 6 && r[..6] == "LIMIT " && r[6..] == IntToString(limitCount.value)
  {
    if limitCount.Some? && limitCount.value != 0 then "LIMIT " + IntToString(limitCount.value) else ""
  }

  /** `execute`: the statement text. The seven parts are separated by single
      spaces even when a part is empty, and a semicolon closes it. */
  function Execute(q: Query): (r: string)
    ensures |r| > 7 && r[..7] == "SELECT "
    ensures r[|r| - 1] == ';'
    ensures r == Join(["SELECT", FieldsPart(q.fields), "FROM", q.table,
                       WherePart(q.conditions), OrderPart(q.orderFields), LimitPart(q.limitCount)], " ") + ";"
  {
    var r := "SELECT " + FieldsPart(q.fields) + " FROM " + q.table + " " + WherePart(q.conditions)
      + " " + OrderPart(q.orderFields) + " " + LimitPart(q.limitCount) + ";";
    ExecuteIsSpaceJoined(q, r);
    r
  }

  /** Seven parts joined with a separator, written out. */
  lemma JoinSeven(a: string, b: string, c: string, d: string, e: string, f: string, g: string, sep: string)
    ensures Join([a, b, c, d, e, f, g], sep) == a + sep + b + sep + c + sep + d + sep + e + sep + f + sep + g
  {
    assert [f, g] == [f] + [g];
    JoinCons(f, [g], sep);
    assert [e, f, g] == [e] + [f, g];
    JoinCons(e, [f, g], sep);
    assert [d, e, f, g] == [d] + [e, f, g];
    JoinCons(d, [e, f, g], sep);
    assert [c, d, e, f, g] == [c] + [d, e, f, g];
    JoinCons(c, [d, e, f, g], sep);
    assert [b, c, d, e, f, g] == [b] + [c, d, e, f, g];
    JoinCons(b, [c, d, e, f, g], sep);
    assert [a, b, c, d, e, f, g] == [a] + [b, c, d, e, f, g];
    JoinCons(a, [b, c, d, e, f, g], sep);
  }

  /** The template literal equals the seven parts joined with single spaces. */
  lemma ExecuteIsSpaceJoined(q: Query, r: string)
    requires r == "SELECT " + FieldsPart(q.fields) + " FROM " + q.table + " " + WherePart(q.conditions)
      + " " + OrderPart(q.orderFields) + " " + LimitPart(q.limitCount) + ";"
    ensures r == Join(["SELECT", FieldsPart(q.fields), "FROM", q.table,
                       WherePart(q.conditions), OrderPart(q.orderFields), LimitPart(q.limitCount)], " ") + ";"
  {
    var f, w, o, l := FieldsPart(q.fields), WherePart(q.conditions), OrderPart(q.orderFields), LimitPart(q.limitCount);
    JoinSeven("SELECT", f, "FROM", q.table, w, o, l, " ");
    assert "SELECT" + " " == "SELECT ";
    assert "SELECT " + f + " " + "FROM" + " " == "SELECT " + f + " FROM ";
  }

  /** Conditions render in call order: one more `where` extends the WHERE
      part with " AND " and the new condition, or starts it. */
  lemma WhereAccumulates(q: Query, condition: string)
    ensures WherePart(Where(q, condition).conditions) ==
      if |q.conditions| == 0 then "WHERE " + condition
      else WherePart(q.conditions) + " AND " + condition
  {
    if |q.conditions| > 0 {
      JoinSnoc(q.conditions, condition, " AND ");
    }
  }

  /** Ordering entries render in call order, separated by ", ". */
  lemma OrderAccumulates(q: Query, field: string, direction: Direction)
    ensures OrderPart(OrderBy(q, field, direction).orderFields) ==
      if |q.orderFields| == 0 then "ORDER BY " + field + " " + DirectionName(direction)
      else OrderPart(q.orderFields) + ", " + field + " " + DirectionName(direction)
  {
    if |q.orderFields| > 0 {
      JoinSnoc(q.orderFields, field + " " + DirectionName(direction), ", ");
    }
  }

  /** `limit(0)` renders like no limit at all; a later `limit` or `select`
      overrides an earlier one. */
  lemma LimitAndSelectLaws(q: Query, a: int, b: int, f: seq<string>, g: seq<string>)
    ensures Execute(Limit(q, 0)) == Execute(q.(limitCount := None))
    ensures Limit(Limit(q, a), b) == Limit(q, b)
    ensures Select(Select(q, f), g) == Select(q, g)
  {
  }

  /** A fresh builder renders "SELECT * FROM t" followed by three spaces
      (the empty WHERE, ORDER BY and LIMIT parts) and the semicolon. */
  lemma EmptyQuery(table: string)
    ensures Execute(NewBuilder(table)) == "SELECT * FROM " + table + "   ;"
  {
  }

  /** The demo's builder chain: three fields, two conditions, one ordering, limit 10. */
  const DemoQuery: Query :=
    Limit(
      OrderBy(
        Where(Where(Select(NewBuilder("users"), ["id", "name", "email"]), "age > 18"), "country = 'Cri'"),
        "name", Asc),
      10)

  /** What the demo's builder calls accumulate. */
  lemma DemoFields()
    ensures DemoQuery.table == "users"
    ensures DemoQuery.fields == ["id", "name", "email"]
    ensures DemoQuery.conditions == ["age > 18", "country = 'Cri'"]
    ensures DemoQuery.orderFields == ["name ASC"]
    ensures DemoQuery.limitCount == Some(10)
  {
    assert "name" + " " + DirectionName(Asc) == "name ASC";
  }

  /** The four rendered parts of the demo query. */
  lemma DemoParts()
    ensures FieldsPart(DemoQuery.fields) == "id, name, email"
    ensures WherePart(DemoQuery.conditions) == "WHERE age > 18 AND country = 'Cri'"
    ensures OrderPart(DemoQuery.orderFields) == "ORDER BY name ASC"
    ensures LimitPart(DemoQuery.limitCount) == "LIMIT 10"
  {
    DemoFields();
    DemoWhereRendered();
    assert IntToString(10) == "10" by {
      assert NatToString(10) == NatToString(1) + [DigitChar(0)];
    }
  }

  /** The demo's two conditions rendered as one clause. */
  lemma DemoWhereRendered()
    ensures WherePart(["age > 18", "country = 'Cri'"]) == "WHERE age > 18 AND country = 'Cri'"
  {
  }

  /** Execute in terms of already-rendered parts. */
  lemma ExecuteFromParts(q: Query, f: string, w: string, o: string, l: string)
    requires FieldsPart(q.fields) == f && WherePart(q.conditions) == w
    requires OrderPart(q.orderFields) == o && LimitPart(q.limitCount) == l
    ensures Execute(q) == "SELECT " + f + " FROM " + q.table + " " + w + " " + o + " " + l + ";"
  {
  }

  // The demo statement, assembled one template part at a time (long string
  // literals are costly for the solver, so each step is its own lemma).

  lemma DemoSelectFrom()
    ensures "SELECT " + "id, name, email" + " FROM " + "users" == "SELECT id, name, email FROM users"
  {
  }

  lemma DemoWhere()
    ensures "SELECT id, name, email FROM users" + " " + "WHERE age > 18 AND country = 'Cri'"
      == "SELECT id, name, email FROM users WHERE age > 18 AND country = 'Cri'"
  {
  }

  lemma DemoOrder()
    ensures "SELECT id, name, email FROM users WHERE age > 18 AND country = 'Cri'" + " " + "ORDER BY name ASC"
      == "SELECT id, name, email FROM users WHERE age > 18 AND country = 'Cri' ORDER BY name ASC"
  {
  }

  lemma DemoLimit()
    ensures "SELECT id, name, email FROM users WHERE age > 18 AND country = 'Cri' ORDER BY name ASC" + " " + "LIMIT 10" + ";"
      == "SELECT id, name, email FROM users WHERE age > 18 AND country = 'Cri' ORDER BY name ASC LIMIT 10;"
  {
  }

  /** The demo query renders to the expected statement. */
  lemma DemoScenario()
    ensures Execute(DemoQuery)
      == "SELECT id, name, email FROM users WHERE age > 18 AND country = 'Cri' ORDER BY name ASC LIMIT 10;"
  {
    DemoParts();
    assert DemoQuery.table == "users";
    ExecuteFromParts(DemoQuery, "id, name, email", "WHERE age > 18 AND country = 'Cri'", "ORDER BY name ASC", "LIMIT 10");
    DemoSelectFrom();
    DemoWhere();
    DemoOrder();
    DemoLimit();
  }
}
