/**
 Filter pushdown and paging of decoded events (cmd/gt-mcp/filter_pushdown.go:31-100,
 cmd/gt-mcp/main.go:1568-1627, pkg/store/event_page.go:27-123).
 */
module FilterPaging {
  import opened Util

  const BATCH: nat := 500

  datatype Operator = Eq | Ne

  /** An operand of a comparison: an identifier, a string constant, or anything else. */
  datatype Operand = Ident(name: string) | Text(value: string) | Term(id: nat)

  /** The parsed filter. `Other` stands for every node that is neither a conjunction nor a comparison. */
  datatype Expr = And(left: Expr, right: Expr) | Compare(op: Operator, lhs: Operand, rhs: Operand) | Other(id: nat)

  /** An event row, newest first in every list; `protocol` is both the SQL type column and the variable. */
  datatype Row = Row(id: nat, protocol: string)

  /** A value that is no boolean and an evaluation error both fail to match. */
  datatype Outcome = Yes | No | NotBool | Failure

  /** The evaluator's verdict on the nodes whose meaning is not modelled. */
  type Oracle = (Expr, Row) -> Outcome

  function Verdict(b: bool): Outcome { if b then Yes else No }

  /** protocolComparison and constantPair: the operator and constant, the constant on either side. */
  function Comparison(e: Expr): Option<(Operator, string)> {
    match e
    case Compare(op, Ident(name), Text(value)) => if name == "protocol" then Some((op, value)) else None
    case Compare(op, Text(value), Ident(name)) => if name == "protocol" then Some((op, value)) else None
    case _ => None
  }

  /** What an operand stands for in a row; absent for anything but the protocol and a string constant. */
  function Meaning(x: Operand, row: Row): Option<string> {
    match x
    case Ident(name) => if name == "protocol" then Some(row.protocol) else None
    case Text(value) => Some(value)
    case Term(_) => None
  }

  /** The expression language: && needs a boolean on its left and yields its right side if that is true; a
      comparison compares what its operands stand for. Everything else is the oracle's. */
  function Eval(e: Expr, row: Row, o: Oracle): Outcome {
    match e
    case And(l, r) =>
      (match Eval(l, row, o)
       case Yes => Eval(r, row, o)
       case No => No
       case _ => Failure)
    case Compare(op, l, r) =>
      var x, y := Meaning(l, row), Meaning(r, row);
      if x.None? || y.None? then o(e, row)
      else if op.Eq? then Verdict(x == y)
      else Verdict(x != y)
    case Other(_) => o(e, row)
  }

  /** What is taken for a comparison of the protocol with a constant is one: it has exactly the protocol on
      one side and a string constant on the other, and its value is that of the comparison it names. */
  lemma ComparisonMeans(e: Expr, row: Row, o: Oracle)
    ensures Comparison(e).Some? <==>
              e.Compare? && ((e.lhs == Ident("protocol") && e.rhs.Text?) || (e.rhs == Ident("protocol") && e.lhs.Text?))
    ensures Comparison(e).Some? ==>
              var (op, v) := Comparison(e).value;
              && op == e.op && v == (if e.lhs.Text? then e.lhs.value else e.rhs.value)
              && Eval(e, row, o) == if (if op.Eq? then row.protocol == v else row.protocol != v) then Yes else No
  {}

  predicate Matches(e: Expr, row: Row, o: Oracle) { Eval(e, row, o).Yes? }

  // ---------- The pushed-down predicate ----------

  datatype Pushdown = Pushdown(typeEq: string, typeNot: string, pure: bool)

  function Conjuncts(e: Expr): seq<Expr> {
    if e.And? then Conjuncts(e.left) + Conjuncts(e.right) else [e]
  }

  /** eventPageWhere: an empty constant is no condition. */
  predicate Admitted(pd: Pushdown, row: Row) {
    if pd.typeEq != "" then row.protocol == pd.typeEq
    else if pd.typeNot != "" then row.protocol != pd.typeNot
    else true
  }

  function Claim(c: (Operator, string)): Pushdown {
    if c.0.Eq? then Pushdown(c.1, "", false) else Pushdown("", c.1, false)
  }

  /** The conditions of the first comparison with a non-empty constant, and whether all are comparisons. */
  function Parsed(cs: seq<Expr>): Pushdown {
    if cs == [] then Pushdown("", "", true)
    else
      var front, c := Parsed(cs[..|cs| - 1]), Comparison(cs[|cs| - 1]);
      if c.None? then front.(pure := false)
      else if front.typeEq == "" && front.typeNot == "" then Claim(c.value).(pure := front.pure)
      else front
  }

  /** A comparison with a constant that is not empty. */
  predicate Usable(c: Expr) { Comparison(c).Some? && Comparison(c).value.1 != "" }

  /** What is pushed down is the first usable comparison, and nothing if there is none. */
  lemma {:induction false} FirstIsPushed(cs: seq<Expr>, i: nat)
    requires i <= |cs| && (forall j :: 0 <= j < i ==> !Usable(cs[j])) && (i < |cs| ==> Usable(cs[i]))
    ensures var pd := Parsed(cs);
            if i == |cs| then pd.typeEq == "" && pd.typeNot == ""
            else
              var (op, v) := Comparison(cs[i]).value;
              if op.Eq? then pd.typeEq == v && pd.typeNot == "" else pd.typeEq == "" && pd.typeNot == v
    ensures Parsed(cs).pure <==> forall c :: c in cs ==> Comparison(c).Some?
  {
    if cs != [] {
      var n := |cs| - 1;
      FirstIsPushed(cs[..n], if i < n then i else n);
      assert cs == cs[..n] + [cs[n]];
    }
  }

  function PushdownOf(e: Expr): Pushdown {
    var pd := Parsed(Conjuncts(e));
    pd.(pure := pd.pure && |Conjuncts(e)| <= 1)
  }

  method ParseFilterPushdown(e: Expr) returns (pd: Pushdown)
    ensures pd == PushdownOf(e)
  {
    var conjuncts := Conjuncts(e);
    var typeEq, typeNot, pure := "", "", true;
    for i := 0 to |conjuncts|
      invariant Pushdown(typeEq, typeNot, pure) == Parsed(conjuncts[..i])
    {
      assert conjuncts[..i + 1][..i] == conjuncts[..i];
      var c := Comparison(conjuncts[i]);
      if c.None? {
        pure := false;
      } else if typeEq == "" && typeNot == "" {
        if c.value.0.Eq? { typeEq := c.value.1; } else { typeNot := c.value.1; }
      }
    }
    assert conjuncts[..|conjuncts|] == conjuncts;
    return Pushdown(typeEq, typeNot, pure && |conjuncts| <= 1);
  }

  lemma {:induction false} AllConjunctsHold(e: Expr, row: Row, o: Oracle)
    ensures Matches(e, row, o) <==> forall c :: c in Conjuncts(e) ==> Matches(c, row, o)
  {
    if e.And? {
      AllConjunctsHold(e.left, row, o);
      AllConjunctsHold(e.right, row, o);
    } else {
      assert e in Conjuncts(e);
    }
  }

  lemma {:induction false} ParsedImplied(cs: seq<Expr>, row: Row, o: Oracle)
    requires forall c :: c in cs ==> c.And? || Matches(c, row, o)
    ensures Admitted(Parsed(cs), row)
  {
    if cs != [] {
      var front := cs[..|cs| - 1];
      ParsedImplied(front, row, o);
      assert cs[|cs| - 1] in cs;
    }
  }

  /** Pushing down never loses a match: every row the filter accepts satisfies the SQL predicate. */
  lemma PushdownKeepsMatches(e: Expr, row: Row, o: Oracle)
    requires Matches(e, row, o)
    ensures Admitted(PushdownOf(e), row)
  {
    AllConjunctsHold(e, row, o);
    ParsedImplied(Conjuncts(e), row, o);
  }

  /** A filter is pure exactly if it is a single comparison. */
  lemma PureIsComparison(e: Expr)
    ensures PushdownOf(e).pure <==> Comparison(e).Some?
    ensures Comparison(e).Some? ==> PushdownOf(e) == Claim(Comparison(e).value).(pure := true)
  {
    if e.And? {
      ConjunctsNonEmpty(e.left);
      ConjunctsNonEmpty(e.right);
    } else {
      var cs := Conjuncts(e);
      assert cs == [e] && cs[|cs| - 1] == e && cs[..|cs| - 1] == [];
      assert Parsed([]) == Pushdown("", "", true);
    }
  }

  lemma {:induction false} ConjunctsNonEmpty(e: Expr)
    ensures |Conjuncts(e)| >= 1
  {
    if e.And? { ConjunctsNonEmpty(e.left); }
  }

  /** A pure filter is its SQL predicate exactly if the constant is not empty: an empty one leaves no
      predicate at all. */
  lemma PureExact(e: Expr, o: Oracle)
    requires Comparison(e).Some?
    ensures PushdownOf(e).pure
    ensures (forall row: Row :: Matches(e, row, o) <==> Admitted(PushdownOf(e), row)) <==> Comparison(e).value.1 != ""
  {
    PureIsComparison(e);
    var c := Comparison(e).value;
    if c.1 == "" {
      var row := Row(0, if c.0.Eq? then "x" else "");
      assert Admitted(PushdownOf(e), row) && !Matches(e, row, o);
    }
  }

  // ---------- Filtering and paging: the reference ----------

  function Hits(e: Option<Expr>, rows: seq<Row>, o: Oracle): seq<Row> {
    if rows == [] then []
    else
      Hits(e, rows[..|rows| - 1], o)
      + (if e.None? || Matches(e.value, rows[|rows| - 1], o) then [rows[|rows| - 1]] else [])
  }

  function Clamp(x: int, n: nat): nat { if x < 0 then 0 else if x > n then n else x }

  /** The hits at positions [offset, offset + limit), whatever the two numbers are. */
  function Window(hits: seq<Row>, offset: int, limit: int): seq<Row> {
    var lo, hi := Clamp(offset, |hits|), Clamp(offset + limit, |hits|);
    if lo <= hi then hits[lo..hi] else []
  }

  /** The page holds the hits from the offset on, as many as fit the limit; consecutive pages follow each other. */
  lemma WindowIsPage(hits: seq<Row>, offset: nat, limit: nat, more: nat)
    ensures var w := Window(hits, offset, limit);
            && |w| == (if offset >= |hits| then 0 else if offset + limit <= |hits| then limit else |hits| - offset)
            && (forall k :: 0 <= k < |w| ==> w[k] == hits[offset + k])
            && w + Window(hits, offset + limit, more) == Window(hits, offset, limit + more)
  {}

  /** SQL: the rows a predicate admits. */
  function Query(pd: Pushdown, rows: seq<Row>): seq<Row> {
    if rows == [] then []
    else Query(pd, rows[..|rows| - 1]) + (if Admitted(pd, rows[|rows| - 1]) then [rows[|rows| - 1]] else [])
  }

  /** SQL: LIMIT and OFFSET with a positive limit; a negative offset counts as none. */
  function Limited(rows: seq<Row>, limit: nat, offset: int): seq<Row> {
    var lo := Clamp(offset, |rows|);
    rows[lo..Clamp(lo + limit, |rows|)]
  }

  lemma HitsSnoc(e: Option<Expr>, rows: seq<Row>, x: Row, o: Oracle)
    ensures Hits(e, rows + [x], o) == Hits(e, rows, o) + (if e.None? || Matches(e.value, x, o) then [x] else [])
  {
    assert (rows + [x])[..|rows|] == rows;
  }

  /** Filtering what SQL lets through is filtering everything. */
  lemma {:induction false} QueryKeepsHits(e: Expr, rows: seq<Row>, o: Oracle)
    ensures Hits(Some(e), Query(PushdownOf(e), rows), o) == Hits(Some(e), rows, o)
  {
    if rows != [] {
      var front, z := rows[..|rows| - 1], rows[|rows| - 1];
      QueryKeepsHits(e, front, o);
      if Matches(e, z, o) { PushdownKeepsMatches(e, z, o); }
      var found := Query(PushdownOf(e), front);
      HitsSnoc(Some(e), found, z, o);
      assert found + [] == found;
    }
  }

  /** The SQL predicate alone gives the hits, when there is no filter or a pure one with a real constant. */
  lemma {:induction false} QueryIsHits(e: Option<Expr>, pd: Pushdown, rows: seq<Row>, o: Oracle)
    requires e.None? ==> pd == Pushdown("", "", true)
    requires e.Some? ==> pd == PushdownOf(e.value) && Comparison(e.value).Some? && Comparison(e.value).value.1 != ""
    ensures Query(pd, rows) == Hits(e, rows, o)
  {
    if rows != [] {
      QueryIsHits(e, pd, rows[..|rows| - 1], o);
      if e.Some? { PureExact(e.value, o); }
    }
  }

  /** One more hit, looked at as it comes: it enters the page exactly if its place is in the window. */
  lemma WindowSnoc(hits: seq<Row>, x: Row, offset: int, limit: int)
    ensures Window(hits + [x], offset, limit)
            == Window(hits, offset, limit) + (if |hits| + 1 > offset && |hits| + 1 <= offset + limit then [x] else [])
  {
    var all := hits + [x];
    var lo, hi := Clamp(offset, |all|), Clamp(offset + limit, |all|);
    if lo <= hi {
      assert hi <= |hits| ==> all[lo..hi] == hits[lo..hi];
      assert hi == |all| && lo <= |hits| ==> all[lo..hi] == hits[lo..] + [x];
    }
  }

  /** SQL paging is the window, for a negative offset exactly if the window already holds every hit. */
  lemma LimitedIsWindow(hits: seq<Row>, limit: nat, offset: int)
    requires limit > 0
    ensures Limited(hits, limit, offset) == Window(hits, offset, limit) <==> offset >= 0 || |hits| <= Clamp(offset + limit, |hits|)
  {
    if offset < 0 {
      var w := Window(hits, offset, limit);
      assert |w| == Clamp(offset + limit, |hits|);
      assert |Limited(hits, limit, offset)| == Clamp(limit, |hits|);
    }
  }

  // ---------- The handler ----------

  method QueryEventPage(pd: Pushdown, rows: seq<Row>, limit: int, offset: int) returns (page: seq<Row>, total: nat, ok: bool)
    ensures ok == (limit > 0)
    ensures ok ==> total == |Query(pd, rows)| && page == Limited(Query(pd, rows), limit, offset)
  {
    if limit <= 0 { return [], 0, false; }
    var found := Query(pd, rows);
    return Limited(found, limit, offset), |found|, true;
  }

  /** The callback on one batch of candidates: running total and page. */
  method FilterBatch(e: Expr, batch: seq<Row>, o: Oracle, offset: int, limit: int, total0: nat, page0: seq<Row>, ghost seen: seq<Row>)
    returns (total: nat, page: seq<Row>)
    requires total0 == |Hits(Some(e), seen, o)| && page0 == Window(Hits(Some(e), seen, o), offset, limit)
    ensures total == |Hits(Some(e), seen + batch, o)| && page == Window(Hits(Some(e), seen + batch, o), offset, limit)
  {
    total, page := total0, page0;
    assert seen + batch[..0] == seen;
    for i := 0 to |batch|
      invariant total == |Hits(Some(e), seen + batch[..i], o)|
      invariant page == Window(Hits(Some(e), seen + batch[..i], o), offset, limit)
    {
      assert seen + batch[..i + 1] == seen + batch[..i] + [batch[i]];
      HitsSnoc(Some(e), seen + batch[..i], batch[i], o);
      WindowSnoc(Hits(Some(e), seen + batch[..i], o), batch[i], offset, limit);
      var out := Eval(e, batch[i], o);
      if out != Yes { continue; }
      total := total + 1;
      if total > offset && total <= offset + limit { page := page + [batch[i]]; }
    }
    assert batch[..|batch|] == batch;
  }

  /** Candidates arrive in batches of 500, the last one shorter. */
  method StreamFiltered(e: Expr, pd: Pushdown, rows: seq<Row>, o: Oracle, offset: int, limit: int)
    returns (total: nat, page: seq<Row>)
    requires pd == PushdownOf(e)
    ensures total == |Hits(Some(e), rows, o)| && page == Window(Hits(Some(e), rows, o), offset, limit)
  {
    var found := Query(pd, rows);
    var buf: seq<Row> := [];
    total, page := 0, [];
    ghost var done := 0;
    for i := 0 to |found|
      invariant 0 <= done <= i && buf == found[done..i] && |buf| < BATCH
      invariant total == |Hits(Some(e), found[..done], o)| && page == Window(Hits(Some(e), found[..done], o), offset, limit)
    {
      buf := buf + [found[i]];
      if |buf| >= BATCH {
        assert found[..done] + buf == found[..i + 1];
        total, page := FilterBatch(e, buf, o, offset, limit, total, page, found[..done]);
        buf := [];
        done := i + 1;
      }
    }
    if |buf| > 0 {
      assert found[..done] + buf == found;
      total, page := FilterBatch(e, buf, o, offset, limit, total, page, found[..done]);
    } else {
      assert found[..done] == found;
    }
    QueryKeepsHits(e, rows, o);
  }

  /** The filter reaches the SQL-only path with an empty constant. */
  predicate EmptyConstant(e: Option<Expr>) { e.Some? && Comparison(e.value).Some? && Comparison(e.value).value.1 == "" }

  /** Which of the two paths a request takes. */
  predicate SqlPath(e: Option<Expr>) { e.None? || Comparison(e.value).Some? }

  /** list_decoded_data: the exact total and the page [offset, offset + limit) of the filtered list, on either
      path, except that SQL takes a negative offset for 0 and that a comparison with the empty string is
      answered with every row. */
  method ListDecodedData(e: Option<Expr>, rows: seq<Row>, o: Oracle, limit: int, offset: int) returns (total: nat, page: seq<Row>)
    ensures !EmptyConstant(e) ==> total == |Hits(e, rows, o)|
    ensures !EmptyConstant(e) && (offset >= 0 || !SqlPath(e)) ==> page == Window(Hits(e, rows, o), offset, limit)
    ensures !EmptyConstant(e) && offset < 0 && SqlPath(e) ==>
              page == Window(Hits(e, rows, o), 0, limit)
              && (page == Window(Hits(e, rows, o), offset, limit)
                  <==> limit <= 0 || |Hits(e, rows, o)| <= Clamp(offset + limit, |Hits(e, rows, o)|))
    ensures limit <= 0 ==> page == []
    ensures EmptyConstant(e) && limit > 0 ==> total == |rows| && page == Limited(rows, limit, offset)
  {
    var pd := Pushdown("", "", true);
    if e.Some? {
      pd := ParseFilterPushdown(e.value);
      PureIsComparison(e.value);
    }
    if e.None? || pd.pure {
      if EmptyConstant(e) {
        EmptyAdmitsAll(e.value, rows);
      } else {
        QueryIsHits(e, pd, rows, o);
      }
      var pageLimit := if limit <= 0 then 1 else limit;
      var found, count, ok := QueryEventPage(pd, rows, pageLimit, offset);
      LimitedIsWindow(Query(pd, rows), pageLimit, offset);
      return count, if limit > 0 then found else [];
    }
    total, page := StreamFiltered(e.value, pd, rows, o, offset, limit);
  }

  lemma {:induction false} EmptyAdmitsAll(e: Expr, rows: seq<Row>)
    requires EmptyConstant(Some(e))
    ensures Query(PushdownOf(e), rows) == rows
  {
    PureIsComparison(e);
    if rows != [] {
      EmptyAdmitsAll(e, rows[..|rows| - 1]);
      assert rows == rows[..|rows| - 1] + [rows[|rows| - 1]];
    }
  }

  /** protocol == "" over one row of another protocol: the reference has no hit, the handler reports one. */
  lemma EmptyConstantReportsAll(o: Oracle)
    ensures var e := Compare(Eq, Ident("protocol"), Text(""));
            var rows := [Row(0, "tcp")];
            EmptyConstant(Some(e)) && Hits(Some(e), rows, o) == [] && Query(PushdownOf(e), rows) == rows
  {
    var e := Compare(Eq, Ident("protocol"), Text(""));
    var rows := [Row(0, "tcp")];
    EmptyAdmitsAll(e, rows);
    assert rows[..0] == [];
    assert !Matches(e, rows[0], o);
  }
}
