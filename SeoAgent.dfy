/** `SEOAgent`: a table loaded once, and `run`, which evaluates one rule of
    the table against it. The agent is a value: `run` only reads it. */
module SeoAgent {
  import opened Wrappers
  import opened Seqs
  import opened Frame
  import opened SeoRules
  import opened ResponseSchema
  import SeoLoader
  import SeoPlanner

  const NoDataAnswer := "SEO data source not available. Unable to analyze SEO issues."
  const UnsupportedAnswer := "Unsupported SEO analysis request."
  const FailedAnswer := "Failed to process SEO analysis."
  const IdentifierColumn := "address"
  const IdentifierLimit := 50

  function MissingColumnAnswer(column: string): string {
    "Required SEO column '" + column + "' not found in data."
  }

  datatype Agent = Agent(dataSource: Option<string>, df: Table)

  /** `SEOAgent.__init__`: the table is loaded here and nowhere else. */
  function NewAgent(source: Option<string>, readCsv: string -> Option<Table>): (a: Agent)
    ensures a.dataSource == source
    ensures a.df == SeoLoader.LoadSeoData(source, readCsv)
    ensures source.None? || source == Some([]) ==> IsEmpty(a.df)
    ensures forall k :: 0 <= k < |a.df.columns| ==>
      SeoLoader.NormalizeColumn(a.df.columns[k]) == a.df.columns[k]
  {
    var df := SeoLoader.LoadSeoData(source, readCsv);
    forall k | 0 <= k < |df.columns|
      ensures SeoLoader.NormalizeColumn(df.columns[k]) == df.columns[k]
    {
      SeoLoader.NormalizeFixesNormal(df.columns[k]);
    }
    Agent(source, df)
  }

  // ------------------------------------------------- comparison semantics

  /** Python's `a < b` on strings: lexicographic by code point. */
  predicate StrLess(a: string, b: string)
    decreases |a|
  {
    if b == [] then false
    else if a == [] then true
    else if a[0] != b[0] then a[0] < b[0]
    else StrLess(a[1..], b[1..])
  }

  /** String order is transitive. */
  lemma {:induction false} StrLessTransitive(a: string, b: string, c: string)
    requires StrLess(a, b) && StrLess(b, c)
    ensures StrLess(a, c)
    decreases |a|
  {
    if a != [] && a[0] == b[0] && b[0] == c[0] {
      StrLessTransitive(a[1..], b[1..], c[1..]);
    }
  }

  /** String order is trichotomous: exactly one of <, =, > holds. */
  lemma {:induction false} StrLessTrichotomy(a: string, b: string)
    ensures a == b ==> !StrLess(a, b) && !StrLess(b, a)
    ensures a != b ==> StrLess(a, b) != StrLess(b, a)
    decreases |a|
  {
    if a != [] && b != [] && a[0] == b[0] {
      StrLessTrichotomy(a[1..], b[1..]);
      if a != b {
        assert a == [a[0]] + a[1..] && b == [b[0]] + b[1..];
      }
    }
  }

  /** `cell > threshold` for one cell that does not raise: a missing cell
      or a missing threshold compares false. */
  predicate GreaterThan(cell: Cell, threshold: Cell) {
    match (cell, threshold)
    case (Int(a), Int(b)) => a > b
    case (Str(a), Str(b)) => StrLess(b, a)
    case _ => false
  }

  /** `cell != threshold`: a missing cell or threshold is unequal to
      everything, and a number is unequal to any text. */
  predicate NotEqual(cell: Cell, threshold: Cell) {
    cell.Null? || threshold.Null? || cell != threshold
  }

  /** The boolean mask each operator builds, one cell at a time. */
  predicate Keeps(op: string, cell: Cell, threshold: Cell) {
    if op == ">" then GreaterThan(cell, threshold)
    else if op == "!=" then NotEqual(cell, threshold)
    else if op == "isnull" then cell.Null?
    else true
  }

  predicate HasText(cells: seq<Cell>) {
    exists i :: 0 <= i < |cells| && cells[i].Str?
  }

  predicate HasInt(cells: seq<Cell>) {
    exists i :: 0 <= i < |cells| && cells[i].Int?
  }

  predicate HasNull(cells: seq<Cell>) {
    exists i :: 0 <= i < |cells| && cells[i].Null?
  }

  /** When `column > threshold` raises TypeError. A column with no text is
      numeric and refuses a text threshold outright; a column holding text
      compares cell by cell and fails at the first number-versus-text pair.
      `!=` and `isnull` never raise. */
  predicate GreaterRaises(cells: seq<Cell>, threshold: Cell) {
    match threshold
    case Null => false
    case Int(_) => HasText(cells)
    case Str(_) => !HasText(cells) || HasInt(cells)
  }

  /** The text of the TypeError. */
  function RaiseMessage(cells: seq<Cell>, threshold: Cell): string {
    if threshold.Int? then "'>' not supported between instances of 'str' and 'int'"
    else if !HasText(cells) then
      "Invalid comparison between dtype=" + (if HasNull(cells) then "float64" else "int64") + " and str"
    else "'>' not supported between instances of 'int' and 'str'"
  }

  // ------------------------------------------------------------ evaluation

  /** `df[mask]`: the rows whose cell in column `j` passes the operator,
      in table order. */
  function Matches(rows: seq<seq<Cell>>, j: nat, op: string, threshold: Cell): (kept: seq<seq<Cell>>)
    ensures |kept| <= |rows|
    ensures forall row :: row in kept <==> row in rows && Keeps(op, At(row, j), threshold)
  {
    if rows == [] then []
    else
      assert rows == [rows[0]] + rows[1..];
      (if Keeps(op, At(rows[0], j), threshold) then [rows[0]] else []) + Matches(rows[1..], j, op, threshold)
  }

  /** The kept rows of two stretches of the table are the kept rows of
      each, in order: filtering never reorders. */
  lemma {:induction false} MatchesConcat(a: seq<seq<Cell>>, b: seq<seq<Cell>>, j: nat, op: string, threshold: Cell)
    ensures Matches(a + b, j, op, threshold) == Matches(a, j, op, threshold) + Matches(b, j, op, threshold)
  {
    if a == [] {
      assert a + b == b;
    } else {
      var head := if Keeps(op, At(a[0], j), threshold) then [a[0]] else [];
      assert (a + b)[0] == a[0] && (a + b)[1..] == a[1..] + b;
      calc {
        Matches(a + b, j, op, threshold);
        head + Matches(a[1..] + b, j, op, threshold);
        { MatchesConcat(a[1..], b, j, op, threshold); }
        head + (Matches(a[1..], j, op, threshold) + Matches(b, j, op, threshold));
        (head + Matches(a[1..], j, op, threshold)) + Matches(b, j, op, threshold);
        Matches(a, j, op, threshold) + Matches(b, j, op, threshold);
      }
    }
  }

  /** The mask is the generic order-preserving filter with the operator's
      test. */
  lemma {:induction false} MatchesIsFilter(rows: seq<seq<Cell>>, j: nat, op: string, threshold: Cell)
    ensures Matches(rows, j, op, threshold) == Filter(rows, row => Keeps(op, At(row, j), threshold))
  {
    if rows != [] {
      MatchesIsFilter(rows[1..], j, op, threshold);
    }
  }

  /** An operator without a branch of its own keeps the whole table. */
  lemma {:induction false} OtherOperatorKeepsAll(rows: seq<seq<Cell>>, j: nat, op: string, threshold: Cell)
    requires !IsHandledOperator(op)
    ensures Matches(rows, j, op, threshold) == rows
  {
    if rows != [] {
      OtherOperatorKeepsAll(rows[1..], j, op, threshold);
      assert rows == [rows[0]] + rows[1..];
    }
  }

  /** What each operator keeps, for the thresholds the rule table uses. */
  lemma OperatorMeaning(cell: Cell, n: int, s: string, threshold: Cell)
    ensures Keeps(">", cell, Int(n)) <==> cell.Int? && cell.i > n
    ensures Keeps("!=", cell, Str(s)) <==> cell != Str(s)
    ensures Keeps("isnull", cell, threshold) <==> cell.Null?
    ensures !Keeps(">", cell, Null) && Keeps("!=", cell, Null)
  {
  }

  /** The identifier column: "address" when present, else the first one. */
  function IdentifierIndex(columns: seq<string>): (j: nat)
    requires |columns| > 0
    ensures j < |columns|
    ensures IdentifierColumn in columns ==> columns[j] == IdentifierColumn
    ensures IdentifierColumn !in columns ==> j == 0
  {
    if IdentifierColumn in columns then IndexOf(columns, IdentifierColumn) else 0
  }

  /** Filter, pick the identifier column, keep the first fifty. */
  function Evaluate(t: Table, rule: Rule): (r: Result<seq<Cell>, string>)
    requires rule.column in t.columns
    ensures r.Failure? <==> (rule.operator == ">"
      && GreaterRaises(ColumnOf(t.rows, IndexOf(t.columns, rule.column)), ThresholdOf(rule)))
    ensures r.Success? ==> |r.value| <= IdentifierLimit
    ensures r.Success? ==> var kept := Matches(t.rows, IndexOf(t.columns, rule.column), rule.operator, ThresholdOf(rule));
      |r.value| == (if |kept| < IdentifierLimit then |kept| else IdentifierLimit)
      && forall i :: 0 <= i < |r.value| ==> r.value[i] == At(kept[i], IdentifierIndex(t.columns))
  {
    var j := IndexOf(t.columns, rule.column);
    var threshold := ThresholdOf(rule);
    var cells := ColumnOf(t.rows, j);
    if rule.operator == ">" && GreaterRaises(cells, threshold) then
      Failure(RaiseMessage(cells, threshold))
    else
      var kept := Matches(t.rows, j, rule.operator, threshold);
      Success(Take(ColumnOf(kept, IdentifierIndex(t.columns)), IdentifierLimit))
  }

  /** `SEOAgent.run`. */
  function Run(agent: Agent, ruleKey: string): (r: Response)
    ensures IsEmpty(agent.df) ==> r == Response(NoDataAnswer, NoData)
    ensures !IsEmpty(agent.df) && ruleKey !in Rules ==> r == Response(UnsupportedAnswer, NoData)
    ensures !IsEmpty(agent.df) && ruleKey in Rules && Rules[ruleKey].column !in agent.df.columns ==>
      r == Response(MissingColumnAnswer(Rules[ruleKey].column), NoData)
    ensures r.data.Identifiers? ==> (ruleKey in Rules && Rules[ruleKey].column in agent.df.columns
      && r.answer == Rules[ruleKey].description && |r.data.ids| <= IdentifierLimit)
    ensures r.data.ErrorDetail? <==> r.answer == FailedAnswer
    ensures r.data.ErrorDetail? ==> ruleKey in Rules && Rules[ruleKey].operator == ">"
    ensures !IsEmpty(agent.df) && ruleKey in Rules && Rules[ruleKey].column in agent.df.columns ==>
      match Evaluate(agent.df, Rules[ruleKey])
      case Success(ids) => r == Response(Rules[ruleKey].description, Identifiers(ids))
      case Failure(m) => r == Response(FailedAnswer, ErrorDetail(m))
  {
    if IsEmpty(agent.df) then Response(NoDataAnswer, NoData)
    else if ruleKey !in Rules then Response(UnsupportedAnswer, NoData)
    else
      var rule := Rules[ruleKey];
      if rule.column !in agent.df.columns then Response(MissingColumnAnswer(rule.column), NoData)
      else
        match Evaluate(agent.df, rule)
        case Success(ids) => Response(rule.description, Identifiers(ids))
        case Failure(message) => Response(FailedAnswer, ErrorDetail(message))
  }

  // ---------------------------------------------------------------- lemmas

  /** The empty-table answer comes first, for every key, valid ones too. */
  lemma EmptyTableAnyKey(agent: Agent, k1: string, k2: string)
    requires IsEmpty(agent.df)
    ensures Run(agent, k1) == Run(agent, k2)
  {
  }

  /** On success the identifiers are the first min(50, n) matching rows'
      identifiers, in table order, each from a row that passes the rule. */
  lemma SuccessIdentifiers(agent: Agent, ruleKey: string, i: nat)
    requires Run(agent, ruleKey).data.Identifiers?
    requires i < |Run(agent, ruleKey).data.ids|
    ensures exists row :: (row in agent.df.rows
      && Keeps(Rules[ruleKey].operator, At(row, IndexOf(agent.df.columns, Rules[ruleKey].column)), ThresholdOf(Rules[ruleKey]))
      && Run(agent, ruleKey).data.ids[i] == At(row, IdentifierIndex(agent.df.columns)))
  {
    var rule := Rules[ruleKey];
    var j := IndexOf(agent.df.columns, rule.column);
    var kept := Matches(agent.df.rows, j, rule.operator, ThresholdOf(rule));
    assert kept[i] in kept;
  }

  /** The planner's keys other than long_title are not in the rule table,
      so a loaded agent answers them as unsupported. */
  lemma PlannerKeysUnsupported(agent: Agent, query: string)
    requires !IsEmpty(agent.df)
    requires SeoPlanner.MapQueryToSeoRule(query).Some?
    requires SeoPlanner.MapQueryToSeoRule(query).value != "long_title"
    ensures Run(agent, SeoPlanner.MapQueryToSeoRule(query).value) == Response(UnsupportedAnswer, NoData)
  {
    RuleKeys();
  }

  /** One row is kept exactly when its cell passes. */
  lemma MatchesOne(row: seq<Cell>, j: nat, op: string, threshold: Cell)
    ensures Matches([row], j, op, threshold) == if Keeps(op, At(row, j), threshold) then [row] else []
  {
    assert [row][1..] == [];
  }

  /** Two rows are kept exactly as each is kept alone. */
  lemma MatchesPair(x: seq<Cell>, y: seq<Cell>, j: nat, op: string, threshold: Cell)
    ensures Matches([x] + [y], j, op, threshold)
         == (if Keeps(op, At(x, j), threshold) then [x] else []) + (if Keeps(op, At(y, j), threshold) then [y] else [])
  {
    MatchesOne(x, j, op, threshold);
    MatchesOne(y, j, op, threshold);
    MatchesConcat([x], [y], j, op, threshold);
  }

  /** Titles of 45, 75, 60 and 90 characters against `> 60`: the second
      and fourth rows are kept. */
  lemma LongTitleExampleMatches(a: seq<Cell>, b: seq<Cell>, c: seq<Cell>, d: seq<Cell>)
    requires At(a, 1) == Int(45) && At(b, 1) == Int(75) && At(c, 1) == Int(60) && At(d, 1) == Int(90)
    ensures Matches([a] + [b] + ([c] + [d]), 1, ">", Int(60)) == [b] + [d]
  {
    MatchesPair(a, b, 1, ">", Int(60));
    MatchesPair(c, d, 1, ">", Int(60));
    MatchesConcat([a] + [b], [c] + [d], 1, ">", Int(60));
  }

  /** The four example pages, with their addresses first. */
  function LongTitleTable(): Table {
    Table(["address", "title 1 length"],
          [[Str("/a"), Int(45)], [Str("/b"), Int(75)], [Str("/c"), Int(60)], [Str("/d"), Int(90)]])
  }

  /** The example's title lengths are all numbers. */
  lemma LongTitleColumnNumeric()
    ensures !HasText(ColumnOf(LongTitleTable().rows, 1))
  {
    var cells := ColumnOf(LongTitleTable().rows, 1);
    forall i | 0 <= i < |cells|
      ensures !cells[i].Str?
    {
      assert cells[i] == At(LongTitleTable().rows[i], 1);
    }
  }

  /** `> 60` keeps the example's second and fourth pages. */
  lemma LongTitleKept()
    ensures Matches(LongTitleTable().rows, 1, ">", Int(60))
         == [[Str("/b"), Int(75)], [Str("/d"), Int(90)]]
  {
    var a, b, c, d := [Str("/a"), Int(45)], [Str("/b"), Int(75)], [Str("/c"), Int(60)], [Str("/d"), Int(90)];
    assert LongTitleTable().rows == [a] + [b] + ([c] + [d]);
    LongTitleExampleMatches(a, b, c, d);
  }

  /** Evaluating long_title on the example pages yields the two long titles'
      addresses. */
  lemma LongTitleExampleEvaluate()
    ensures Evaluate(LongTitleTable(), Rules["long_title"]) == Success([Str("/b"), Str("/d")])
  {
    LongTitleRule();
    var t := LongTitleTable();
    assert IndexOf(t.columns, "title 1 length") == 1;
    assert IdentifierIndex(t.columns) == 0;
    LongTitleColumnNumeric();
    LongTitleKept();
    var r := Evaluate(t, Rules["long_title"]);
    assert r.Success?;
    assert |r.value| == 2;
    assert r.value == [Str("/b"), Str("/d")];
  }

  /** The same four pages through `run`: the rule's description and the
      addresses of the two long titles. */
  lemma LongTitleExample()
    ensures Run(Agent(None, LongTitleTable()), "long_title")
         == Response("Title tags longer than recommended length", Identifiers([Str("/b"), Str("/d")]))
  {
    LongTitleRule();
    LongTitleExampleEvaluate();
    assert "title 1 length" in LongTitleTable().columns;
    assert !IsEmpty(LongTitleTable());
  }

  /** A text value in the title-length column makes `>` raise, so the
      agent answers with the failure message and the error text. */
  lemma TextInLengthColumnFails(agent: Agent, r: nat)
    requires !IsEmpty(agent.df) && "title 1 length" in agent.df.columns
    requires r < |agent.df.rows|
    requires At(agent.df.rows[r], IndexOf(agent.df.columns, "title 1 length")).Str?
    ensures Run(agent, "long_title") == Response(FailedAnswer,
      ErrorDetail("'>' not supported between instances of 'str' and 'int'"))
  {
    LongTitleRule();
    var cells := ColumnOf(agent.df.rows, IndexOf(agent.df.columns, "title 1 length"));
    assert cells[r].Str?;
  }
}
