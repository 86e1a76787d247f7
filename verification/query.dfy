/**
 The SQL text the handler submits (infrastructure/lambda_function.py, lines 55-65):
 a fixed prefix naming the table, then one equality clause per partition
 dimension whose value is not the wildcard "any" (in any letter case), in the
 fixed order year, month, day, hour. Values are embedded verbatim, without
 escaping.
 */
module Query {
  import opened Wrappers
  import opened Request

  // ---------------------------------------------------------------------------
  // The wildcard

  /** Lower-cases an ASCII letter and leaves every other character alone. */
  function LowerChar(c: char): char
  {
    if 'A' <= c <= 'Z' then (c as int + 32) as char else c
  }

  /** str.lower(), restricted to ASCII letters. */
  function Lower(s: string): string
  {
    seq(|s|, i requires 0 <= i < |s| => LowerChar(s[i]))
  }

  /** `s.lower() == 'any'`: the dimension is unconstrained. */
  predicate IsAny(s: string)
  {
    Lower(s) == "any"
  }

  /** The wildcard is exactly the eight letter-case spellings of "any". */
  lemma IsAnySpellings(s: string)
    ensures IsAny(s) <==> |s| == 3 && s[0] in "aA" && s[1] in "nN" && s[2] in "yY"
  {
    if |s| == 3 && s[0] in "aA" && s[1] in "nN" && s[2] in "yY" {
      assert Lower(s) == [LowerChar(s[0]), LowerChar(s[1]), LowerChar(s[2])];
    }
    if IsAny(s) {
      assert |s| == |Lower(s)| == 3;
      assert Lower(s)[0] == LowerChar(s[0]) == 'a';
      assert Lower(s)[1] == LowerChar(s[1]) == 'n';
      assert Lower(s)[2] == LowerChar(s[2]) == 'y';
    }
  }

  // ---------------------------------------------------------------------------
  // Building the query

  /** Line 55: the unconditional start of every query. */
  function Prefix(table: string): string
  {
    "SELECT * FROM " + table + " WHERE 1=1"
  }

  /** The text appended for one dimension and value when the value is not the wildcard. */
  function ClauseText(d: Dim, v: string): string
  {
    " AND " + d.Name() + "='" + v + "'"
  }

  /** Lines 58-65, one `if`: the clause, or nothing for the wildcard. */
  function Clause(d: Dim, v: string): string
  {
    if IsAny(v) then "" else ClauseText(d, v)
  }

  /** Lines 55-65: the query string, built by successive appends. */
  function BuildQuery(table: string, f: Filter): (q: string)
    ensures Prefix(table) <= q
    ensures IsAny(f.year) && IsAny(f.month) && IsAny(f.day) && IsAny(f.hour) ==> q == Prefix(table)
  {
    var q0 := Prefix(table);
    var q1 := q0 + Clause(Year, f.year);
    var q2 := q1 + Clause(Month, f.month);
    var q3 := q2 + Clause(Day, f.day);
    q3 + Clause(Hour, f.hour)
  }

  // ---------------------------------------------------------------------------
  // What the query says: the constrained dimensions

  /** One equality constraint `dim = 'value'`. */
  datatype Constraint = Constraint(dim: Dim, value: string)

  /** The constraint for one dimension, if it is not the wildcard. */
  function Keep(f: Filter, d: Dim): seq<Constraint>
  {
    if IsAny(ValueOf(f, d)) then [] else [Constraint(d, ValueOf(f, d))]
  }

  /** The constraints a filter imposes, in clause order. */
  function Constraints(f: Filter): seq<Constraint>
  {
    Keep(f, Year) + Keep(f, Month) + Keep(f, Day) + Keep(f, Hour)
  }

  /** The clause text of a list of constraints. */
  function Render(cs: seq<Constraint>): string
  {
    if |cs| == 0 then "" else ClauseText(cs[0].dim, cs[0].value) + Render(cs[1..])
  }

  /** The constraints appear in strictly increasing clause order. */
  predicate Ordered(cs: seq<Constraint>)
  {
    forall i, j :: 0 <= i < j < |cs| ==> cs[i].dim.Rank() < cs[j].dim.Rank()
  }

  lemma OrderedAppend(a: seq<Constraint>, b: seq<Constraint>)
    requires Ordered(a) && Ordered(b)
    requires forall x, y :: x in a && y in b ==> x.dim.Rank() < y.dim.Rank()
    ensures Ordered(a + b)
  {
    var ab := a + b;
    forall i, j | 0 <= i < j < |ab| ensures ab[i].dim.Rank() < ab[j].dim.Rank() {
      if j < |a| {
        assert ab[i] == a[i] && ab[j] == a[j];
      } else if i >= |a| {
        assert ab[i] == b[i - |a|] && ab[j] == b[j - |a|];
      } else {
        assert ab[i] == a[i] && ab[j] == b[j - |a|];
      }
    }
  }

  /** A dimension is constrained exactly when its value is not the wildcard, and then by
      its value verbatim. */
  lemma ConstraintsExact(f: Filter)
    ensures forall d: Dim :: Constraint(d, ValueOf(f, d)) in Constraints(f) <==> !IsAny(ValueOf(f, d))
    ensures forall c :: c in Constraints(f) ==> c.value == ValueOf(f, c.dim)
  {
    var cs := Constraints(f);
    forall c | c in cs ensures c.value == ValueOf(f, c.dim) && !IsAny(c.value) {
      KeepShape(f, Year);
      KeepShape(f, Month);
      KeepShape(f, Day);
      KeepShape(f, Hour);
    }
  }

  /** The dimensions appear in strictly increasing clause order, so each at most once. */
  lemma ConstraintsOrdered(f: Filter)
    ensures Ordered(Constraints(f))
  {
    var ky, km, kd, kh := Keep(f, Year), Keep(f, Month), Keep(f, Day), Keep(f, Hour);
    KeepShape(f, Year);
    KeepShape(f, Month);
    KeepShape(f, Day);
    KeepShape(f, Hour);
    OrderedAppend(ky, km);
    OrderedAppend(ky + km, kd);
    OrderedAppend(ky + km + kd, kh);
  }

  lemma KeepShape(f: Filter, d: Dim)
    ensures |Keep(f, d)| <= 1
    ensures Ordered(Keep(f, d))
    ensures forall c :: c in Keep(f, d) ==> c == Constraint(d, ValueOf(f, d)) && !IsAny(c.value)
  {
  }

  /** Splitting the successive appends of lines 55-65 into the prefix and the rendered
      constraints. */
  lemma BuildQueryRenders(table: string, f: Filter)
    ensures BuildQuery(table, f) == Prefix(table) + Render(Constraints(f))
  {
    BuildQueryClauses(table, f);
    RenderConstraints(f);
  }

  lemma BuildQueryClauses(table: string, f: Filter)
    ensures BuildQuery(table, f) ==
              Prefix(table) + (Clause(Year, f.year) + Clause(Month, f.month) + Clause(Day, f.day) + Clause(Hour, f.hour))
  {
  }

  lemma RenderConstraints(f: Filter)
    ensures Render(Constraints(f)) ==
              Clause(Year, f.year) + Clause(Month, f.month) + Clause(Day, f.day) + Clause(Hour, f.hour)
  {
    var ky, km, kd, kh := Keep(f, Year), Keep(f, Month), Keep(f, Day), Keep(f, Hour);
    RenderKeep(f, Year);
    RenderKeep(f, Month);
    RenderKeep(f, Day);
    RenderKeep(f, Hour);
    RenderAppend(ky, km);
    RenderAppend(ky + km, kd);
    RenderAppend(ky + km + kd, kh);
  }

  lemma RenderKeep(f: Filter, d: Dim)
    ensures Render(Keep(f, d)) == Clause(d, ValueOf(f, d))
  {
    var k := Keep(f, d);
    if |k| == 1 {
      assert k[1..] == [];
    }
  }

  lemma {:induction false} RenderAppend(a: seq<Constraint>, b: seq<Constraint>)
    ensures Render(a + b) == Render(a) + Render(b)
    decreases |a|
  {
    if |a| == 0 {
      assert a + b == b;
    } else {
      assert (a + b)[0] == a[0];
      assert (a + b)[1..] == a[1..] + b;
      RenderAppend(a[1..], b);
    }
  }

  // ---------------------------------------------------------------------------
  // Reading the constraints back from the query text

  /** The dimension whose name starts `t`. */
  function ParseColumn(t: string): Option<Dim>
  {
    if Year.Name() <= t then Some(Year)
    else if Month.Name() <= t then Some(Month)
    else if Day.Name() <= t then Some(Day)
    else if Hour.Name() <= t then Some(Hour)
    else None
  }

  /** The index of the first single quote in `w`, or |w| when there is none. */
  function QuoteIndex(w: string): (i: nat)
    ensures i <= |w|
    ensures i < |w| ==> w[i] == '\''
    ensures forall j :: 0 <= j < i ==> w[j] != '\''
  {
    if |w| == 0 || w[0] == '\'' then 0 else 1 + QuoteIndex(w[1..])
  }

  /** Parses `='<value>'` at the start of `u`; returns the value and the text after it. */
  function ParseValue(u: string): (r: Option<(string, string)>)
    ensures r.Some? ==> |r.value.1| < |u|
  {
    if !("='" <= u) then None
    else
      var w := u[2..];
      var q := QuoteIndex(w);
      if q == |w| then None else Some((w[..q], w[q + 1..]))
  }

  /** Parses one leading ` AND <column>='<value>'` clause; returns it with the text after it. */
  function ParseClause(s: string): (r: Option<(Constraint, string)>)
    ensures r.Some? ==> |r.value.1| < |s|
  {
    if !(" AND " <= s) then None
    else
      var t := s[5..];
      match ParseColumn(t)
      case None => None
      case Some(d) =>
        match ParseValue(t[|d.Name()|..])
        case None => None
        case Some((v, rest)) => Some((Constraint(d, v), rest))
  }

  /** Parses a run of clauses up to the end of the text. */
  function ParseClauses(s: string): Option<seq<Constraint>>
    decreases |s|
  {
    if |s| == 0 then Some([])
    else
      match ParseClause(s)
      case None => None
      case Some((c, rest)) =>
        match ParseClauses(rest)
        case None => None
        case Some(cs) => Some([c] + cs)
  }

  /** The constraints stated by a query over `table`, if it has the expected shape. */
  function ParseQuery(table: string, q: string): Option<seq<Constraint>>
  {
    if Prefix(table) <= q then ParseClauses(q[|Prefix(table)|..]) else None
  }

  /** No single quote in the value. */
  predicate QuoteFree(v: string)
  {
    forall i :: 0 <= i < |v| ==> v[i] != '\''
  }

  lemma ParseColumnOf(d: Dim, rest: string)
    ensures ParseColumn(d.Name() + rest) == Some(d)
  {
    var t := d.Name() + rest;
    assert t[..|d.Name()|] == d.Name();
    match d
    case Year =>
    case Month =>
      assert !("year" <= t) by { assert t[0] == 'm'; }
    case Day =>
      assert !("year" <= t) && !("month" <= t) by { assert t[0] == 'd'; }
    case Hour =>
      assert !("year" <= t) && !("month" <= t) && !("day" <= t) by { assert t[0] == 'h'; }
  }

  lemma {:induction false} QuoteIndexOf(v: string, rest: string)
    requires QuoteFree(v)
    ensures QuoteIndex(v + ("'" + rest)) == |v|
    decreases |v|
  {
    if |v| > 0 {
      assert (v + ("'" + rest))[1..] == v[1..] + ("'" + rest);
      QuoteIndexOf(v[1..], rest);
    }
  }

  lemma SplitAfter(a: string, b: string)
    ensures a <= a + b
    ensures (a + b)[|a|..] == b
  {
  }

  lemma ParseValueOf(v: string, rest: string)
    requires QuoteFree(v)
    ensures ParseValue("='" + (v + ("'" + rest))) == Some((v, rest))
  {
    var w := v + ("'" + rest);
    SplitAfter("='", w);
    QuoteIndexOf(v, rest);
    assert w[..|v|] == v;
    assert w[|v| + 1..] == rest;
  }

  /** Parsing the text of one clause gives back its constraint and the text after it. */
  lemma ParseClauseOf(c: Constraint, rest: string)
    requires QuoteFree(c.value)
    ensures ParseClause(ClauseText(c.dim, c.value) + rest) == Some((c, rest))
  {
    var col, v := c.dim.Name(), c.value;
    var u := "='" + (v + ("'" + rest));
    var t := col + u;
    var s := " AND " + t;
    assert ClauseText(c.dim, v) + rest == s;
    SplitAfter(" AND ", t);
    assert s[5..] == t;
    ParseColumnOf(c.dim, u);
    SplitAfter(col, u);
    ParseValueOf(v, rest);
  }

  /** Rendering then parsing recovers the constraints when no value holds a quote. */
  lemma {:induction false} ParseRender(cs: seq<Constraint>)
    requires forall i :: 0 <= i < |cs| ==> QuoteFree(cs[i].value)
    ensures ParseClauses(Render(cs)) == Some(cs)
    decreases |cs|
  {
    if |cs| > 0 {
      ParseRender(cs[1..]);
      ParseClauseOf(cs[0], Render(cs[1..]));
      assert [cs[0]] + cs[1..] == cs;
    }
  }

  /** Lines 55-65: the query text determines exactly the non-wildcard dimensions and their
      values, in the order year, month, day, hour, provided no value holds a quote. */
  lemma QueryRoundTrip(table: string, f: Filter)
    requires QuoteFree(f.year) && QuoteFree(f.month) && QuoteFree(f.day) && QuoteFree(f.hour)
    ensures ParseQuery(table, BuildQuery(table, f)) == Some(Constraints(f))
  {
    BuildQueryRenders(table, f);
    var q := BuildQuery(table, f);
    assert q[|Prefix(table)|..] == Render(Constraints(f));
    ParseRender(Constraints(f));
  }

  /** Values are interpolated without escaping: a value holding quotes can impersonate
      further clauses, so two different filters render the same query text. */
  lemma QueryNotInjective(table: string)
    ensures var f1 := Filter("2024' AND month='10", "any", "17", "01");
            var f2 := Filter("2024", "10", "17", "01");
            f1 != f2 && BuildQuery(table, f1) == BuildQuery(table, f2)
  {
    var f1 := Filter("2024' AND month='10", "any", "17", "01");
    var f2 := Filter("2024", "10", "17", "01");
    assert f1.year != f2.year by { assert |f1.year| != |f2.year|; }
    BuildQueryClauses(table, f1);
    BuildQueryClauses(table, f2);
    InjectedClauses();
  }

  lemma InjectedClauses()
    ensures Clause(Year, "2024' AND month='10") == Clause(Year, "2024") + Clause(Month, "10")
    ensures Clause(Month, "any") == ""
  {
    IsAnySpellings("2024' AND month='10");
    IsAnySpellings("2024");
    IsAnySpellings("10");
    IsAnySpellings("any");
    assert ClauseText(Year, "2024' AND month='10") == " AND year='2024' AND month='10'";
    assert ClauseText(Year, "2024") == " AND year='2024'";
    assert ClauseText(Month, "10") == " AND month='10'";
  }

  /** With every filter value defaulted, the query constrains all four dimensions. */
  lemma DefaultQuery(table: string)
    ensures BuildQuery(table, Filter(DefaultYear, DefaultMonth, DefaultDay, DefaultHour)) ==
              Prefix(table) + " AND year='2024' AND month='10' AND day='17' AND hour='01'"
  {
    var f := Filter(DefaultYear, DefaultMonth, DefaultDay, DefaultHour);
    BuildQueryClauses(table, f);
    DefaultClauses();
    var clauses := Clause(Year, f.year) + Clause(Month, f.month) + Clause(Day, f.day) + Clause(Hour, f.hour);
    assert clauses == " AND year='2024' AND month='10' AND day='17' AND hour='01'" by {
      assert " AND year='2024'" + " AND month='10'" + " AND day='17'" + " AND hour='01'"
          == " AND year='2024' AND month='10' AND day='17' AND hour='01'";
    }
  }

  lemma DefaultClauses()
    ensures Clause(Year, DefaultYear) == " AND year='2024'"
    ensures Clause(Month, DefaultMonth) == " AND month='10'"
    ensures Clause(Day, DefaultDay) == " AND day='17'"
    ensures Clause(Hour, DefaultHour) == " AND hour='01'"
  {
    IsAnySpellings(DefaultYear);
    IsAnySpellings(DefaultMonth);
    IsAnySpellings(DefaultDay);
    IsAnySpellings(DefaultHour);
  }
}
