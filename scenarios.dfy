/**
 * Worked requests: the query strings buildQuery produces for a few typical
 * table requests, including the ones where its output departs from what a
 * reader of the request type would expect.
 */
module QueryScenarios {
  import opened Text
  import opened Soql
  import opened QueryCompiler
  import opened QueryProperties

  /** An empty request compiles to the empty query string. */
  lemma EmptyRequestCompilesToNothing(formatDate: Instant -> string)
    ensures CompileQuery(EmptyRequest, formatDate) == ""
  {
    UnfilteredColumns(WhereColumns, map[], formatDate);
    CompileQueryEmptyIff(EmptyRequest, formatDate);
  }

  /** A select list alone yields `$where=$select=a,b`, not `$select=a,b`. */
  lemma SelectOnlyRequest(formatDate: Instant -> string)
    ensures CompileQuery(EmptyRequest.(select := ["a", "b"]), formatDate) == "$where=$select=a,b"
  {
    var request := EmptyRequest.(select := ["a", "b"]);
    UnfilteredColumns(WhereColumns, map[], formatDate);
    SelectSwallowedIntoWhere(request, formatDate);
    assert Join(["a", "b"], ",") == "a,b" by {
      assert ["a", "b"][..1] == ["a"];
    }
  }

  /** A `dateBefore` filter compares the formatted date with `<`. */
  lemma DateBeforeFragment(d: Instant, formatDate: Instant -> string)
    requires formatDate(d) == "2020-03-01"
    ensures DateQuery("date", Some(DateColumn(DateFilter(Some(d), DateBefore))), formatDate)
         == ["date<'2020-03-01'"]
  {
    assert "date" + "<'" + formatDate(d) + "'" == "date<'2020-03-01'";
  }

  /** A `contains` filter on `street` becomes a `contains(...)` call. */
  lemma StreetContainsFragment()
    ensures TextQuery("street", Some(TextColumn(TextFilter("Smith", Contains))))
         == ["contains(street,'Smith')"]
  {
    assert "contains(" + "street" + ",'" + "Smith" + "')" == "contains(street,'Smith')";
  }

  /** The fragments of two entries `gt 5` and `lt 2` on `posted_speed`. */
  lemma GtFiveLtTwo(c0: NumericCondition, c1: NumericCondition)
    requires c0.value == 5 && c0.matchMode == Gt
    requires c1.value == 2 && c1.matchMode == Lt
    ensures NumericFragments("posted_speed", [c0, c1]) == ["posted_speed>5", "posted_speed<2"]
  {
    assert "posted_speed" + ">" + "5" == "posted_speed>5";
    assert "posted_speed" + "<" + "2" == "posted_speed<2";
    var conds := [c0, c1];
    assert conds[..1] == [c0] && [c0][..0] == [];
    assert IntToString(5) == "5" && IntToString(2) == "2";
    assert NumericFragment("posted_speed", c0) == ["posted_speed>5"];
    assert NumericFragment("posted_speed", c1) == ["posted_speed<2"];
    assert NumericFragments("posted_speed", [c0]) == ["posted_speed>5"];
  }

  /** A column whose entries keep two fragments gets them joined and parenthesised. */
  lemma TwoFragmentGroup(col: string, conds: seq<NumericCondition>, a: string, b: string)
    requires NumericFragments(col, conds) == [a, b]
    ensures conds != []
    ensures NumericQuery(col, Some(NumericColumn(conds))) == ["(" + a + NumericJoiner(conds) + b + ")"]
  {
    var j := NumericJoiner(conds);
    assert Join([a, b], j) == a + j + b by {
      assert [a, b][..1] == [a];
    }
    assert "(" + (a + j + b) + ")" == "(" + a + j + b + ")";
    var r := NumericQuery(col, Some(NumericColumn(conds)));
    assert |r| == 1 && r[0] == "(" + Join([a, b], j) + ")";
    assert r == [r[0]];
  }

  /** Two kept entries of a numeric column are joined by their operator and parenthesised. */
  lemma NumericOrGroup()
    ensures NumericQuery("posted_speed", Some(NumericColumn([
              NumericCondition(5, Gt, "or"), NumericCondition(2, Lt, "or")])))
         == ["(posted_speed>5 or posted_speed<2)"]
  {
    var a, b := "posted_speed>5", "posted_speed<2";
    OrGroupLiteral(a, b);
    var conds := [NumericCondition(5, Gt, "or"), NumericCondition(2, Lt, "or")];
    GtFiveLtTwo(conds[0], conds[1]);
    TwoFragmentGroup("posted_speed", conds, a, b);
  }

  /** A literal equality kept in a lemma of its own, where the verifier checks it cheaply. */
  lemma OrGroupLiteral(a: string, b: string)
    requires a == "posted_speed>5" && b == "posted_speed<2"
    ensures "(" + a + " or " + b + ")" == "(posted_speed>5 or posted_speed<2)"
  {
  }

  /**
   * The joiner comes from the first entry even when that entry is skipped for
   * its zero value, whatever the kept entries say.
   */
  lemma SkippedFirstEntryStillSetsJoiner(col: string, skipped: NumericCondition, rest: seq<NumericCondition>)
    requires skipped.value == 0
    requires |NumericFragments(col, rest)| > 1
    ensures NumericQuery(col, Some(NumericColumn([skipped] + rest)))
         == ["(" + Join(NumericFragments(col, rest), if skipped.operator == "and" then " and " else " or ") + ")"]
  {
    var conds := [skipped] + rest;
    NumericFragmentsCons(col, skipped, rest);
    assert NumericFragment(col, skipped) == [];
    assert NumericFragments(col, conds) == NumericFragments(col, rest);
    assert conds[0] == skipped;
    assert NumericJoiner(conds) == if skipped.operator == "and" then " and " else " or ";
  }

  lemma PostedSpeedSixtyFragments()
    ensures NumericFragments("posted_speed", [NumericCondition(60, EqualsMode, "and")]) == ["posted_speed=60"]
  {
    var conds := [NumericCondition(60, EqualsMode, "and")];
    assert conds[..0] == [];
    assert IntToString(60) == "60";
    assert "posted_speed" + "=" + "60" == "posted_speed=60";
  }

  lemma HeadColumnsUnfiltered(filters: map<string, Filter>, formatDate: Instant -> string)
    requires filters.Keys == {"posted_speed"}
    ensures PredicatesOf(WhereColumns[..8], filters, formatDate) == []
  {
    var head := WhereColumns[..8];
    forall i | 0 <= i < |head| ensures head[i].0 !in filters {
      assert |head[i].0| != |"posted_speed"|;
    }
    UnfilteredColumns(head, filters, formatDate);
  }

  /** `posted_speed` is the last column the where clause visits (a literal fact in a lemma of its own, to keep callers cheap). */
  lemma PostedSpeedLast()
    ensures WhereColumns == WhereColumns[..8] + [("posted_speed", NumericKind)]
  {
  }

  /** The single numeric filter `posted_speed = 60` is the only where predicate. */
  lemma PostedSpeedSixty(formatDate: Instant -> string)
    ensures WherePredicates(map["posted_speed" := NumericColumn([NumericCondition(60, EqualsMode, "and")])], formatDate)
         == ["posted_speed=60"]
  {
    var conds := [NumericCondition(60, EqualsMode, "and")];
    var filters := map["posted_speed" := NumericColumn(conds)];
    var head := WhereColumns[..8];
    PostedSpeedLast();
    HeadColumnsUnfiltered(filters, formatDate);
    PredicatesOfSnoc(head, "posted_speed", NumericKind, filters, formatDate);
    PostedSpeedSixtyFragments();
  }

  lemma JoinThree(a: string, b: string, c: string, sep: string)
    ensures Join([a, b, c], sep) == a + sep + b + sep + c
  {
    assert [a, b, c][..2] == [a, b];
    assert [a, b][..1] == [a];
    assert Join([a], sep) == a;
    assert Join([a, b], sep) == a + sep + b;
  }

  /** The three clauses of a request with one predicate, a descending sort and a page size. */
  lemma WhereOrderLimitClauses(request: Request, formatDate: Instant -> string)
    requires request.filters.Some?
    requires WherePredicates(request.filters.value, formatDate) == ["posted_speed=60"]
    requires request.select == [] && request.group == "" && request.first == 0
    requires request.sortField == "date" && request.sortOrder == -1 && request.rows == 10
    ensures Clauses(request, formatDate) == ["$where=posted_speed=60", "$order=date desc", "$limit=10"]
  {
    assert "$where=" + "posted_speed=60" == "$where=posted_speed=60";
    assert "$order=" + "date" + " desc" == "$order=date desc";
    assert "$limit=" + "10" == "$limit=10";
    assert IntToString(10) == "10";
    assert WhereItems(request, formatDate) == ["posted_speed=60"];
  }

  /** One numeric filter, a descending sort and a page size. */
  lemma FilterSortAndLimit(request: Request, formatDate: Instant -> string)
    requires request == EmptyRequest.(
      filters := Some(map["posted_speed" := NumericColumn([NumericCondition(60, EqualsMode, "and")])]),
      sortField := "date", sortOrder := -1, rows := 10)
    ensures CompileQuery(request, formatDate) == "$where=posted_speed=60&$order=date desc&$limit=10"
  {
    var w, o, l := "$where=posted_speed=60", "$order=date desc", "$limit=10";
    PostedSpeedSixty(formatDate);
    WhereOrderLimitClauses(request, formatDate);
    JoinThree(w, o, l, "&");
    ThreeClauseLiteral(w, o, l);
  }

  /** A literal equality kept in a lemma of its own, where the verifier checks it cheaply. */
  lemma ThreeClauseLiteral(w: string, o: string, l: string)
    requires w == "$where=posted_speed=60" && o == "$order=date desc" && l == "$limit=10"
    ensures w + "&" + o + "&" + l == "$where=posted_speed=60&$order=date desc&$limit=10"
  {
  }
}
