/**
 * What the compiled query string means: when it is empty, which parameters it
 * carries and in which order, how the select list ends up inside `$where`,
 * which filter keys matter, and where unescaped values break it apart.
 */
module QueryProperties {
  import opened Text
  import opened Soql
  import opened QueryCompiler

  // ------------------------------------------------------------ reading back

  /** A `name=value` parameter, split at its first '='. */
  function Param(clause: string): (p: (string, string))
    ensures '=' !in p.0
  {
    if clause == [] then ("", "")
    else if clause[0] == '=' then ("", clause[1..])
    else var p := Param(clause[1..]); ([clause[0]] + p.0, p.1)
  }

  function Params(clauses: seq<string>): (ps: seq<(string, string)>)
    ensures |ps| == |clauses|
  {
    if clauses == [] then [] else [Param(clauses[0])] + Params(clauses[1..])
  }

  /**
   * The parameter structure of a query string: split at `&`, then each piece
   * at its first `=`. This is the reading before URL decoding; a `#` (which
   * would end the query) and `%xx` escapes get no special treatment.
   */
  function ParseQuery(qs: string): seq<(string, string)>
  {
    if qs == "" then [] else Params(Split(qs, '&'))
  }

  lemma {:induction false} ParamOf(name: string, value: string)
    requires '=' !in name
    ensures Param(name + "=" + value) == (name, value)
  {
    if name != [] {
      ParamOf(name[1..], value);
      assert (name + "=" + value)[1..] == name[1..] + "=" + value;
      assert [name[0]] + name[1..] == name;
    } else {
      assert name + "=" + value == ['='] + value;
    }
  }

  // ------------------------------------------------------------ the layout

  /**
   * The parameters the clauses stand for, in the order they are written:
   * `$where`, `$group`, `$order`, `$offset` (from `first`), `$limit`
   * (from `rows`), each present only when its field is truthy.
   */
  function ExpectedLayout(items: seq<string>, request: Request): seq<(string, string)>
  {
    (if items != [] then [("$where", Join(items, " and "))] else [])
    + (if request.group != "" then [("$group", request.group)] else [])
    + (if request.sortField != "" then
         [("$order", request.sortField + if request.sortOrder == -1 then " desc" else "")]
       else [])
    + (if request.first != 0 then [("$offset", IntToString(request.first))] else [])
    + (if request.rows != 0 then [("$limit", IntToString(request.rows))] else [])
  }

  function ExpectedParams(request: Request, formatDate: Instant -> string): seq<(string, string)>
    requires request.filters.Some?
  {
    ExpectedLayout(WhereItems(request, formatDate), request)
  }

  lemma {:induction false} ParamsAppend(a: seq<string>, b: seq<string>)
    ensures Params(a + b) == Params(a) + Params(b)
  {
    if a == [] {
      assert a + b == b;
    } else {
      assert (a + b)[0] == a[0] && (a + b)[1..] == a[1..] + b;
      ParamsAppend(a[1..], b);
    }
  }

  lemma ParamsSingle(name: string, value: string)
    requires '=' !in name
    ensures Params([name + "=" + value]) == [(name, value)]
  {
    ParamOf(name, value);
    assert [name + "=" + value][1..] == [];
  }

  lemma WhereParams(items: seq<string>)
    ensures Params(WhereClause(items)) == if items != [] then [("$where", Join(items, " and "))] else []
  {
    if items != [] {
      ParamsSingle("$where", Join(items, " and "));
      assert "$where=" + Join(items, " and ") == "$where" + "=" + Join(items, " and ");
    }
  }

  lemma GroupParams(group: string)
    ensures Params(GroupClause(group)) == if group != "" then [("$group", group)] else []
  {
    if group != "" {
      ParamsSingle("$group", group);
      assert "$group=" + group == "$group" + "=" + group;
    }
  }

  lemma OrderParams(sortField: string, sortOrder: int)
    ensures Params(OrderClause(sortField, sortOrder)) ==
      if sortField != "" then [("$order", sortField + if sortOrder == -1 then " desc" else "")] else []
  {
    if sortField != "" {
      var value := sortField + if sortOrder == -1 then " desc" else "";
      ParamsSingle("$order", value);
      assert "$order=" + sortField + (if sortOrder == -1 then " desc" else "") == "$order" + "=" + value;
    }
  }

  lemma PageParams(name: string, n: int)
    requires name == "$offset" || name == "$limit"
    ensures Params(if n != 0 then [name + "=" + IntToString(n)] else []) ==
      if n != 0 then [(name, IntToString(n))] else []
  {
    if n != 0 {
      ParamsSingle(name, IntToString(n));
    }
  }

  /** Each assembled clause reads back as the parameter it stands for. */
  lemma AssembleParams(items: seq<string>, request: Request)
    ensures Params(AssembleClauses(items, request)) == ExpectedLayout(items, request)
  {
    var w := WhereClause(items);
    var g := GroupClause(request.group);
    var o := OrderClause(request.sortField, request.sortOrder);
    var f := OffsetClause(request.first);
    var l := LimitClause(request.rows);
    WhereParams(items);
    GroupParams(request.group);
    OrderParams(request.sortField, request.sortOrder);
    PageParams("$offset", request.first);
    assert "$offset=" == "$offset" + "=";
    PageParams("$limit", request.rows);
    assert "$limit=" == "$limit" + "=";
    ParamsAppend(w, g);
    ParamsAppend(w + g, o);
    ParamsAppend(w + g + o, f);
    ParamsAppend(w + g + o + f, l);
  }

  // ------------------------------------------------------------ ampersands

  /**
   * Nothing that reaches the query string contains '&': select items, group,
   * sort field, the values of text filters on text columns and the formatted
   * dates of date filters on date columns. Filters under keys the builders
   * never read may hold anything.
   */
  predicate AmpersandFree(request: Request, formatDate: Instant -> string)
    requires request.filters.Some?
  {
    var filters := request.filters.value;
    && (forall i :: 0 <= i < |request.select| ==> '&' !in request.select[i])
    && '&' !in request.group
    && '&' !in request.sortField
    && (forall col :: (col, TextKind) in WhereColumns && col in filters && filters[col].TextColumn? ==>
          '&' !in filters[col].text.value)
    && (forall col :: (col, DateKind) in WhereColumns && col in filters && filters[col].DateColumn? ==>
          filters[col].date.value.Some? ==> '&' !in formatDate(filters[col].date.value.value))
  }

  lemma ColumnQueryAmpersandFree(col: string, kind: ColumnKind, request: Request,
                                 formatDate: Instant -> string)
    requires request.filters.Some? && AmpersandFree(request, formatDate)
    requires '&' !in col && (col, kind) in WhereColumns
    ensures forall i :: 0 <= i < |ColumnQuery(col, kind, request.filters.value, formatDate)| ==>
      '&' !in ColumnQuery(col, kind, request.filters.value, formatDate)[i]
  {
    var filters := request.filters.value;
    var column := Lookup(filters, col);
    match kind
    case DateKind =>
      if column.Some? && column.value.DateColumn? && column.value.date.value.Some? {
        assert '&' !in formatDate(column.value.date.value.value);
      }
      DateQueryAmpersandFree(col, column, formatDate);
    case TextKind =>
      if column.Some? && column.value.TextColumn? {
        assert '&' !in column.value.text.value;
      }
      TextQueryAmpersandFree(col, column);
    case NumericKind =>
      NumericQueryAmpersandFree(col, column);
  }

  lemma NumericQueryAmpersandFree(col: string, column: Option<Filter>)
    requires '&' !in col
    ensures forall i :: 0 <= i < |NumericQuery(col, column)| ==> '&' !in NumericQuery(col, column)[i]
  {
    if NumericQuery(col, column) != [] {
      var conds := column.value.conditions;
      var frags := NumericFragments(col, conds);
      forall i | 0 <= i < |frags| ensures '&' !in frags[i] {
        NumericFragmentsAmpersandFree(col, conds, i);
      }
      JoinFree(frags, NumericJoiner(conds), '&');
    }
  }

  lemma DateQueryAmpersandFree(col: string, column: Option<Filter>, formatDate: Instant -> string)
    requires '&' !in col
    requires column.Some? && column.value.DateColumn? && column.value.date.value.Some? ==>
      '&' !in formatDate(column.value.date.value.value)
    ensures forall i :: 0 <= i < |DateQuery(col, column, formatDate)| ==> '&' !in DateQuery(col, column, formatDate)[i]
  {
    match column
    case Some(DateColumn(DateFilter(Some(d), mode))) =>
      var p := formatDate(d);
      match mode {
        case DateIs => assert '&' !in col + "='" + p + "'";
        case DateIsNot => assert '&' !in col + "!='" + p + "'";
        case DateBefore => assert '&' !in col + "<'" + p + "'";
        case DateAfter => assert '&' !in col + ">'" + p + "'";
        case _ =>
      }
    case _ =>
  }

  lemma TextQueryAmpersandFree(col: string, column: Option<Filter>)
    requires '&' !in col
    requires column.Some? && column.value.TextColumn? ==> '&' !in column.value.text.value
    ensures forall i :: 0 <= i < |TextQuery(col, column)| ==> '&' !in TextQuery(col, column)[i]
  {
    match column
    case Some(TextColumn(TextFilter(v, mode))) =>
      if v != "" {
        match mode
        case StartsWith => assert '&' !in "starts_with(" + col + ",'" + v + "')";
        case EndsWith => assert '&' !in col + " like '%25" + v + "'";
        case Contains => assert '&' !in "contains(" + col + ",'" + v + "')";
        case NotContains => assert '&' !in "not contains(" + col + ",'" + v + "')";
        case EqualsMode => assert '&' !in col + "='" + v + "'";
        case NotEqualsMode => assert '&' !in col + "!='" + v + "'";
        case _ =>
      }
    case _ =>
  }

  lemma NumericFragmentAmpersandFree(col: string, c: NumericCondition)
    requires '&' !in col
    ensures forall i :: 0 <= i < |NumericFragment(col, c)| ==> '&' !in NumericFragment(col, c)[i]
  {
    if c.value != 0 {
      var v := IntToString(c.value);
      match c.matchMode
      case EqualsMode => assert '&' !in col + "=" + v;
      case NotEqualsMode => assert '&' !in col + "!=" + v;
      case Lt => assert '&' !in col + "<" + v;
      case Lte => assert '&' !in col + "<=" + v;
      case Gt => assert '&' !in col + ">" + v;
      case Gte => assert '&' !in col + ">=" + v;
      case _ =>
    }
  }

  lemma {:induction false} NumericFragmentsAmpersandFree(col: string, conds: seq<NumericCondition>, i: nat)
    requires '&' !in col
    requires i < |NumericFragments(col, conds)|
    ensures '&' !in NumericFragments(col, conds)[i]
  {
    var init := NumericFragments(col, conds[..|conds| - 1]);
    if i < |init| {
      NumericFragmentsAmpersandFree(col, conds[..|conds| - 1], i);
    } else {
      NumericFragmentAmpersandFree(col, conds[|conds| - 1]);
    }
  }

  lemma {:induction false} PredicatesOfAmpersandFree(columns: seq<(string, ColumnKind)>, request: Request,
                                                     formatDate: Instant -> string, i: nat)
    requires request.filters.Some? && AmpersandFree(request, formatDate)
    requires forall j :: 0 <= j < |columns| ==> '&' !in columns[j].0 && columns[j] in WhereColumns
    requires i < |PredicatesOf(columns, request.filters.value, formatDate)|
    ensures '&' !in PredicatesOf(columns, request.filters.value, formatDate)[i]
  {
    var init := columns[..|columns| - 1];
    var (col, kind) := columns[|columns| - 1];
    if i < |PredicatesOf(init, request.filters.value, formatDate)| {
      PredicatesOfAmpersandFree(init, request, formatDate, i);
    } else {
      ColumnQueryAmpersandFree(col, kind, request, formatDate);
    }
  }

  lemma AssembleAmpersandFree(items: seq<string>, request: Request)
    requires NoneContains(items, '&')
    requires '&' !in request.group && '&' !in request.sortField
    ensures NoneContains(AssembleClauses(items, request), '&')
  {
    var w := WhereClause(items);
    var g := GroupClause(request.group);
    var o := OrderClause(request.sortField, request.sortOrder);
    var f := OffsetClause(request.first);
    var l := LimitClause(request.rows);
    assert NoneContains(w, '&') by {
      if items != [] {
        JoinFree(items, " and ", '&');
        assert '&' !in "$where=";
      }
    }
    assert NoneContains(g, '&') by {
      if request.group != "" { assert '&' !in "$group="; }
    }
    assert NoneContains(o, '&') by {
      if request.sortField != "" { assert '&' !in "$order=" && '&' !in " desc"; }
    }
    assert NoneContains(f, '&') by {
      if request.first != 0 { assert '&' !in "$offset="; }
    }
    assert NoneContains(l, '&') by {
      if request.rows != 0 { assert '&' !in "$limit="; }
    }
    NoneContainsAppend(w, g, '&');
    NoneContainsAppend(w + g, o, '&');
    NoneContainsAppend(w + g + o, f, '&');
    NoneContainsAppend(w + g + o + f, l, '&');
  }

  lemma WhereColumnNamesAmpersandFree()
    ensures forall j :: 0 <= j < |WhereColumns| ==> '&' !in WhereColumns[j].0
  {
    forall j | 0 <= j < |WhereColumns| ensures '&' !in WhereColumns[j].0 {
      if j == 0 { assert '&' !in "date"; }
      else if j == 1 { assert '&' !in "timeatsiteinhours"; }
      else if j == 2 { assert '&' !in "description_of_site"; }
      else if j == 3 { assert '&' !in "camera_location"; }
      else if j == 4 { assert '&' !in "street"; }
      else if j == 5 { assert '&' !in "number_checked"; }
      else if j == 6 { assert '&' !in "highest_speed"; }
      else if j == 7 { assert '&' !in "average_speed"; }
      else { assert '&' !in "posted_speed"; }
    }
  }

  lemma WhereItemsAmpersandFree(request: Request, formatDate: Instant -> string)
    requires request.filters.Some? && AmpersandFree(request, formatDate)
    ensures NoneContains(WhereItems(request, formatDate), '&')
  {
    var sel := SelectClause(request.select);
    var preds := WherePredicates(request.filters.value, formatDate);
    WhereColumnNamesAmpersandFree();
    forall i | 0 <= i < |preds| ensures '&' !in preds[i] {
      PredicatesOfAmpersandFree(WhereColumns, request, formatDate, i);
    }
    assert NoneContains(sel, '&') by {
      if request.select != [] {
        JoinFree(request.select, ",", '&');
        assert '&' !in "$select=";
      }
    }
    NoneContainsAppend(sel, preds, '&');
  }

  /**
   * Splitting the compiled query back at `&` and `=` yields exactly the
   * expected parameters, in order, provided no supplied value contains '&'.
   */
  lemma ParseCompiledQuery(request: Request, formatDate: Instant -> string)
    requires request.filters.Some? && AmpersandFree(request, formatDate)
    ensures ParseQuery(CompileQuery(request, formatDate)) == ExpectedParams(request, formatDate)
  {
    var items := WhereItems(request, formatDate);
    var clauses := AssembleClauses(items, request);
    WhereItemsAmpersandFree(request, formatDate);
    AssembleAmpersandFree(items, request);
    AssembleParams(items, request);
    AssembleNonEmpty(items, request);
    JoinEmptyIff(clauses, "&");
    if clauses != [] {
      SplitJoin(clauses, '&');
    }
  }

  /**
   * The other direction: as soon as one collected where item contains '&', the
   * query splits into more parameters than the request stands for, because
   * values are copied into the query string without escaping.
   */
  lemma AmpersandInItemAddsParameters(request: Request, formatDate: Instant -> string, k: nat)
    requires request.filters.Some?
    requires k < |WhereItems(request, formatDate)| && '&' in WhereItems(request, formatDate)[k]
    ensures |ParseQuery(CompileQuery(request, formatDate))| > |ExpectedParams(request, formatDate)|
  {
    var items := WhereItems(request, formatDate);
    var clauses := AssembleClauses(items, request);
    var joined := Join(items, " and ");
    JoinContains(items, " and ", k, '&');
    assert clauses[0] == "$where=" + joined;
    OccurrencesPositive(joined, '&');
    OccurrencesAppend("$where=", joined, '&');
    OccurrencesPositive(clauses[0], '&');
    var qs := Join(clauses, "&");
    assert "&" == ['&'];
    JoinOccurrences(clauses, '&', 0);
    assert qs != "";
    SplitLength(qs, '&');
    AssembleParams(items, request);
  }

  /** Every predicate a visited column pushes is among the predicates collected. */
  lemma {:induction false} PredicatesOfHas(columns: seq<(string, ColumnKind)>, filters: map<string, Filter>,
                                           formatDate: Instant -> string, j: nat, x: string)
    requires j < |columns| && x in ColumnQuery(columns[j].0, columns[j].1, filters, formatDate)
    ensures x in PredicatesOf(columns, filters, formatDate)
  {
    if j < |columns| - 1 {
      PredicatesOfHas(columns[..|columns| - 1], filters, formatDate, j, x);
    }
  }

  /**
   * A text filter on a where column whose value contains '&' breaks the query
   * apart: its predicate is pushed with the value verbatim.
   */
  lemma TextValueAmpersandAddsParameters(request: Request, formatDate: Instant -> string, j: nat)
    requires request.filters.Some?
    requires j < |WhereColumns| && WhereColumns[j].1 == TextKind
    requires var col := WhereColumns[j].0;
      && col in request.filters.value
      && request.filters.value[col].TextColumn?
      && '&' in request.filters.value[col].text.value
      && TextTemplate(col, request.filters.value[col].text.matchMode).Some?
    ensures |ParseQuery(CompileQuery(request, formatDate))| > |ExpectedParams(request, formatDate)|
  {
    var col := WhereColumns[j].0;
    var filters := request.filters.value;
    var v := filters[col].text.value;
    TextQueryMeaning(col, Lookup(filters, col));
    var q := TextQuery(col, Lookup(filters, col));
    var t := TextTemplate(col, filters[col].text.matchMode).value;
    assert q[0] == t.0 + v + t.1;
    assert '&' in q[0];
    PredicatesOfHas(WhereColumns, filters, formatDate, j, q[0]);
    var items := WhereItems(request, formatDate);
    var preds := WherePredicates(filters, formatDate);
    assert items == SelectClause(request.select) + preds;
    var i :| 0 <= i < |preds| && preds[i] == q[0];
    var k := |SelectClause(request.select)| + i;
    assert items[k] == q[0];
    AmpersandInItemAddsParameters(request, formatDate, k);
  }

  /** Every assembled clause is a non-empty `name=value` text. */
  lemma AssembleNonEmpty(items: seq<string>, request: Request)
    ensures forall i :: 0 <= i < |AssembleClauses(items, request)| ==> AssembleClauses(items, request)[i] != ""
  {
    var w := WhereClause(items);
    var g := GroupClause(request.group);
    var o := OrderClause(request.sortField, request.sortOrder);
    var f := OffsetClause(request.first);
    var l := LimitClause(request.rows);
    assert AssembleClauses(items, request) == w + g + o + f + l;
  }

  // ------------------------------------------------------------ other properties

  /** The query string is empty exactly when the request sets nothing truthy. */
  lemma CompileQueryEmptyIff(request: Request, formatDate: Instant -> string)
    requires request.filters.Some?
    ensures CompileQuery(request, formatDate) == "" <==>
      && request.select == []
      && WherePredicates(request.filters.value, formatDate) == []
      && request.group == ""
      && request.sortField == ""
      && request.first == 0
      && request.rows == 0
  {
    AssembleNonEmpty(WhereItems(request, formatDate), request);
    JoinEmptyIff(Clauses(request, formatDate), "&");
  }

  /**
   * A non-empty select list is not a parameter of its own: it becomes the head
   * of the where clause, so the query starts `$where=$select=`.
   */
  lemma SelectSwallowedIntoWhere(request: Request, formatDate: Instant -> string)
    requires request.filters.Some? && request.select != []
    ensures "$where=$select=" + Join(request.select, ",") <= CompileQuery(request, formatDate)
    ensures WherePredicates(request.filters.value, formatDate) == [] ==>
      Clauses(request, formatDate)[0] == "$where=$select=" + Join(request.select, ",")
  {
    var items := WhereItems(request, formatDate);
    var sel := "$select=" + Join(request.select, ",");
    assert items == [sel] + WherePredicates(request.filters.value, formatDate);
    WhereHeadLeads(items, request);
    assert "$where=$select=" + Join(request.select, ",") == "$where=" + sel;
  }

  /** The first collected where item opens the where clause, which opens the query. */
  lemma WhereHeadLeads(items: seq<string>, request: Request)
    requires items != []
    ensures "$where=" + items[0] <= Join(AssembleClauses(items, request), "&")
    ensures |items| == 1 ==> AssembleClauses(items, request)[0] == "$where=" + items[0]
  {
    var clauses := AssembleClauses(items, request);
    assert clauses[0] == "$where=" + Join(items, " and ");
    JoinStartsWithFirst(items, " and ");
    JoinStartsWithFirst(clauses, "&");
  }

  lemma {:induction false} PredicatesOfIgnoreKey(columns: seq<(string, ColumnKind)>, filters: map<string, Filter>,
                                                 key: string, f: Filter, formatDate: Instant -> string)
    requires forall i :: 0 <= i < |columns| ==> columns[i].0 != key
    ensures PredicatesOf(columns, filters[key := f], formatDate) == PredicatesOf(columns, filters, formatDate)
  {
    if columns != [] {
      var (col, kind) := columns[|columns| - 1];
      PredicatesOfIgnoreKey(columns[..|columns| - 1], filters, key, f, formatDate);
      assert Lookup(filters[key := f], col) == Lookup(filters, col);
    }
  }

  /** A filter under a key that is not one of the where columns changes nothing. */
  lemma UnknownColumnIgnored(request: Request, key: string, f: Filter, formatDate: Instant -> string)
    requires request.filters.Some?
    requires forall i :: 0 <= i < |WhereColumns| ==> WhereColumns[i].0 != key
    ensures CompileQuery(request.(filters := Some(request.filters.value[key := f])), formatDate)
         == CompileQuery(request, formatDate)
  {
    PredicatesOfIgnoreKey(WhereColumns, request.filters.value, key, f, formatDate);
  }

  /** `having` is accepted but never read. */
  lemma HavingIgnored(request: Request, having: string, formatDate: Instant -> string)
    requires request.filters.Some?
    ensures CompileQuery(request.(having := having), formatDate) == CompileQuery(request, formatDate)
  {
  }

  /** Visiting one more column appends exactly what that column's builder pushes. */
  lemma PredicatesOfSnoc(columns: seq<(string, ColumnKind)>, col: string, kind: ColumnKind,
                         filters: map<string, Filter>, formatDate: Instant -> string)
    ensures PredicatesOf(columns + [(col, kind)], filters, formatDate)
         == PredicatesOf(columns, filters, formatDate) + ColumnQuery(col, kind, filters, formatDate)
  {
    assert (columns + [(col, kind)])[..|columns|] == columns;
  }

  /** Visiting one more column, behind whatever was collected before. */
  lemma VisitBehind(start: seq<string>, columns: seq<(string, ColumnKind)>, col: string, kind: ColumnKind,
                    filters: map<string, Filter>, formatDate: Instant -> string)
    ensures start + PredicatesOf(columns + [(col, kind)], filters, formatDate)
         == start + PredicatesOf(columns, filters, formatDate) + ColumnQuery(col, kind, filters, formatDate)
  {
    PredicatesOfSnoc(columns, col, kind, filters, formatDate);
    AppendAssoc(start, PredicatesOf(columns, filters, formatDate), ColumnQuery(col, kind, filters, formatDate));
  }

  /**
   * WherePredicates unrolled: appending them is appending what each builder
   * pushes, one column after the other in the fixed order.
   */
  lemma WhereUnrolled(start: seq<string>, filters: map<string, Filter>, formatDate: Instant -> string)
    ensures start + WherePredicates(filters, formatDate)
         == start
            + ColumnQuery("date", DateKind, filters, formatDate)
            + ColumnQuery("timeatsiteinhours", NumericKind, filters, formatDate)
            + ColumnQuery("description_of_site", TextKind, filters, formatDate)
            + ColumnQuery("camera_location", TextKind, filters, formatDate)
            + ColumnQuery("street", TextKind, filters, formatDate)
            + ColumnQuery("number_checked", NumericKind, filters, formatDate)
            + ColumnQuery("highest_speed", NumericKind, filters, formatDate)
            + ColumnQuery("average_speed", NumericKind, filters, formatDate)
            + ColumnQuery("posted_speed", NumericKind, filters, formatDate)
  {
    var visited: seq<(string, ColumnKind)> := [];
    assert start + PredicatesOf(visited, filters, formatDate) == start;
    VisitBehind(start, visited, "date", DateKind, filters, formatDate);
    visited := visited + [("date", DateKind)];
    VisitBehind(start, visited, "timeatsiteinhours", NumericKind, filters, formatDate);
    visited := visited + [("timeatsiteinhours", NumericKind)];
    VisitBehind(start, visited, "description_of_site", TextKind, filters, formatDate);
    visited := visited + [("description_of_site", TextKind)];
    VisitBehind(start, visited, "camera_location", TextKind, filters, formatDate);
    visited := visited + [("camera_location", TextKind)];
    VisitBehind(start, visited, "street", TextKind, filters, formatDate);
    visited := visited + [("street", TextKind)];
    VisitBehind(start, visited, "number_checked", NumericKind, filters, formatDate);
    visited := visited + [("number_checked", NumericKind)];
    VisitBehind(start, visited, "highest_speed", NumericKind, filters, formatDate);
    visited := visited + [("highest_speed", NumericKind)];
    VisitBehind(start, visited, "average_speed", NumericKind, filters, formatDate);
    visited := visited + [("average_speed", NumericKind)];
    VisitBehind(start, visited, "posted_speed", NumericKind, filters, formatDate);
    visited := visited + [("posted_speed", NumericKind)];
    WhereColumnsInOrder();
  }

  /**
   * The where columns, one after the other, as WhereUnrolled visits them: a
   * literal fact in a lemma of its own, so WhereUnrolled's proof stays cheap.
   */
  lemma WhereColumnsInOrder()
    ensures [] + [("date", DateKind)] + [("timeatsiteinhours", NumericKind)]
      + [("description_of_site", TextKind)] + [("camera_location", TextKind)]
      + [("street", TextKind)] + [("number_checked", NumericKind)]
      + [("highest_speed", NumericKind)] + [("average_speed", NumericKind)]
      + [("posted_speed", NumericKind)] == WhereColumns
  {
  }

  /** Columns without a filter contribute no predicate. */
  lemma {:induction false} UnfilteredColumns(columns: seq<(string, ColumnKind)>, filters: map<string, Filter>,
                                             formatDate: Instant -> string)
    requires forall i :: 0 <= i < |columns| ==> columns[i].0 !in filters
    ensures PredicatesOf(columns, filters, formatDate) == []
  {
    if columns != [] {
      UnfilteredColumns(columns[..|columns| - 1], filters, formatDate);
    }
  }

  /** Building a numeric column's fragments front to back gives the same list. */
  lemma {:induction false} NumericFragmentsCons(col: string, c: NumericCondition, rest: seq<NumericCondition>)
    ensures NumericFragments(col, [c] + rest) == NumericFragment(col, c) + NumericFragments(col, rest)
  {
    if rest == [] {
      assert ([c] + rest)[..0] == [];
      assert [c] + rest == [c];
    } else {
      var all := [c] + rest;
      var init := rest[..|rest| - 1];
      var last := rest[|rest| - 1];
      assert all[..|all| - 1] == [c] + init;
      assert all[|all| - 1] == last;
      NumericFragmentsCons(col, c, init);
      assert NumericFragments(col, all)
          == (NumericFragment(col, c) + NumericFragments(col, init)) + NumericFragment(col, last);
      AppendAssoc(NumericFragment(col, c), NumericFragments(col, init), NumericFragment(col, last));
      assert NumericFragments(col, rest) == NumericFragments(col, init) + NumericFragment(col, last);
    }
  }
}
