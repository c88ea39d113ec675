/**
 * The query string buildQuery produces, as functions of the request: one
 * function per per-column builder, the where folding, the remaining clauses
 * and the final `&`-join. The imperative service methods are proved equal to
 * these; the lemmas here state what the query string means.
 */
module QueryCompiler {
  import opened Text
  import opened Soql

  /** `request.filters[col]`, with a missing key read as absent. */
  function Lookup(filters: map<string, Filter>, col: string): Option<Filter>
  {
    if col in filters then Some(filters[col]) else None
  }

  // ---------------------------------------------------------------- date

  /**
   * The comparison each date match mode stands for. DateQuery writes the same
   * table out case by case, as buildDateQuery does; this table is the
   * independent reference DateQueryMeaning checks that body against.
   */
  function DateComparison(mode: MatchMode): Option<string>
  {
    match mode
    case DateIs => Some("=")
    case DateIsNot => Some("!=")
    case DateBefore => Some("<")
    case DateAfter => Some(">")
    case _ => None
  }

  /** What buildDateQuery pushes for column `col`. */
  function DateQuery(col: string, column: Option<Filter>, formatDate: Instant -> string): seq<string>
  {
    match column
    case Some(DateColumn(DateFilter(Some(d), mode))) =>
      var parsedDate := formatDate(d);
      (match mode
       case DateIs => [col + "='" + parsedDate + "'"]
       case DateIsNot => [col + "!='" + parsedDate + "'"]
       case DateBefore => [col + "<'" + parsedDate + "'"]
       case DateAfter => [col + ">'" + parsedDate + "'"]
       case _ => [])
    case _ => []
  }

  /**
   * buildDateQuery pushes at most one predicate, exactly when the column holds a
   * date and one of the four date modes, and that predicate compares the
   * column with the quoted formatted date.
   */
  lemma DateQueryMeaning(col: string, column: Option<Filter>, formatDate: Instant -> string)
    ensures |DateQuery(col, column, formatDate)| <= 1
    ensures DateQuery(col, column, formatDate) != [] <==>
      && column.Some? && column.value.DateColumn?
      && column.value.date.value.Some?
      && DateComparison(column.value.date.matchMode).Some?
    ensures DateQuery(col, column, formatDate) != [] ==>
      DateQuery(col, column, formatDate)[0]
        == col + DateComparison(column.value.date.matchMode).value
           + "'" + formatDate(column.value.date.value.value) + "'"
  {
    match column
    case Some(DateColumn(DateFilter(Some(d), mode))) =>
      var p := formatDate(d);
      match mode {
        case DateIs => assert col + "='" + p + "'" == col + "=" + "'" + p + "'";
        case DateIsNot => assert col + "!='" + p + "'" == col + "!=" + "'" + p + "'";
        case DateBefore => assert col + "<'" + p + "'" == col + "<" + "'" + p + "'";
        case DateAfter => assert col + ">'" + p + "'" == col + ">" + "'" + p + "'";
        case _ =>
      }
    case _ =>
  }

  // ---------------------------------------------------------------- text

  /**
   * The text written before and after the value, per text match mode. The
   * reference TextQueryMeaning checks TextQuery's case-by-case body against.
   */
  function TextTemplate(col: string, mode: MatchMode): Option<(string, string)>
  {
    match mode
    case StartsWith => Some(("starts_with(" + col + ",'", "')"))
    case EndsWith => Some((col + " like '%25", "'"))
    case Contains => Some(("contains(" + col + ",'", "')"))
    case NotContains => Some(("not contains(" + col + ",'", "')"))
    case EqualsMode => Some((col + "='", "'"))
    case NotEqualsMode => Some((col + "!='", "'"))
    case _ => None
  }

  /**
   * What buildStringQuery pushes for column `col`. The value is copied into the
   * fragment verbatim: nothing is escaped.
   */
  function TextQuery(col: string, column: Option<Filter>): seq<string>
  {
    match column
    case Some(TextColumn(TextFilter(v, mode))) =>
      if v == "" then []
      else (match mode
        case StartsWith => ["starts_with(" + col + ",'" + v + "')"]
        case EndsWith => [col + " like '%25" + v + "'"]
        case Contains => ["contains(" + col + ",'" + v + "')"]
        case NotContains => ["not contains(" + col + ",'" + v + "')"]
        case EqualsMode => [col + "='" + v + "'"]
        case NotEqualsMode => [col + "!='" + v + "'"]
        case _ => [])
    case _ => []
  }

  /**
   * buildStringQuery pushes at most one predicate, exactly when the column holds
   * a non-empty text and one of the six text modes, and that predicate is the
   * mode's template around the value.
   */
  lemma TextQueryMeaning(col: string, column: Option<Filter>)
    ensures |TextQuery(col, column)| <= 1
    ensures TextQuery(col, column) != [] <==>
      && column.Some? && column.value.TextColumn?
      && column.value.text.value != ""
      && TextTemplate(col, column.value.text.matchMode).Some?
    ensures TextQuery(col, column) != [] ==>
      var t := TextTemplate(col, column.value.text.matchMode).value;
      TextQuery(col, column)[0] == t.0 + column.value.text.value + t.1
  {
    match column
    case Some(TextColumn(TextFilter(v, mode))) =>
      if v != "" {
        match mode {
          case StartsWith => assert "starts_with(" + col + ",'" + v + "')" == ("starts_with(" + col + ",'") + v + "')";
          case EndsWith => assert col + " like '%25" + v + "'" == (col + " like '%25") + v + "'";
          case Contains => assert "contains(" + col + ",'" + v + "')" == ("contains(" + col + ",'") + v + "')";
          case NotContains => assert "not contains(" + col + ",'" + v + "')" == ("not contains(" + col + ",'") + v + "')";
          case EqualsMode => assert col + "='" + v + "'" == (col + "='") + v + "'";
          case NotEqualsMode => assert col + "!='" + v + "'" == (col + "!='") + v + "'";
          case _ =>
        }
      }
    case _ =>
  }

  // ---------------------------------------------------------------- numeric

  /**
   * The comparison each numeric match mode stands for. The reference
   * NumericFragmentMeaning checks NumericFragment's case-by-case body against.
   */
  function NumericComparison(mode: MatchMode): Option<string>
  {
    match mode
    case EqualsMode => Some("=")
    case NotEqualsMode => Some("!=")
    case Lt => Some("<")
    case Lte => Some("<=")
    case Gt => Some(">")
    case Gte => Some(">=")
    case _ => None
  }

  /** What one pass of buildNumericQuery's loop adds to `tempQuery`. */
  function NumericFragment(col: string, c: NumericCondition): seq<string>
  {
    if c.value == 0 then []
    else
      var v := IntToString(c.value);
      match c.matchMode
      case EqualsMode => [col + "=" + v]
      case NotEqualsMode => [col + "!=" + v]
      case Lt => [col + "<" + v]
      case Lte => [col + "<=" + v]
      case Gt => [col + ">" + v]
      case Gte => [col + ">=" + v]
      case _ => []
  }

  /**
   * One loop pass keeps an entry exactly when its value is truthy and its mode
   * is one of the six numeric modes, as `column<op>value`.
   */
  lemma NumericFragmentMeaning(col: string, c: NumericCondition)
    ensures |NumericFragment(col, c)| <= 1
    ensures NumericFragment(col, c) != [] <==> c.value != 0 && NumericComparison(c.matchMode).Some?
    ensures NumericFragment(col, c) != [] ==>
      NumericFragment(col, c)[0] == col + NumericComparison(c.matchMode).value + IntToString(c.value)
  {
  }

  /** One loop pass adds at most one fragment, and it starts with the column name. */
  lemma NumericFragmentShape(col: string, c: NumericCondition)
    ensures |NumericFragment(col, c)| <= 1
    ensures forall i :: 0 <= i < |NumericFragment(col, c)| ==> col < NumericFragment(col, c)[i]
  {
    NumericFragmentMeaning(col, c);
    if NumericFragment(col, c) != [] {
      var tail := NumericComparison(c.matchMode).value + IntToString(c.value);
      assert NumericFragment(col, c)[0] == col + tail;
    }
  }

  /** The loop keeps at most one fragment per entry, each starting with the column name. */
  lemma {:induction false} NumericFragmentsShape(col: string, conds: seq<NumericCondition>)
    ensures |NumericFragments(col, conds)| <= |conds|
    ensures forall i :: 0 <= i < |NumericFragments(col, conds)| ==> col < NumericFragments(col, conds)[i]
  {
    if conds != [] {
      var init := conds[..|conds| - 1];
      var prev := NumericFragments(col, init);
      var add := NumericFragment(col, conds[|conds| - 1]);
      assert NumericFragments(col, conds) == prev + add;
      NumericFragmentsShape(col, init);
      NumericFragmentShape(col, conds[|conds| - 1]);
      forall i | 0 <= i < |prev + add| ensures col < (prev + add)[i] {
        if i < |prev| {
          assert (prev + add)[i] == prev[i];
        } else {
          assert (prev + add)[i] == add[i - |prev|];
        }
      }
    }
  }

  /** `tempQuery` after the loop has visited `conds`. */
  function NumericFragments(col: string, conds: seq<NumericCondition>): seq<string>
  {
    if conds == [] then []
    else NumericFragments(col, conds[..|conds| - 1]) + NumericFragment(col, conds[|conds| - 1])
  }

  /** The joiner between one column's fragments: decided by the FIRST entry alone. */
  function NumericJoiner(conds: seq<NumericCondition>): string
    requires conds != []
  {
    if conds[0].operator == "and" then " and " else " or "
  }

  /** What buildNumericQuery pushes for column `col`. */
  function NumericQuery(col: string, column: Option<Filter>): seq<string>
  {
    match column
    case Some(NumericColumn(conds)) =>
      if conds == [] then []
      else
        var tempQuery := NumericFragments(col, conds);
        var res := Join(tempQuery, NumericJoiner(conds));
        if |tempQuery| > 1 then ["(" + res + ")"]
        else if res != "" then [res]
        else []
    case _ => []
  }

  /**
   * buildNumericQuery pushes at most one predicate, exactly when some entry is
   * kept: the single fragment as it is, or several joined by the first entry's
   * operator inside parentheses.
   */
  lemma NumericQueryMeaning(col: string, column: Option<Filter>)
    ensures |NumericQuery(col, column)| <= 1
    ensures NumericQuery(col, column) != [] <==>
      column.Some? && column.value.NumericColumn?
      && NumericFragments(col, column.value.conditions) != []
    ensures NumericQuery(col, column) != [] ==>
      var conds := column.value.conditions;
      var frags := NumericFragments(col, conds);
      NumericQuery(col, column)[0]
        == if |frags| == 1 then frags[0] else "(" + Join(frags, NumericJoiner(conds)) + ")"
  {
    if column.Some? && column.value.NumericColumn? {
      var conds := column.value.conditions;
      var frags := NumericFragments(col, conds);
      if conds == [] {
        assert frags == [];
      } else if |frags| == 1 {
        assert Join(frags, NumericJoiner(conds)) == frags[0];
        NumericFragmentsShape(col, conds);
        assert col < frags[0];
      }
    }
  }

  // ---------------------------------------------------------------- where

  /** What the builder of kind `kind` pushes for column `col`. */
  function ColumnQuery(col: string, kind: ColumnKind, filters: map<string, Filter>,
                       formatDate: Instant -> string): seq<string>
  {
    match kind
    case DateKind => DateQuery(col, Lookup(filters, col), formatDate)
    case TextKind => TextQuery(col, Lookup(filters, col))
    case NumericKind => NumericQuery(col, Lookup(filters, col))
  }

  /** The predicates the builders push while visiting `columns` in order. */
  function PredicatesOf(columns: seq<(string, ColumnKind)>, filters: map<string, Filter>,
                        formatDate: Instant -> string): seq<string>
  {
    if columns == [] then []
    else
      var (col, kind) := columns[|columns| - 1];
      PredicatesOf(columns[..|columns| - 1], filters, formatDate) + ColumnQuery(col, kind, filters, formatDate)
  }

  /** Every column pushes at most one predicate, and none pushes an empty one. */
  lemma {:induction false} PredicatesOfShape(columns: seq<(string, ColumnKind)>, filters: map<string, Filter>,
                                             formatDate: Instant -> string)
    ensures |PredicatesOf(columns, filters, formatDate)| <= |columns|
    ensures forall i :: 0 <= i < |PredicatesOf(columns, filters, formatDate)| ==>
      PredicatesOf(columns, filters, formatDate)[i] != ""
  {
    if columns != [] {
      var init := columns[..|columns| - 1];
      var (col, kind) := columns[|columns| - 1];
      PredicatesOfShape(init, filters, formatDate);
      var column := Lookup(filters, col);
      match kind {
        case DateKind => DateQueryMeaning(col, column, formatDate);
        case TextKind => TextQueryMeaning(col, column);
        case NumericKind =>
          NumericQueryMeaning(col, column);
          if NumericQuery(col, column) != [] {
            var frags := NumericFragments(col, column.value.conditions);
            NumericFragmentsShape(col, column.value.conditions);
            assert col < frags[0];
          }
      }
    }
  }

  /** All where predicates of a filter map, in the fixed column order. */
  function WherePredicates(filters: map<string, Filter>, formatDate: Instant -> string): seq<string>
  {
    PredicatesOf(WhereColumns, filters, formatDate)
  }

  // ---------------------------------------------------------------- clauses

  function SelectClause(select: seq<string>): seq<string>
  {
    if select != [] then ["$select=" + Join(select, ",")] else []
  }

  /** The where folding: everything collected so far becomes one `$where=` clause. */
  function WhereClause(items: seq<string>): seq<string>
  {
    if items != [] then ["$where=" + Join(items, " and ")] else []
  }

  function GroupClause(group: string): seq<string>
  {
    if group != "" then ["$group=" + group] else []
  }

  function OrderClause(sortField: string, sortOrder: int): seq<string>
  {
    if sortField != "" then ["$order=" + sortField + (if sortOrder == -1 then " desc" else "")] else []
  }

  function OffsetClause(first: int): seq<string>
  {
    if first != 0 then ["$offset=" + IntToString(first)] else []
  }

  function LimitClause(rows: int): seq<string>
  {
    if rows != 0 then ["$limit=" + IntToString(rows)] else []
  }

  /** What buildQuery has collected when the where folding starts. */
  function WhereItems(request: Request, formatDate: Instant -> string): seq<string>
    requires request.filters.Some?
  {
    SelectClause(request.select) + WherePredicates(request.filters.value, formatDate)
  }

  /** The clauses that follow from the collected where items and the other fields. */
  function AssembleClauses(items: seq<string>, request: Request): seq<string>
  {
    WhereClause(items)
    + GroupClause(request.group)
    + OrderClause(request.sortField, request.sortOrder)
    + OffsetClause(request.first)
    + LimitClause(request.rows)
  }

  /** The clauses buildQuery emits, in the order it emits them. */
  function Clauses(request: Request, formatDate: Instant -> string): seq<string>
    requires request.filters.Some?
  {
    AssembleClauses(WhereItems(request, formatDate), request)
  }

  /** The query string buildQuery returns. */
  function CompileQuery(request: Request, formatDate: Instant -> string): string
    requires request.filters.Some?
  {
    Join(Clauses(request, formatDate), "&")
  }
}
