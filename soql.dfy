/**
 * The request a table or chart hands to the speed-camera service, and the
 * fixed table of filterable columns of the mobile speed camera dataset.
 *
 * JavaScript "truthiness" is made explicit: an absent string field is "",
 * an absent number is 0, an absent list is [], and an absent date is None.
 */
module Soql {

  datatype Option<+T> = None | Some(value: T)

  /** The moment a calendar widget picked, in milliseconds since the epoch. */
  type Instant = int

  /**
   * The `matchMode` names the three builders switch on. Any other name, which
   * every builder ignores, is `OtherMode` (see `DecodeMode`).
   */
  datatype MatchMode =
    | DateIs | DateIsNot | DateBefore | DateAfter
    | StartsWith | EndsWith | Contains | NotContains | EqualsMode | NotEqualsMode
    | Lt | Lte | Gt | Gte
    | OtherMode(name: string)

  /** The `matchMode` string each mode stands for. */
  function ModeName(m: MatchMode): string
  {
    match m
    case DateIs => "dateIs"
    case DateIsNot => "dateIsNot"
    case DateBefore => "dateBefore"
    case DateAfter => "dateAfter"
    case StartsWith => "startsWith"
    case EndsWith => "endsWith"
    case Contains => "contains"
    case NotContains => "notContains"
    case EqualsMode => "equals"
    case NotEqualsMode => "notEquals"
    case Lt => "lt"
    case Lte => "lte"
    case Gt => "gt"
    case Gte => "gte"
    case OtherMode(name) => name
  }

  /** The names some builder's `switch` has a case for. */
  const KnownModeNames: set<string> := {
    "dateIs", "dateIsNot", "dateBefore", "dateAfter",
    "startsWith", "endsWith", "contains", "notContains", "equals", "notEquals",
    "lt", "lte", "gt", "gte"
  }

  /** `OtherMode` only ever holds a name no builder tests for. */
  predicate Decoded(m: MatchMode)
  {
    m.OtherMode? ==> m.name !in KnownModeNames
  }

  /**
   * Reading a `matchMode` string: a name some `switch` tests becomes its own
   * constructor, anything else `OtherMode`. Every request is built from modes
   * read this way.
   */
  function DecodeMode(name: string): (m: MatchMode)
    ensures ModeName(m) == name
    ensures Decoded(m)
    ensures m.OtherMode? <==> name !in KnownModeNames
  {
    if name == "dateIs" then DateIs
    else if name == "dateIsNot" then DateIsNot
    else if name == "dateBefore" then DateBefore
    else if name == "dateAfter" then DateAfter
    else if name == "startsWith" then StartsWith
    else if name == "endsWith" then EndsWith
    else if name == "contains" then Contains
    else if name == "notContains" then NotContains
    else if name == "equals" then EqualsMode
    else if name == "notEquals" then NotEqualsMode
    else if name == "lt" then Lt
    else if name == "lte" then Lte
    else if name == "gt" then Gt
    else if name == "gte" then Gte
    else OtherMode(name)
  }

  /** Decoding the name of a decoded mode gives that mode back. */
  lemma DecodeModeName(m: MatchMode)
    requires Decoded(m)
    ensures DecodeMode(ModeName(m)) == m
  {
  }

  /** `{ value, matchMode }` of the date column. A Date object is always truthy. */
  datatype DateFilter = DateFilter(value: Option<Instant>, matchMode: MatchMode)

  /** `{ value, matchMode }` of a text column; the value is truthy when non-empty. */
  datatype TextFilter = TextFilter(value: string, matchMode: MatchMode)

  /** One entry of a numeric column's multi-condition list; 0 is falsy. */
  datatype NumericCondition = NumericCondition(value: int, matchMode: MatchMode, operator: string)

  /** What `request.filters[column]` may hold. */
  datatype Filter =
    | DateColumn(date: DateFilter)
    | TextColumn(text: TextFilter)
    | NumericColumn(conditions: seq<NumericCondition>)

  /**
   * IMobileSpeedCameraServiceRequest. `sortField` is declared a number in the
   * source but is always used as a column name, so it is a string here.
   * `filters` is None when the caller left it out.
   */
  datatype Request = Request(
    select: seq<string>,
    first: int,
    rows: int,
    sortField: string,
    sortOrder: int,
    filters: Option<map<string, Filter>>,
    group: string,
    having: string)

  /** Which of the three per-column query builders a column goes through. */
  datatype ColumnKind = DateKind | TextKind | NumericKind

  /** The columns the where clause visits, in the order buildQuery visits them. */
  const WhereColumns: seq<(string, ColumnKind)> := [
    ("date", DateKind),
    ("timeatsiteinhours", NumericKind),
    ("description_of_site", TextKind),
    ("camera_location", TextKind),
    ("street", TextKind),
    ("number_checked", NumericKind),
    ("highest_speed", NumericKind),
    ("average_speed", NumericKind),
    ("posted_speed", NumericKind)
  ]

  /** A request with nothing set but an empty filter map. */
  const EmptyRequest: Request := Request([], 0, 0, "", 0, Some(map[]), "", "")
}
