/**
 * MobileSpeedCameraService: the imperative query builder, which grows one
 * JavaScript array in place while visiting the request, and the request URLs
 * of getData, getDataByQueryString, getMaxRecords and getTotalRecords. Every
 * builder method is proved to produce what the QueryCompiler functions say.
 */
module SpeedCameraService {
  import opened Text
  import opened Soql
  import opened QueryCompiler
  import opened QueryProperties

  /** The `query: string[]` array that buildQuery and its helpers share and mutate. */
  class QueryList {
    var items: seq<string>

    /** `const query: string[] = []` */
    constructor()
      ensures items == []
    {
      items := [];
    }

    /** `query.push(s)` */
    method Push(s: string)
      modifies this
      ensures items == old(items) + [s]
    {
      items := items + [s];
    }

    /** `query[i] = s` on an index that exists. */
    method Set(i: nat, s: string)
      requires i < |items|
      modifies this
      ensures items == old(items)[i := s]
    {
      items := items[i := s];
    }

    /** `query.length = n`, shortening the array. */
    method Truncate(n: nat)
      requires n <= |items|
      modifies this
      ensures items == old(items)[..n]
    {
      items := items[..n];
    }
  }

  /**
   * The dataset endpoint every request goes to, `https://www.data.act.gov.au/resource/d56a-2nhi.json`.
   * Written in pieces only so that the verifier reasons about a few short
   * literals instead of one long one; the value is the same.
   */
  const DatasetUrl: string := "https://" + "www.data.act.gov.au" + "/resource/" + "d56a-2nhi.json"

  /** getData's URL: the query string, when there is one, after a '?'. */
  function DataUrl(base: string, queryString: string): string
  {
    if queryString != "" then base + "?" + queryString else base
  }

  /** getDataByQueryString's URL: the '?' is written even for an empty query string. */
  function QueryStringUrl(base: string, queryString: string): string
  {
    base + "?" + queryString
  }

  /** The row-count parameter, `$select=count(*)`, in pieces for the same reason as DatasetUrl. */
  const CountClause: string := "$select" + "=" + "count(*)"

  /** getMaxRecords's URL: a bare row count. */
  function MaxRecordsUrl(base: string): string
  {
    base + "?" + CountClause
  }

  /**
   * getTotalRecords's URL: `$select=count(*)` put in front of the query string;
   * without a query string no count is asked for at all.
   */
  function TotalRecordsUrl(base: string, queryString: string): string
  {
    if queryString != "" then base + "?" + CountClause + "&" + queryString else base
  }

  /** The part of a URL after its first '?', or "" when it has none. */
  function UrlQuery(url: string): string
  {
    if url == "" then ""
    else if url[0] == '?' then url[1..]
    else UrlQuery(url[1..])
  }

  class MobileSpeedCameraService {
    const baseUrl: string
    /** `datePipe.transform(value, "yyyy-MM-dd")`, supplied by the injector. */
    const formatDate: Instant -> string

    constructor(formatDate: Instant -> string)
      ensures baseUrl == DatasetUrl && this.formatDate == formatDate
    {
      baseUrl := DatasetUrl;
      this.formatDate := formatDate;
    }

    /** buildQuery: the query string of a request that has a filter map. */
    method BuildQuery(request: Request) returns (queryString: string)
      requires request.filters.Some?
      ensures queryString == CompileQuery(request, formatDate)
    {
      var query := new QueryList();

      // select
      if request.select != [] {
        query.Push("$select=" + Join(request.select, ","));
      }
      assert query.items == SelectClause(request.select);

      BuildWhere(request, query);
      FoldWhere(query);
      BuildTrailingClauses(request, query);
      queryString := Join(query.items, "&");
    }

    /** The nine builder calls of buildQuery, in its fixed column order. */
    method BuildWhere(request: Request, query: QueryList)
      requires request.filters.Some?
      modifies query
      ensures query.items == old(query.items) + WherePredicates(request.filters.value, formatDate)
    {
      WhereUnrolled(query.items, request.filters.value, formatDate);
      BuildDateQuery("date", request, query);
      BuildNumericQuery("timeatsiteinhours", request, query);
      BuildStringQuery("description_of_site", request, query);
      BuildStringQuery("camera_location", request, query);
      BuildStringQuery("street", request, query);
      BuildNumericQuery("number_checked", request, query);
      BuildNumericQuery("highest_speed", request, query);
      BuildNumericQuery("average_speed", request, query);
      BuildNumericQuery("posted_speed", request, query);
    }

    /**
     * The where folding of buildQuery: `$where=` goes in front of the first
     * collected item, and all of them are replaced by their `" and "`-join.
     */
    method FoldWhere(query: QueryList)
      modifies query
      ensures query.items == WhereClause(old(query.items))
    {
      if |query.items| > 0 {
        ghost var items := query.items;
        query.Set(0, "$where=" + query.items[0]);
        assert query.items == ["$where=" + items[0]] + items[1..];
        JoinPrefixFirst("$where=", items, " and ");
        var whereClause := Join(query.items, " and ");
        query.Truncate(0);
        query.Push(whereClause);
      }
    }

    /** The group, sort and pagination steps of buildQuery. */
    method BuildTrailingClauses(request: Request, query: QueryList)
      modifies query
      ensures query.items == old(query.items) + GroupClause(request.group)
                             + OrderClause(request.sortField, request.sortOrder)
                             + OffsetClause(request.first) + LimitClause(request.rows)
    {
      ghost var clauses := query.items;

      // group
      if request.group != "" {
        query.Push("$group=" + request.group);
      }
      clauses := clauses + GroupClause(request.group);
      assert query.items == clauses;

      // sort
      if request.sortField != "" {
        var order := "$order=" + request.sortField;
        if request.sortOrder == -1 {
          order := order + " desc";
        } else {
          assert order + "" == order;
        }
        query.Push(order);
      }
      clauses := clauses + OrderClause(request.sortField, request.sortOrder);
      assert query.items == clauses;

      // pagination
      if request.first != 0 {
        query.Push("$offset=" + IntToString(request.first));
      }
      clauses := clauses + OffsetClause(request.first);
      assert query.items == clauses;
      if request.rows != 0 {
        query.Push("$limit=" + IntToString(request.rows));
      }
    }

    /** buildDateQuery: pushes the date predicate for `colName`, if any. */
    method BuildDateQuery(colName: string, request: Request, query: QueryList)
      requires request.filters.Some?
      modifies query
      ensures query.items
           == old(query.items) + ColumnQuery(colName, DateKind, request.filters.value, formatDate)
    {
      var column := Lookup(request.filters.value, colName);
      if column.Some? && column.value.DateColumn? && column.value.date.value.Some? {
        var parsedDate := formatDate(column.value.date.value.value);
        match column.value.date.matchMode {
          case DateIs => query.Push(colName + "='" + parsedDate + "'");
          case DateIsNot => query.Push(colName + "!='" + parsedDate + "'");
          case DateBefore => query.Push(colName + "<'" + parsedDate + "'");
          case DateAfter => query.Push(colName + ">'" + parsedDate + "'");
          case _ =>
        }
      }
    }

    /** buildStringQuery: pushes the text predicate for `colName`, if any. */
    method BuildStringQuery(colName: string, request: Request, query: QueryList)
      requires request.filters.Some?
      modifies query
      ensures query.items
           == old(query.items) + ColumnQuery(colName, TextKind, request.filters.value, formatDate)
    {
      var column := Lookup(request.filters.value, colName);
      if column.Some? && column.value.TextColumn? && column.value.text.value != "" {
        var value := column.value.text.value;
        match column.value.text.matchMode {
          case StartsWith => query.Push("starts_with(" + colName + ",'" + value + "')");
          case EndsWith => query.Push(colName + " like '%25" + value + "'");
          case Contains => query.Push("contains(" + colName + ",'" + value + "')");
          case NotContains => query.Push("not contains(" + colName + ",'" + value + "')");
          case EqualsMode => query.Push(colName + "='" + value + "'");
          case NotEqualsMode => query.Push(colName + "!='" + value + "'");
          case _ =>
        }
      }
    }

    /**
     * buildNumericQuery: collects one fragment per truthy entry, joins them with
     * the first entry's operator and pushes the result, parenthesised when
     * there is more than one fragment.
     */
    method BuildNumericQuery(colName: string, request: Request, query: QueryList)
      requires request.filters.Some?
      modifies query
      ensures query.items
           == old(query.items) + ColumnQuery(colName, NumericKind, request.filters.value, formatDate)
    {
      var column := Lookup(request.filters.value, colName);
      if !(column.Some? && column.value.NumericColumn?) || column.value.conditions == [] {
        return;
      }
      var conds := column.value.conditions;

      var tempQuery: seq<string> := [];
      for i := 0 to |conds|
        invariant tempQuery == NumericFragments(colName, conds[..i])
      {
        var c := conds[i];
        assert conds[..i + 1][..i] == conds[..i];
        assert NumericFragments(colName, conds[..i + 1]) == tempQuery + NumericFragment(colName, c);
        if c.value == 0 {
          continue;
        }
        var v := IntToString(c.value);
        match c.matchMode {
          case EqualsMode => tempQuery := tempQuery + [colName + "=" + v];
          case NotEqualsMode => tempQuery := tempQuery + [colName + "!=" + v];
          case Lt => tempQuery := tempQuery + [colName + "<" + v];
          case Lte => tempQuery := tempQuery + [colName + "<=" + v];
          case Gt => tempQuery := tempQuery + [colName + ">" + v];
          case Gte => tempQuery := tempQuery + [colName + ">=" + v];
          case _ =>
        }
      }
      assert conds[..|conds|] == conds;

      var operator := if conds[0].operator == "and" then " and " else " or ";
      var res := Join(tempQuery, operator);
      if |tempQuery| > 1 {
        query.Push("(" + res + ")");
      } else if res != "" {
        query.Push(res);
      }
    }

    /** The URL getData fetches for a request. */
    method GetDataUrl(request: Request) returns (url: string)
      requires request.filters.Some?
      ensures url == DataUrl(baseUrl, CompileQuery(request, formatDate))
    {
      url := baseUrl;
      var queryString := BuildQuery(request);
      if queryString != "" {
        url := url + "?" + queryString;
      }
    }

    /** The URL getTotalRecords fetches for a request. */
    method GetTotalRecordsUrl(request: Request) returns (url: string)
      requires request.filters.Some?
      ensures url == TotalRecordsUrl(baseUrl, CompileQuery(request, formatDate))
    {
      url := baseUrl;
      var queryString := BuildQuery(request);
      if queryString != "" {
        url := url + "?" + CountClause + "&" + queryString;
      }
    }
  }

  // ------------------------------------------------------------ URL properties

  /** Reading past the first '?' of a base without one gives back what follows it. */
  lemma {:induction false} UrlQueryAfterBase(base: string, rest: string)
    requires '?' !in base
    ensures UrlQuery(base + "?" + rest) == rest
  {
    if base != "" {
      assert (base + "?" + rest)[1..] == base[1..] + "?" + rest;
      UrlQueryAfterBase(base[1..], rest);
    } else {
      assert base + "?" + rest == ['?'] + rest;
    }
  }

  lemma {:induction false} UrlQueryOfBase(base: string)
    requires '?' !in base
    ensures UrlQuery(base) == ""
  {
    if base != "" {
      UrlQueryOfBase(base[1..]);
    }
  }

  /** The dataset URL carries no query of its own. */
  lemma DatasetUrlHasNoQuery()
    ensures '?' !in DatasetUrl
  {
    assert '?' !in "https://";
    assert '?' !in "www.data.act.gov.au";
    assert '?' !in "/resource/";
    assert '?' !in "d56a-2nhi.json";
  }

  /** getData sends exactly buildQuery's output as the URL's query. */
  lemma DataUrlQuery(request: Request, formatDate: Instant -> string)
    requires request.filters.Some?
    ensures UrlQuery(DataUrl(DatasetUrl, CompileQuery(request, formatDate))) == CompileQuery(request, formatDate)
  {
    DatasetUrlHasNoQuery();
    var qs := CompileQuery(request, formatDate);
    if qs != "" {
      UrlQueryAfterBase(DatasetUrl, qs);
    } else {
      UrlQueryOfBase(DatasetUrl);
    }
  }

  /** getDataByQueryString hands the caller's query string over unchanged, even an empty one. */
  lemma QueryStringUrlQuery(queryString: string)
    ensures UrlQuery(QueryStringUrl(DatasetUrl, queryString)) == queryString
    ensures QueryStringUrl(DatasetUrl, queryString) != DatasetUrl
  {
    DatasetUrlHasNoQuery();
    UrlQueryAfterBase(DatasetUrl, queryString);
  }

  /** getMaxRecords asks for the row count of the whole dataset and nothing else. */
  lemma MaxRecordsUrlQuery()
    ensures ParseQuery(UrlQuery(MaxRecordsUrl(DatasetUrl))) == [("$select", "count(*)")]
  {
    DatasetUrlHasNoQuery();
    UrlQueryAfterBase(DatasetUrl, CountClause);
    assert '&' !in "$select" && '&' !in "count(*)";
    assert '&' !in CountClause;
    SplitFreePrefix(CountClause, "", '&');
    assert CountClause + "" == CountClause;
    assert Split("", '&') == [""];
    assert '=' !in "$select";
    ParamOf("$select", "count(*)");
  }

  /** Putting a `&`-free clause in front of a query string puts its parameter first. */
  lemma ParseQueryPrepend(clause: string, qs: string)
    requires '&' !in clause
    requires qs != ""
    ensures ParseQuery(clause + "&" + qs) == [Param(clause)] + ParseQuery(qs)
  {
    var t := "&" + qs;
    assert clause + "&" + qs == clause + t;
    SplitFreePrefix(clause, t, '&');
    assert t[0] == '&' && t[1..] == qs;
    assert Split(t, '&') == [""] + Split(qs, '&');
    assert clause + "" == clause;
    assert Split(clause + t, '&') == [clause] + Split(qs, '&');
  }

  /** The count request's query: `$select=count(*)`, then the data request's query. */
  lemma TotalRecordsUrlSplit(base: string, queryString: string)
    requires '?' !in base && queryString != ""
    ensures UrlQuery(TotalRecordsUrl(base, queryString)) == CountClause + "&" + queryString
  {
    assert base + "?" + CountClause + "&" + queryString == base + "?" + (CountClause + "&" + queryString);
    UrlQueryAfterBase(base, CountClause + "&" + queryString);
  }

  /** Read back, the count request carries `$select=count(*)` before the data request's parameters. */
  lemma CountParams(queryString: string)
    requires queryString != ""
    ensures ParseQuery(CountClause + "&" + queryString) == [("$select", "count(*)")] + ParseQuery(queryString)
  {
    assert '&' !in "$select" && '&' !in "count(*)";
    ParseQueryPrepend(CountClause, queryString);
    assert '=' !in "$select";
    ParamOf("$select", "count(*)");
  }

  /**
   * getTotalRecords asks for `count(*)` followed by every parameter of the
   * data request, the order, offset and limit included; a request with an
   * empty query string gets the bare dataset URL, which returns rows, not a count.
   */
  lemma TotalRecordsUrlQuery(request: Request, formatDate: Instant -> string)
    requires request.filters.Some? && AmpersandFree(request, formatDate)
    ensures var url := TotalRecordsUrl(DatasetUrl, CompileQuery(request, formatDate));
      && (CompileQuery(request, formatDate) == "" ==> url == DatasetUrl)
      && (CompileQuery(request, formatDate) != "" ==>
            ParseQuery(UrlQuery(url)) == [("$select", "count(*)")] + ExpectedParams(request, formatDate))
  {
    var qs := CompileQuery(request, formatDate);
    if qs != "" {
      DatasetUrlHasNoQuery();
      TotalRecordsUrlSplit(DatasetUrl, qs);
      CountParams(qs);
      ParseCompiledQuery(request, formatDate);
    }
  }
}
