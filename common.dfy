/** `GetMetaData` of utils/common/common.go: listing metadata from the query string. */
module Common {
  import opened Wrappers
  import opened GoStrings
  import opened Constants
  import ApiError
  import Store

  /** The query string as fiber's `ctx.Query` sees it: the first value of each key. */
  type Query = map<string, string>

  /** `ctx.Query(key, def)`: the value, or `def` when it is missing or empty. */
  function QueryOr(q: Query, key: string, def: string): (r: string)
    ensures key in q && q[key] != "" ==> r == q[key]
    ensures !(key in q && q[key] != "") ==> r == def
  {
    if key in q && q[key] != "" then q[key] else def
  }

  /** `ctx.Query(key)`. */
  function QueryValue(q: Query, key: string): string {
    QueryOr(q, key, "")
  }

  /** `time.Parse(time.RFC3339Nano, s)`: Unix nanoseconds, or the parse error's text. */
  type TimeParser = string -> Result<int, string>

  /** The fallback order of the keyword query parameters. */
  const KeywordParams: seq<string> := ["keyword", "nama", "search", "q", "judul_alamat"]

  /** The keyword, written as the chain of `if keyword == ""` reassignments. */
  function Keyword(q: Query): string {
    var k0 := QueryValue(q, QueryParamsKeyword);
    var k1 := if k0 == "" then QueryValue(q, "nama") else k0;
    var k2 := if k1 == "" then QueryValue(q, "search") else k1;
    var k3 := if k2 == "" then QueryValue(q, "q") else k2;
    if k3 == "" then QueryValue(q, "judul_alamat") else k3
  }

  /** The first non-empty value among `keys`, or "". */
  function FirstNonEmpty(q: Query, keys: seq<string>): (r: string)
    ensures r == "" <==> forall i :: 0 <= i < |keys| ==> QueryValue(q, keys[i]) == ""
    ensures r != "" ==> exists i :: 0 <= i < |keys| && QueryValue(q, keys[i]) == r &&
                          forall j :: 0 <= j < i ==> QueryValue(q, keys[j]) == ""
  {
    if |keys| == 0 then ""
    else if QueryValue(q, keys[0]) != "" then QueryValue(q, keys[0])
    else
      var r := FirstNonEmpty(q, keys[1..]);
      assert forall i :: 1 <= i < |keys| ==> keys[i] == keys[1..][i - 1];
      r
  }

  lemma FirstNonEmptyCons(q: Query, k: string, rest: seq<string>)
    ensures FirstNonEmpty(q, [k] + rest) ==
              if QueryValue(q, k) != "" then QueryValue(q, k) else FirstNonEmpty(q, rest)
  {
    assert ([k] + rest)[1..] == rest;
  }

  /** The keyword chain takes the first non-empty parameter in the fallback order. */
  lemma KeywordIsFirstNonEmpty(q: Query)
    ensures Keyword(q) == FirstNonEmpty(q, KeywordParams)
  {
    FirstNonEmptyCons(q, "judul_alamat", []);
    FirstNonEmptyCons(q, "q", ["judul_alamat"]);
    FirstNonEmptyCons(q, "search", ["q", "judul_alamat"]);
    FirstNonEmptyCons(q, "nama", ["search", "q", "judul_alamat"]);
    FirstNonEmptyCons(q, "keyword", ["nama", "search", "q", "judul_alamat"]);
    assert KeywordParams == ["keyword"] + ["nama", "search", "q", "judul_alamat"];
  }

  /** One optional date bound: absent for an empty parameter, a 400 warning carrying
      the parse error for an unparsable one. */
  function DateBound(q: Query, key: string, parse: TimeParser): (r: Result<Option<int>, ApiError.Err>)
    ensures QueryValue(q, key) == "" ==> r == Success(None)
    ensures QueryValue(q, key) != "" && parse(QueryValue(q, key)).Success? ==>
              r == Success(Some(parse(QueryValue(q, key)).value))
    ensures QueryValue(q, key) != "" && parse(QueryValue(q, key)).Failure? ==>
              r == Failure(ApiError.NewWarn(ApiError.StatusBadRequest, [parse(QueryValue(q, key)).error]))
  {
    var s := QueryValue(q, key);
    if s == "" then Success(None)
    else
      match parse(s)
      case Success(t) => Success(Some(t))
      case Failure(e) => Failure(ApiError.NewWarn(ApiError.StatusBadRequest, [e]))
  }

  /** The field errors `validate.Struct` reports for a `FilterReq`, in field order. */
  function FilterErrors(f: FilterReq): (errs: seq<ApiError.FieldError>)
    ensures errs == [] <==> ValidFilter(f)
  {
    (if f.limit >= 1 then [] else [ApiError.FieldError("FilterReq.Limit", "Limit", ApiError.OtherKind, "gte", "1")]) +
    (if f.page >= 1 then [] else [ApiError.FieldError("FilterReq.Page", "Page", ApiError.OtherKind, "gte", "1")]) +
    (if f.sortOrder in {"asc", "desc"} then [] else [ApiError.FieldError("FilterReq.SortOrder", "SortOrder", ApiError.OtherKind, "oneof", "asc desc")])
  }

  /** `validate.Struct(res)`: the raw validation error, not passed through `FromErr`. */
  function ValidateFilter(f: FilterReq): (r: Option<ApiError.Err>)
    ensures r.None? <==> ValidFilter(f)
    ensures r.Some? ==> r.value.Validation? && |r.value.fields| >= 1
  {
    var errs := FilterErrors(f);
    if errs == [] then None else Some(ApiError.Validation(errs))
  }

  /** The checks `GetMetaData` makes before the date bounds: the limit and the page are
      integers and the order column is allowed. */
  predicate PagingParsed(q: Query, allowedColumns: seq<string>)
    requires |allowedColumns| >= 1
  {
    Atoi(QueryOr(q, QueryParamsLimit, "20")).Some? && Atoi(QueryOr(q, QueryParamsPage, "1")).Some? &&
    QueryOr(q, QueryParamsOrderBy, allowedColumns[0]) in allowedColumns
  }

  /** `GetMetaData(ctx, validate, allowedColumns...)`; the code indexes
      `allowedColumns[0]`, so a caller must pass at least one column. */
  function GetMetaData(q: Query, parse: TimeParser, allowedColumns: seq<string>): (r: Result<FilterReq, ApiError.Err>)
    requires |allowedColumns| >= 1
    ensures Atoi(QueryOr(q, QueryParamsLimit, "20")).None? ==>
              r == Failure(ApiError.NewWarn(ApiError.StatusBadRequest, ["Limit must be a number"]))
    ensures Atoi(QueryOr(q, QueryParamsLimit, "20")).Some? && Atoi(QueryOr(q, QueryParamsPage, "1")).None? ==>
              r == Failure(ApiError.NewWarn(ApiError.StatusBadRequest, ["Page must be a number"]))
    ensures Atoi(QueryOr(q, QueryParamsLimit, "20")).Some? && Atoi(QueryOr(q, QueryParamsPage, "1")).Some? &&
            QueryOr(q, QueryParamsOrderBy, allowedColumns[0]) !in allowedColumns ==>
              r == Failure(ApiError.NewWarn(ApiError.StatusBadRequest,
                     ["Order by column '" + QueryOr(q, QueryParamsOrderBy, allowedColumns[0]) + "' is not allowed!"]))
    ensures r.Success? ==>
              ValidFilter(r.value) &&
              Some(r.value.limit) == Atoi(QueryOr(q, QueryParamsLimit, "20")) &&
              Some(r.value.page) == Atoi(QueryOr(q, QueryParamsPage, "1")) &&
              r.value.orderBy in allowedColumns &&
              r.value.orderBy == QueryOr(q, QueryParamsOrderBy, allowedColumns[0]) &&
              r.value.sortOrder == ToLower(QueryOr(q, QueryParamsSortOrder, "asc")) &&
              r.value.keyword == FirstNonEmpty(q, KeywordParams) &&
              Success(r.value.startCreatedAt) == DateBound(q, QueryParamsStartCreatedAt, parse) &&
              Success(r.value.endCreatedAt) == DateBound(q, QueryParamsEndCreatedAt, parse) &&
              Success(r.value.startUpdatedAt) == DateBound(q, QueryParamsStartUpdatedAt, parse) &&
              Success(r.value.endUpdatedAt) == DateBound(q, QueryParamsEndUpdatedAt, parse)
    ensures r.Failure? ==> r.error.Validation? || (r.error.Api? && r.error.api.code == ApiError.StatusBadRequest)
    ensures r.Success? <==>
              PagingParsed(q, allowedColumns) &&
              DateBound(q, QueryParamsStartCreatedAt, parse).Success? &&
              DateBound(q, QueryParamsEndCreatedAt, parse).Success? &&
              DateBound(q, QueryParamsStartUpdatedAt, parse).Success? &&
              DateBound(q, QueryParamsEndUpdatedAt, parse).Success? &&
              Atoi(QueryOr(q, QueryParamsLimit, "20")).value >= 1 &&
              Atoi(QueryOr(q, QueryParamsPage, "1")).value >= 1 &&
              ToLower(QueryOr(q, QueryParamsSortOrder, "asc")) in {"asc", "desc"}
    ensures PagingParsed(q, allowedColumns) && DateBound(q, QueryParamsStartCreatedAt, parse).Failure? ==>
              r == Failure(DateBound(q, QueryParamsStartCreatedAt, parse).error)
    ensures PagingParsed(q, allowedColumns) && DateBound(q, QueryParamsStartCreatedAt, parse).Success? &&
            DateBound(q, QueryParamsEndCreatedAt, parse).Failure? ==>
              r == Failure(DateBound(q, QueryParamsEndCreatedAt, parse).error)
    ensures PagingParsed(q, allowedColumns) && DateBound(q, QueryParamsStartCreatedAt, parse).Success? &&
            DateBound(q, QueryParamsEndCreatedAt, parse).Success? &&
            DateBound(q, QueryParamsStartUpdatedAt, parse).Failure? ==>
              r == Failure(DateBound(q, QueryParamsStartUpdatedAt, parse).error)
    ensures PagingParsed(q, allowedColumns) && DateBound(q, QueryParamsStartCreatedAt, parse).Success? &&
            DateBound(q, QueryParamsEndCreatedAt, parse).Success? &&
            DateBound(q, QueryParamsStartUpdatedAt, parse).Success? &&
            DateBound(q, QueryParamsEndUpdatedAt, parse).Failure? ==>
              r == Failure(DateBound(q, QueryParamsEndUpdatedAt, parse).error)
  {
    KeywordIsFirstNonEmpty(q);
    match Atoi(QueryOr(q, QueryParamsLimit, "20"))
    case None => Failure(ApiError.NewWarn(ApiError.StatusBadRequest, ["Limit must be a number"]))
    case Some(limit) =>
      match Atoi(QueryOr(q, QueryParamsPage, "1"))
      case None => Failure(ApiError.NewWarn(ApiError.StatusBadRequest, ["Page must be a number"]))
      case Some(page) =>
        var orderBy := QueryOr(q, QueryParamsOrderBy, allowedColumns[0]);
        if orderBy !in allowedColumns then
          Failure(ApiError.NewWarn(ApiError.StatusBadRequest, ["Order by column '" + orderBy + "' is not allowed!"]))
        else
          var sortOrder := ToLower(QueryOr(q, QueryParamsSortOrder, "asc"));
          var keyword := Keyword(q);
          match DateBound(q, QueryParamsStartCreatedAt, parse)
          case Failure(e) => Failure(e)
          case Success(startCreatedAt) =>
            match DateBound(q, QueryParamsEndCreatedAt, parse)
            case Failure(e) => Failure(e)
            case Success(endCreatedAt) =>
              match DateBound(q, QueryParamsStartUpdatedAt, parse)
              case Failure(e) => Failure(e)
              case Success(startUpdatedAt) =>
                match DateBound(q, QueryParamsEndUpdatedAt, parse)
                case Failure(e) => Failure(e)
                case Success(endUpdatedAt) =>
                  var res := FilterReq(limit, page, orderBy, keyword, sortOrder,
                                       startCreatedAt, endCreatedAt, startUpdatedAt, endUpdatedAt);
                  match ValidateFilter(res)
                  case Some(e) => Failure(e)
                  case None => Success(res)
  }

  /** With no query parameters the metadata is the defaults: 20 rows of page 1, ordered
      by the first allowed column ascending, no keyword and no date bounds. */
  lemma EmptyQueryDefaults(parse: TimeParser, allowedColumns: seq<string>)
    requires |allowedColumns| >= 1
    ensures GetMetaData(map[], parse, allowedColumns) ==
              Success(FilterReq(20, 1, allowedColumns[0], "", "asc", None, None, None, None))
  {
    var q: Query := map[];
    assert QueryOr(q, QueryParamsLimit, "20") == "20";
    assert Digits("0") == Some(0);
    assert Digits("20") == Some(20) by { assert "20"[..1] == "2"; }
    assert Digits("1") == Some(1);
    assert ToLower("asc") == "asc";
  }

  /** A limit or page below one passes the parse but fails validation with the
      validator's `gte` error, and a sort order outside asc/desc with `oneof`. */
  lemma OutOfRangeIsValidationError(q: Query, parse: TimeParser, allowedColumns: seq<string>)
    requires |allowedColumns| >= 1
    requires GetMetaData(q, parse, allowedColumns).Failure?
    requires Atoi(QueryOr(q, QueryParamsLimit, "20")).Some? && Atoi(QueryOr(q, QueryParamsPage, "1")).Some?
    requires QueryOr(q, QueryParamsOrderBy, allowedColumns[0]) in allowedColumns
    requires forall key :: key in {QueryParamsStartCreatedAt, QueryParamsEndCreatedAt, QueryParamsStartUpdatedAt, QueryParamsEndUpdatedAt} ==>
               DateBound(q, key, parse).Success?
    ensures GetMetaData(q, parse, allowedColumns).error.Validation?
  {
  }

  /** Below the `int64` limit, consecutive pages of a listing are adjacent windows: page
      `p + 1` starts where page `p` ends, so the two neither overlap nor leave a gap. */
  lemma ConsecutivePagesTile<X>(xs: seq<X>, f: FilterReq)
    requires ValidFilter(f)
    requires f.page * f.limit < 0x8000_0000_0000_0000
    ensures Skipped(f) == (f.page - 1) * f.limit
    ensures Store.Window(xs, Skipped(f), f.limit) + Store.Window(xs, Skipped(f.(page := f.page + 1)), f.limit) ==
            Store.Window(xs, Skipped(f), 2 * f.limit)
  {
    var next := f.(page := f.page + 1);
    assert (f.page - 1) * f.limit + f.limit == f.page * f.limit;
    assert 0 <= (f.page - 1) * f.limit;
    assert Skipped(next) == Skipped(f) + f.limit;
    Store.WindowsTile(xs, Skipped(f), f.limit);
  }

  /** Past the `int64` limit the offset wraps: with a limit of 2^62, page 3 computes
      2^63, which wraps to -2^63, so the listing skips nothing and shows page 1 again. */
  lemma WrappedOffsetRepeatsFirstPage<X>(xs: seq<X>, f: FilterReq)
    requires ValidFilter(f) && f.limit == 0x4000_0000_0000_0000 && f.page == 3
    ensures Offset(f) == -0x8000_0000_0000_0000
    ensures Store.Window(xs, Skipped(f), f.limit) == Store.Window(xs, Skipped(f.(page := 1)), f.limit)
  {
    assert (f.page - 1) * f.limit == 0x8000_0000_0000_0000;
  }
}
