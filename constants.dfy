/** Shared request-level types of utils/constants/model.go and constants.go. */
module Constants {
  import opened Wrappers
  import opened GoStrings

  /** `constants.JWTClaims` as the services use it: the user id, the phone number the
      user logged in with, the admin flag and the expiry (Unix seconds). */
  datatype Claims = Claims(id: int, noTelp: string, isAdmin: bool, expiresAt: int)

  /** `constants.Token`: the raw token text and its claims. */
  datatype Token = Token(token: string, claims: Claims)

  /** `constants.FilterReq`: listing metadata; times are Unix nanoseconds. */
  datatype FilterReq = FilterReq(
    limit: int,
    page: int,
    orderBy: string,
    keyword: string,
    sortOrder: string,
    startCreatedAt: Option<int>,
    endCreatedAt: Option<int>,
    startUpdatedAt: Option<int>,
    endUpdatedAt: Option<int>)

  /** The validation tags of `FilterReq` (`gte=1`, `gte=1`, `oneof=asc desc`). */
  predicate ValidFilter(f: FilterReq) {
    f.limit >= 1 && f.page >= 1 && f.sortOrder in {"asc", "desc"}
  }

  /** The offset a listing computes, `(Page - 1) * Limit` on the `int64` fields of
      `FilterReq`: it is exact below 2^63 and wraps around above, possibly to a
      negative value. */
  function Offset(f: FilterReq): (r: int)
    requires ValidFilter(f)
  {
    WrapInt64((f.page - 1) * f.limit)
  }

  /** The rows a listing skips for `Offset(int(offset))`: the query builder writes an
      OFFSET only for a positive value, so a non-positive offset skips nothing. */
  function Skipped(f: FilterReq): nat
    requires ValidFilter(f)
  {
    if Offset(f) > 0 then Offset(f) else 0
  }

  const QueryParamsLimit := "limit"
  const QueryParamsPage := "page"
  const QueryParamsOrderBy := "order-by"
  const QueryParamsSortOrder := "sort-order"
  const QueryParamsKeyword := "keyword"
  const QueryParamsStartCreatedAt := "start-created-at"
  const QueryParamsEndCreatedAt := "end-created-at"
  const QueryParamsStartUpdatedAt := "start-updated-at"
  const QueryParamsEndUpdatedAt := "end-updated-at"
}
