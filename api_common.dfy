/**
 * Pieces the HTTP endpoints share: the bearer-token extraction from the
 * Authorization header, the page/limit defaults and the offset they give,
 * `Math.ceil(total / limit)`, and the JSON response envelope.
 */
module Api {
  import opened Common
  import opened Text
  import opened Query

  // ------------------------------------------------------------------
  // Token extraction
  // ------------------------------------------------------------------

  /** `authHeader?.replace('Bearer ', '') || authHeader?.replace('Token ', '')`:
      no header gives no token; the 'Token ' variant is only tried when
      stripping 'Bearer ' leaves the empty string. */
  function ExtractToken(authHeader: Option<string>): (r: Option<string>)
    ensures authHeader.None? <==> r.None?
    ensures authHeader.Some? && ReplaceFirst(authHeader.value, "Bearer ", "") != "" ==>
      r == Some(ReplaceFirst(authHeader.value, "Bearer ", ""))
    ensures authHeader.Some? && ReplaceFirst(authHeader.value, "Bearer ", "") == "" ==>
      r == Some(ReplaceFirst(authHeader.value, "Token ", ""))
  {
    match authHeader
    case None => None
    case Some(h) =>
      var stripped := ReplaceFirst(h, "Bearer ", "");
      if stripped != "" then Some(stripped) else Some(ReplaceFirst(h, "Token ", ""))
  }

  /** A 'Bearer ' header yields the token after it. */
  lemma BearerToken(t: string)
    requires t != ""
    ensures ExtractToken(Some("Bearer " + t)) == Some(t)
  {
    var h := "Bearer " + t;
    assert h[0..7] == "Bearer ";
    assert Occurs(h, "Bearer ", 0);
    assert IndexOf(h, "Bearer ") == Some(0);
    assert ReplaceFirst(h, "Bearer ", "") == h[..0] + "" + h[7..] == t;
  }

  /** A 'Token ' header is passed through whole: stripping 'Bearer '
      leaves it non-empty, so 'Token ' is never stripped. */
  lemma TokenSchemeKept(x: string)
    requires forall i :: !Occurs(x, "Bearer ", i)
    ensures ExtractToken(Some("Token " + x)) == Some("Token " + x)
  {
    var h := "Token " + x;
    forall i ensures !Occurs(h, "Bearer ", i) {
      if 0 <= i < 6 && i + 7 <= |h| {
        assert h[i..i + 7][0] == h[i] == "Token "[i] != 'B';
      } else if 6 <= i && i + 7 <= |h| {
        assert h[i..i + 7] == x[i - 6..i - 6 + 7];
        assert !Occurs(x, "Bearer ", i - 6);
      }
    }
    assert IndexOf(h, "Bearer ").None?;
  }

  /** The header "Token abc" yields the token "Token abc", not "abc". */
  lemma TokenHeaderExample()
    ensures ExtractToken(Some("Token abc")) == Some("Token abc")
  {
    var x := "abc";
    forall i ensures !Occurs(x, "Bearer ", i) {
    }
    assert "Token " + x == "Token abc";
    TokenSchemeKept(x);
  }

  /** The write endpoints' check: `!token || token !== API_TOKEN` gives 401. */
  predicate WriteAuthorized(authHeader: Option<string>, apiToken: Option<string>)
  {
    var token := ExtractToken(authHeader);
    token.Some? && token.value != "" && apiToken == token
  }

  /** Without a configured API token no write is ever authorized. */
  lemma NoApiTokenNoWrites(authHeader: Option<string>)
    ensures !WriteAuthorized(authHeader, None)
  {
  }

  // ------------------------------------------------------------------
  // Query-string parameters
  // ------------------------------------------------------------------

  /** `url.searchParams.get(x) || undefined`: an empty parameter is dropped. */
  function OrUndefined(s: Option<string>): (r: Option<string>)
    ensures r.Some? <==> Given(s)
    ensures r.Some? ==> r == s
  {
    if Given(s) then s else None
  }

  // ------------------------------------------------------------------
  // Pagination
  // ------------------------------------------------------------------

  const DEFAULT_LIMIT := 20
  const DEFAULT_PAGE := 1

  /** `limit` and `page` from the query string: the parsed value when the
      parameter is present and non-empty, else 20 and 1. */
  function LimitOf(limit: Option<int>): int { if limit.Some? then limit.value else DEFAULT_LIMIT }
  function PageOf(page: Option<int>): int { if page.Some? then page.value else DEFAULT_PAGE }

  /** `(page - 1) * limit`. */
  function OffsetOf(page: int, limit: int): (r: int)
    ensures page == 1 ==> r == 0
    ensures limit >= 0 && page >= 1 ==> r >= 0
  {
    (page - 1) * limit
  }

  /** `Math.ceil(total / limit)`; a limit of 0 divides by zero, which
      serialises to null (None). */
  function TotalPages(total: nat, limit: int): (r: Option<int>)
    ensures limit == 0 <==> r.None?
    ensures limit > 0 ==> r.value * limit >= total && (r.value - 1) * limit < total
    ensures limit < 0 ==> r.value * limit <= total && (r.value - 1) * limit > total
  {
    if limit == 0 then None
    else if limit > 0 then Some((total + limit - 1) / limit)
    else Some(-(total / -limit))
  }

  /** With the default limit, 41 results take three pages and 40 take two. */
  lemma TotalPagesExample()
    ensures TotalPages(41, DEFAULT_LIMIT) == Some(3) && TotalPages(40, DEFAULT_LIMIT) == Some(2)
  {
  }

  datatype Pagination = Pagination(page: int, limit: int, total: int, totalPages: Option<int>)

  /** The pagination object of a listing response. */
  function PaginationOf(page: int, limit: int, total: nat): Pagination
  {
    Pagination(page, limit, total, TotalPages(total, limit))
  }

  // ------------------------------------------------------------------
  // Responses
  // ------------------------------------------------------------------

  /** A JSON response body: `{success: false, error}` or
      `{success: true, data[, pagination]}`. */
  datatype Body<T> = Failure(error: string) | Success(data: T, pagination: Option<Pagination>)

  datatype Response<T> = Response(status: int, body: Body<T>)

  const UNAUTHORIZED := "Unauthorized"

  /** `error instanceof Error ? error.message : fallback` as a 500. */
  function ServerError<T>(message: string): Response<T> { Response(500, Failure(message)) }
}
