/**
 * The `/api/categories` endpoint. GET lists categories, inactive ones
 * only for `include_inactive=true`, and wraps the service's `{data}`
 * object in the response's own `data`; POST checks the token, then name
 * and slug, and creates the category. The service calls' results are
 * parameters.
 */
module CategoriesApi {
  import opened Common
  import opened Store
  import opened Api
  import CategoryService

  /** `url.searchParams.get('include_inactive') === 'true'`. */
  function IncludeInactive(param: Option<string>): (b: bool)
    ensures b <==> param == Some("true")
  {
    param == Some("true")
  }

  /** The service's `{ data: [...] }`, which GET nests inside its own `data`. */
  datatype CategoryList = CategoryList(data: seq<Row>)

  const FETCH_FAILED := "Failed to fetch categories"

  /** GET: the listing query it asks for, and the response for the
      service's result. */
  method CategoriesGet(param: Option<string>, listing: Outcome<seq<Row>>)
    returns (q: CategoryService.CategoryListQuery, r: Response<CategoryList>)
    ensures q.activeOnly <==> param != Some("true")
    ensures listing.Returned? ==> r == Response(200, Success(CategoryList(listing.value), None))
    ensures listing.Threw? ==> r == Response(500, Failure(FETCH_FAILED))
  {
    q := CategoryService.BuildCategoryListing(IncludeInactive(param));
    match listing
    case Returned(rows) => r := Response(200, Success(CategoryList(rows), None));
    case Threw(_) => r := ServerError(FETCH_FAILED);
  }

  const MISSING := "Missing required fields: name, slug"

  /** POST: 401 unless the token is present and equals the configured
      one; 400 when name or slug is falsy; else 201 with the created
      category or 500 with the thrown message. */
  function CategoriesPost(authHeader: Option<string>, apiToken: Option<string>, body: map<string, Json>,
                          created: Outcome<Row>): (r: Response<Row>)
    ensures !WriteAuthorized(authHeader, apiToken) <==> r == Response(401, Failure(UNAUTHORIZED))
    ensures WriteAuthorized(authHeader, apiToken) && (MissingOrFalsy(body, "name") || MissingOrFalsy(body, "slug"))
            <==> r == Response(400, Failure(MISSING))
    ensures r.status == 201 <==> WriteAuthorized(authHeader, apiToken) && !MissingOrFalsy(body, "name")
                                 && !MissingOrFalsy(body, "slug") && created.Returned?
    ensures r.status == 201 ==> r.body == Success(created.value, None)
    ensures (WriteAuthorized(authHeader, apiToken) && !MissingOrFalsy(body, "name") && !MissingOrFalsy(body, "slug")
             && created.Threw?) ==> r == Response(500, Failure(created.message))
  {
    if !WriteAuthorized(authHeader, apiToken) then Response(401, Failure(UNAUTHORIZED))
    else if MissingOrFalsy(body, "name") || MissingOrFalsy(body, "slug") then Response(400, Failure(MISSING))
    else match created
      case Returned(c) => Response(201, Success(c, None))
      case Threw(m) => ServerError(m)
  }
}
