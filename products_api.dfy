/**
 * The `/api/products` endpoint. GET lists products with the status
 * defaulting to active and the featured filter only for the literal
 * 'true'; POST checks the token before the body and creates the product.
 * The service calls' results are parameters.
 */
module ProductsApi {
  import opened Common
  import opened Store
  import opened Api
  import opened Query
  import ProductService

  /** The query-string parameters GET reads; `limit` and `page` are
      present only when non-empty, and hold their parsed value. */
  datatype ProductsQuery = ProductsQuery(
    category: Option<string>,
    status: Option<string>,
    featured: Option<string>,
    search: Option<string>,
    limit: Option<int>,
    page: Option<int>)

  /** The parameters GET passes to getAllProducts. */
  function ListParamsOf(q: ProductsQuery): (p: ProductService.ProductListParams)
    ensures p.category == OrUndefined(q.category) && p.search == OrUndefined(q.search)
    ensures p.status == Some(if Given(q.status) then q.status.value else "active")
    ensures p.featured == (if q.featured == Some("true") then Some(true) else None)
    ensures p.limit == Some(LimitOf(q.limit))
    ensures p.offset == Some(OffsetOf(PageOf(q.page), LimitOf(q.limit)))
    ensures p.categoryId.None? && p.minPrice.None? && p.maxPrice.None? && p.sortBy.None? && p.sortOrder.None?
  {
    var limit := LimitOf(q.limit);
    ProductService.ProductListParams(
      OrUndefined(q.category), None,
      Some(if Given(q.status) then q.status.value else "active"),
      if q.featured == Some("true") then Some(true) else None,
      Some(limit), Some(OffsetOf(PageOf(q.page), limit)),
      OrUndefined(q.search), None, None, None, None)
  }

  /** GET always filters on a status, active unless another is named. */
  lemma StatusAlwaysFiltered(q: ProductsQuery)
    ensures ProductService.StatusIs in ProductService.ProductFilters(ListParamsOf(q))
  {
  }

  /** Only the literal 'true' filters on featured; any other value
      (including 'false') is no filter at all, never is_featured = 0. */
  lemma FeaturedOnlyForTrue(q: ProductsQuery)
    ensures ProductService.FeaturedIs in ProductService.ProductFilters(ListParamsOf(q)) <==> q.featured == Some("true")
    ensures ProductService.FeaturedIs in ProductService.ProductFilters(ListParamsOf(q)) ==>
      ProductService.FeaturedParam(ListParamsOf(q)) == [Int(1)]
  {
  }

  /** `limit=0` turns paging off (0 is falsy) and the page count into null. */
  lemma LimitZeroUnpaged(q: ProductsQuery, total: nat)
    requires q.limit == Some(0)
    ensures !Nonzero(ListParamsOf(q).limit) && !Nonzero(ListParamsOf(q).offset)
    ensures TotalPages(total, LimitOf(q.limit)).None?
  {
  }

  /** The listing result getAllProducts returns. */
  datatype Listing = Listing(products: seq<Row>, total: nat)

  const FETCH_FAILED := "Failed to fetch products"

  /** GET: the listing with its pagination, or 500 when the service throws. */
  function ProductsGet(q: ProductsQuery, listing: Outcome<Listing>): (r: Response<seq<Row>>)
    ensures listing.Threw? <==> r == Response(500, Failure(FETCH_FAILED))
    ensures listing.Returned? ==>
      r == Response(200, Success(listing.value.products, Some(PaginationOf(PageOf(q.page), LimitOf(q.limit), listing.value.total))))
  {
    match listing
    case Threw(_) => ServerError(FETCH_FAILED)
    case Returned(l) => Response(200, Success(l.products, Some(PaginationOf(PageOf(q.page), LimitOf(q.limit), l.total))))
  }

  const MISSING := "Missing required fields: name, slug, price"

  /** POST's body check: name and slug truthy, price present (0 passes). */
  predicate ValidProductBody(body: map<string, Json>)
  {
    !MissingOrFalsy(body, "name") && !MissingOrFalsy(body, "slug") && "price" in body
  }

  /** POST: 401 unless the token is present and equals the configured
      one, checked before the body; 400 when the body lacks name, slug or
      price; else 201 with the created product or 500 with the thrown
      message. `created` is what createProduct gave. */
  function ProductsPost(authHeader: Option<string>, apiToken: Option<string>, body: map<string, Json>,
                        created: Outcome<Row>): (r: Response<Row>)
    ensures !WriteAuthorized(authHeader, apiToken) <==> r == Response(401, Failure(UNAUTHORIZED))
    ensures WriteAuthorized(authHeader, apiToken) && !ValidProductBody(body) <==> r == Response(400, Failure(MISSING))
    ensures r.status == 201 <==> WriteAuthorized(authHeader, apiToken) && ValidProductBody(body) && created.Returned?
    ensures r.status == 201 ==> r.body == Success(created.value, None)
    ensures WriteAuthorized(authHeader, apiToken) && ValidProductBody(body) && created.Threw? ==>
      r == Response(500, Failure(created.message))
  {
    if !WriteAuthorized(authHeader, apiToken) then Response(401, Failure(UNAUTHORIZED))
    else if !ValidProductBody(body) then Response(400, Failure(MISSING))
    else match created
      case Returned(p) => Response(201, Success(p, None))
      case Threw(m) => ServerError(m)
  }

  /** A price of 0 is accepted. */
  lemma PriceZeroAccepted(authHeader: Option<string>, apiToken: Option<string>, created: Outcome<Row>)
    requires WriteAuthorized(authHeader, apiToken)
    ensures var body := map["name" := JStr("Cable"), "slug" := JStr("cable"), "price" := JNum(0)];
      ProductsPost(authHeader, apiToken, body, created).status != 400
  {
    var body := map["name" := JStr("Cable"), "slug" := JStr("cable"), "price" := JNum(0)];
    assert ValidProductBody(body);
  }

  /** An unauthorized request gets 401 whatever its body. */
  lemma UnauthorizedBeforeValidation(authHeader: Option<string>, apiToken: Option<string>,
                                     b1: map<string, Json>, b2: map<string, Json>, created: Outcome<Row>)
    requires !WriteAuthorized(authHeader, apiToken)
    ensures ProductsPost(authHeader, apiToken, b1, created) == ProductsPost(authHeader, apiToken, b2, created)
  {
  }
}
