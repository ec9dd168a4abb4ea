/**
 * The `/api/orders` endpoint. GET serves admins (the extracted token
 * equals the configured API token) with the filtered, paged listing, and
 * public order tracking by order number; POST validates the request body
 * and creates the order. The service calls' results are parameters.
 */
module OrdersApi {
  import opened Common
  import opened Store
  import opened Api
  import opened Text
  import opened Query
  import OrderService

  /** The query-string parameters GET reads; `limit` and `page` are
      present only when non-empty, and hold their parsed value. */
  datatype OrdersQuery = OrdersQuery(
    status: Option<string>,
    paymentStatus: Option<string>,
    shippingMethod: Option<string>,
    search: Option<string>,
    dateFrom: Option<string>,
    dateTo: Option<string>,
    limit: Option<int>,
    page: Option<int>,
    orderNumber: Option<string>,
    customerEmail: Option<string>)

  /** `token === API_TOKEN`: no presence check, so no header and no
      configured token also compare equal. */
  predicate IsAdmin(authHeader: Option<string>, apiToken: Option<string>)
  {
    ExtractToken(authHeader) == apiToken
  }

  /** What GET does: refuse, track one order, or list. */
  datatype GetPlan =
    | BadRequest
    | Track(orderNumber: string, customerEmail: Option<string>)
    | List(params: OrderService.ListParams, page: int, limit: int)

  /** The listing parameters GET passes: empty filters dropped, the
      limit (default 20) and `(page - 1) * limit` (page default 1). */
  function ListParamsOf(q: OrdersQuery): (p: OrderService.ListParams)
    ensures p.status == OrUndefined(q.status) && p.paymentStatus == OrUndefined(q.paymentStatus)
    ensures p.shippingMethod == OrUndefined(q.shippingMethod) && p.search == OrUndefined(q.search)
    ensures p.dateFrom == OrUndefined(q.dateFrom) && p.dateTo == OrUndefined(q.dateTo)
    ensures p.limit == Some(LimitOf(q.limit))
    ensures p.offset == Some(OffsetOf(PageOf(q.page), LimitOf(q.limit)))
  {
    OrderService.ListParams(
      OrUndefined(q.status), OrUndefined(q.paymentStatus), OrUndefined(q.shippingMethod),
      OrUndefined(q.search), OrUndefined(q.dateFrom), OrUndefined(q.dateTo),
      Some(LimitOf(q.limit)), Some(OffsetOf(PageOf(q.page), LimitOf(q.limit))))
  }

  function OrdersGetPlan(q: OrdersQuery, authHeader: Option<string>, apiToken: Option<string>): (plan: GetPlan)
    ensures plan == BadRequest <==> !IsAdmin(authHeader, apiToken) && !Given(q.orderNumber) && !Given(q.customerEmail)
    ensures plan.Track? <==> !IsAdmin(authHeader, apiToken) && Given(q.orderNumber)
    ensures plan.Track? ==> plan.orderNumber == q.orderNumber.value && plan.customerEmail == q.customerEmail
    ensures plan.List? ==> plan.params == ListParamsOf(q) && plan.page == PageOf(q.page) && plan.limit == LimitOf(q.limit)
  {
    var admin := IsAdmin(authHeader, apiToken);
    if !admin && !Given(q.orderNumber) && !Given(q.customerEmail) then BadRequest
    else if !admin && Given(q.orderNumber) then Track(q.orderNumber.value, q.customerEmail)
    else List(ListParamsOf(q), PageOf(q.page), LimitOf(q.limit))
  }

  const LOOKUP_REQUIRED := "Order number or customer email required for order lookup"
  const NOT_FOUND := "Order not found"
  const FETCH_FAILED := "Failed to fetch orders"

  /** Public tracking: 404 when there is no such order or a given email
      differs from the order's; otherwise that one order, as a one-page
      listing of one. */
  function TrackResponse(customerEmail: Option<string>, found: Option<Order>): (r: Response<seq<Order>>)
    ensures found.None? ==> r == Response(404, Failure(NOT_FOUND))
    ensures found.Some? && Given(customerEmail) && found.value.customerEmail != customerEmail.value ==>
      r == Response(404, Failure(NOT_FOUND))
    ensures r.status == 200 <==> found.Some? && (!Given(customerEmail) || found.value.customerEmail == customerEmail.value)
    ensures r.status == 200 ==> r.body == Success([found.value], Some(Pagination(1, 1, 1, Some(1))))
  {
    if found.None? || (Given(customerEmail) && found.value.customerEmail != customerEmail.value) then
      Response(404, Failure(NOT_FOUND))
    else
      Response(200, Success([found.value], Some(Pagination(1, 1, 1, Some(1)))))
  }

  /** The listing result getAllOrders returns. */
  datatype Listing = Listing(orders: seq<Order>, total: nat)

  /** GET. `found` is what getOrderByNumber gave and `listing` what
      getAllOrders gave (each only consulted when GET makes that call); a
      thrown error becomes a 500. */
  function OrdersGet(q: OrdersQuery, authHeader: Option<string>, apiToken: Option<string>,
                     found: Outcome<Option<Order>>, listing: Outcome<Listing>): (r: Response<seq<Order>>)
    ensures OrdersGetPlan(q, authHeader, apiToken) == BadRequest ==> r == Response(400, Failure(LOOKUP_REQUIRED))
    ensures OrdersGetPlan(q, authHeader, apiToken).Track? && found.Returned? ==>
      r == TrackResponse(q.customerEmail, found.value)
    ensures OrdersGetPlan(q, authHeader, apiToken).List? && listing.Returned? ==>
      r == Response(200, Success(listing.value.orders, Some(PaginationOf(PageOf(q.page), LimitOf(q.limit), listing.value.total))))
    ensures OrdersGetPlan(q, authHeader, apiToken).Track? && found.Threw? ==> r == Response(500, Failure(FETCH_FAILED))
    ensures OrdersGetPlan(q, authHeader, apiToken).List? && listing.Threw? ==> r == Response(500, Failure(FETCH_FAILED))
    ensures r.status == 500 ==> r.body == Failure(FETCH_FAILED)
  {
    match OrdersGetPlan(q, authHeader, apiToken)
    case BadRequest => Response(400, Failure(LOOKUP_REQUIRED))
    case Track(_, email) =>
      if found.Threw? then ServerError(FETCH_FAILED) else TrackResponse(email, found.value)
    case List(_, page, limit) =>
      if listing.Threw? then ServerError(FETCH_FAILED)
      else Response(200, Success(listing.value.orders, Some(PaginationOf(page, limit, listing.value.total))))
  }

  /** With no API token configured, a request without an Authorization
      header counts as admin and gets the full listing. */
  lemma UnconfiguredTokenAdmitsAnyone(q: OrdersQuery)
    ensures IsAdmin(None, None)
    ensures OrdersGetPlan(q, None, None) == List(ListParamsOf(q), PageOf(q.page), LimitOf(q.limit))
  {
  }

  /** A non-admin giving only customer_email falls through to the listing
      an admin gets for the same query: the email filters nothing. */
  lemma EmailOnlyFallsThrough(q: OrdersQuery, authHeader: Option<string>, apiToken: Option<string>)
    requires !IsAdmin(authHeader, apiToken)
    requires !Given(q.orderNumber) && Given(q.customerEmail)
    ensures OrdersGetPlan(q, authHeader, apiToken) == OrdersGetPlan(q.(customerEmail := None), None, ExtractToken(None))
    ensures OrdersGetPlan(q, authHeader, apiToken).List?
  {
  }

  /** The default first page of a filtered admin listing binds LIMIT but
      not OFFSET (offset 0 is falsy), so its count query is left with
      fewer values than placeholders. */
  lemma DefaultPageCountMisaligned(q: OrdersQuery)
    requires q.limit.None? && q.page.None?
    requires Given(q.status)
    ensures var p := ListParamsOf(q);
      && p.limit == Some(20) && p.offset == Some(0)
      && |OrderService.CountQueryAsWritten(p).params| < OrderService.ArityOf(OrderService.CountQueryAsWritten(p).filters)
  {
    var p := ListParamsOf(q);
    OrderService.CountParamsAsWrittenAligned(p);
    assert OrderService.StatusIs in OrderService.ListFilters(p);
  }

  // ------------------------------------------------------------------
  // POST
  // ------------------------------------------------------------------

  const REQUIRED_FIELDS := ["customer_name", "customer_email", "customer_phone", "shipping_method", "payment_method", "items"]

  /** `requiredFields.filter(field => !data[field])`, in the fields' order. */
  function Missing(fields: seq<string>, body: map<string, Json>): (r: seq<string>)
    ensures |r| <= |fields|
  {
    if fields == [] then []
    else
      var last := fields[|fields| - 1];
      Missing(fields[..|fields| - 1], body) + (if MissingOrFalsy(body, last) then [last] else [])
  }

  /** The missing fields are exactly the listed ones that are absent or falsy. */
  lemma {:induction false} MissingMembers(fields: seq<string>, body: map<string, Json>)
    ensures forall f :: f in Missing(fields, body) <==> f in fields && MissingOrFalsy(body, f)
  {
    if fields != [] {
      var init := fields[..|fields| - 1];
      MissingMembers(init, body);
      assert fields == init + [fields[|fields| - 1]];
    }
  }

  /** `Array.isArray(data.items) && data.items.length > 0`. */
  predicate HasItems(body: map<string, Json>)
  {
    "items" in body && body["items"].JArr? && |body["items"].elems| > 0
  }

  const NO_ITEMS := "Order must contain at least one item"

  function DecimalDigits(n: nat): (s: string)
    ensures |s| > 0
    decreases n
  {
    if n < 10 then ["0123456789"[n]] else DecimalDigits(n / 10) + ["0123456789"[n % 10]]
  }

  /** A number's string form in a template literal. */
  function NumberString(n: int): string
  {
    if n < 0 then "-" + DecimalDigits(-n) else DecimalDigits(n)
  }

  /** A column value's string form in a template literal. */
  function ValueString(v: Value): string
  {
    match v
    case Null => "null"
    case Int(i) => NumberString(i)
    case Text(s) => s
    case JsonText(_) => ""
  }

  /** The messages createOrder throws. */
  function OrderErrorMessage(e: OrderService.OrderError): string
  {
    match e
    case ProductUnavailable(id) => "Product with ID " + NumberString(id) + " not found or inactive"
    case InsufficientStock(name) => "Insufficient stock for product " + ValueString(name)
  }

  /** POST: 400 listing the missing required fields, 400 without a
      non-empty items array, else 201 with the created order or 500 with
      createOrder's message. `created` is what createOrder gave. */
  function OrdersPost(body: map<string, Json>, created: Result<Order, OrderService.OrderError>): (r: Response<Order>)
    ensures Missing(REQUIRED_FIELDS, body) != [] ==>
      r == Response(400, Failure("Missing required fields: " + Join(Missing(REQUIRED_FIELDS, body), ", ")))
    ensures Missing(REQUIRED_FIELDS, body) == [] && !HasItems(body) ==> r == Response(400, Failure(NO_ITEMS))
    ensures r.status == 201 <==> Missing(REQUIRED_FIELDS, body) == [] && HasItems(body) && created.Ok?
    ensures r.status == 201 ==> r.body == Success(created.value, None)
    ensures r.status == 500 <==> Missing(REQUIRED_FIELDS, body) == [] && HasItems(body) && created.Err?
    ensures r.status == 500 ==> r.body == Failure(OrderErrorMessage(created.error))
  {
    var missing := Missing(REQUIRED_FIELDS, body);
    if |missing| > 0 then Response(400, Failure("Missing required fields: " + Join(missing, ", ")))
    else if !HasItems(body) then Response(400, Failure(NO_ITEMS))
    else match created
      case Ok(o) => Response(201, Success(o, None))
      case Err(e) => ServerError(OrderErrorMessage(e))
  }

  lemma MissingSnoc(fields: seq<string>, f: string, body: map<string, Json>)
    ensures Missing(fields + [f], body) == Missing(fields, body) + (if MissingOrFalsy(body, f) then [f] else [])
  {
    assert (fields + [f])[..|fields|] == fields;
  }

  /** Only customer_name and customer_email given: the other four fields
      are missing, in the fixed order. */
  lemma MissingExample(body: map<string, Json>)
    requires !MissingOrFalsy(body, "customer_name") && !MissingOrFalsy(body, "customer_email")
    requires MissingOrFalsy(body, "customer_phone") && MissingOrFalsy(body, "shipping_method")
    requires MissingOrFalsy(body, "payment_method") && MissingOrFalsy(body, "items")
    ensures Missing(REQUIRED_FIELDS, body) == ["customer_phone", "shipping_method", "payment_method", "items"]
  {
    var r1 := ["customer_name"];
    var r2 := r1 + ["customer_email"];
    var r3 := r2 + ["customer_phone"];
    var r4 := r3 + ["shipping_method"];
    var r5 := r4 + ["payment_method"];
    MissingSnoc([], "customer_name", body);
    assert [] + ["customer_name"] == r1;
    MissingSnoc(r1, "customer_email", body);
    MissingSnoc(r2, "customer_phone", body);
    MissingSnoc(r3, "shipping_method", body);
    MissingSnoc(r4, "payment_method", body);
    MissingSnoc(r5, "items", body);
    assert r5 + ["items"] == REQUIRED_FIELDS;
  }

  lemma JoinExample()
    ensures Join(["customer_phone", "shipping_method", "payment_method", "items"], ", ")
         == "customer_phone" + ", " + "shipping_method" + ", " + "payment_method" + ", " + "items"
  {
    var t4 := ["items"];
    var t3 := ["payment_method"] + t4;
    var t2 := ["shipping_method"] + t3;
    var t1 := ["customer_phone"] + t2;
    assert t3[1..] == t4 && t2[1..] == t3 && t1[1..] == t2;
    assert Join(t4, ", ") == "items";
    assert Join(t3, ", ") == "payment_method" + ", " + "items";
    assert Join(t2, ", ") == "shipping_method" + ", " + "payment_method" + ", " + "items";
    assert t1 == ["customer_phone", "shipping_method", "payment_method", "items"];
  }

  /** A body with only the customer's name and email is refused with the
      other four fields named in the fixed order. */
  lemma MissingFieldsExample(body: map<string, Json>, o: Result<Order, OrderService.OrderError>)
    requires !MissingOrFalsy(body, "customer_name") && !MissingOrFalsy(body, "customer_email")
    requires MissingOrFalsy(body, "customer_phone") && MissingOrFalsy(body, "shipping_method")
    requires MissingOrFalsy(body, "payment_method") && MissingOrFalsy(body, "items")
    ensures OrdersPost(body, o) == Response(400, Failure("Missing required fields: "
      + ("customer_phone" + ", " + "shipping_method" + ", " + "payment_method" + ", " + "items")))
  {
    MissingExample(body);
    JoinExample();
    var m := ["customer_phone", "shipping_method", "payment_method", "items"];
    var j := "customer_phone" + ", " + "shipping_method" + ", " + "payment_method" + ", " + "items";
    assert Missing(REQUIRED_FIELDS, body) == m && |m| > 0;
    assert OrdersPost(body, o) == Response(400, Failure("Missing required fields: " + j));
  }

  /** An empty items array passes the required-field check (arrays are
      truthy) and is refused by the items check. */
  lemma EmptyItemsRefused(body: map<string, Json>, o: Result<Order, OrderService.OrderError>)
    requires forall f :: f in REQUIRED_FIELDS && f != "items" ==> !MissingOrFalsy(body, f)
    requires "items" in body && body["items"] == JArr([])
    ensures OrdersPost(body, o) == Response(400, Failure(NO_ITEMS))
  {
    assert Missing(REQUIRED_FIELDS, body) == [] by {
      MissingMembers(REQUIRED_FIELDS, body);
      if Missing(REQUIRED_FIELDS, body) != [] {
        assert Missing(REQUIRED_FIELDS, body)[0] in Missing(REQUIRED_FIELDS, body);
      }
    }
  }
}
