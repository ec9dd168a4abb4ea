/**
 * The product service: the catalogue listing query with its count query,
 * product creation with its attribute rows, the partial update built
 * column by column from the request's own keys, and the stock update with
 * its status rule. Queries are modelled as data (the conditions in the
 * order the text gets them, the ordering, LIMIT/OFFSET and the bound
 * values); writes act on the in-memory tables of `Store.Db`.
 */
module ProductService {
  import opened Common
  import opened Store
  import opened Query
  import OrderService

  // ------------------------------------------------------------------
  // Listing: getAllProducts
  // ------------------------------------------------------------------

  /** The parameters of getAllProducts; absent ones are `None`. */
  datatype ProductListParams = ProductListParams(
    category: Option<string>,
    categoryId: Option<int>,
    status: Option<string>,
    featured: Option<bool>,
    limit: Option<int>,
    offset: Option<int>,
    search: Option<string>,
    minPrice: Option<int>,
    maxPrice: Option<int>,
    sortBy: Option<string>,
    sortOrder: Option<string>)

  /** The `AND ...` conditions the listing and count queries can get. */
  datatype ProductFilter =
    | CategorySlugIs
    | CategoryIdIs
    | StatusIs
    | FeaturedIs
    | SearchLike
    | PriceAtLeast
    | PriceAtMost

  function Rank(f: ProductFilter): nat
  {
    match f
    case CategorySlugIs => 0
    case CategoryIdIs => 1
    case StatusIs => 2
    case FeaturedIs => 3
    case SearchLike => 4
    case PriceAtLeast => 5
    case PriceAtMost => 6
  }

  /** How many `?` a condition holds: the search matches name, description and brand. */
  function Arity(f: ProductFilter): nat
  {
    if f == SearchLike then 3 else 1
  }

  function ArityOf(filters: seq<ProductFilter>): nat
  {
    if filters == [] then 0 else ArityOf(filters[..|filters| - 1]) + Arity(filters[|filters| - 1])
  }

  /** Whether a condition is added: strings and ids when truthy, the
      featured flag and the price bounds whenever they are defined (so a
      bound of 0 still filters). */
  predicate Applies(f: ProductFilter, p: ProductListParams)
  {
    match f
    case CategorySlugIs => Given(p.category)
    case CategoryIdIs => Nonzero(p.categoryId)
    case StatusIs => Given(p.status)
    case FeaturedIs => p.featured.Some?
    case SearchLike => Given(p.search)
    case PriceAtLeast => p.minPrice.Some?
    case PriceAtMost => p.maxPrice.Some?
  }

  function IntOr(n: Option<int>, d: int): int { if n.Some? then n.value else d }

  /** The values one condition binds; featured binds 1 or 0. */
  function Args(f: ProductFilter, p: ProductListParams): seq<Value>
  {
    match f
    case CategorySlugIs => [Text(ValueOr(p.category))]
    case CategoryIdIs => [Int(IntOr(p.categoryId, 0))]
    case StatusIs => [Text(ValueOr(p.status))]
    case FeaturedIs => [Int(if p.featured == Some(true) then 1 else 0)]
    case SearchLike => var t := Text(Pattern(ValueOr(p.search))); [t, t, t]
    case PriceAtLeast => [Int(IntOr(p.minPrice, 0))]
    case PriceAtMost => [Int(IntOr(p.maxPrice, 0))]
  }

  /** The values a list of conditions binds, condition by condition. */
  function ArgsOf(filters: seq<ProductFilter>, p: ProductListParams): (r: seq<Value>)
    ensures |r| == ArityOf(filters)
  {
    if filters == [] then []
    else ArgsOf(filters[..|filters| - 1], p) + Args(filters[|filters| - 1], p)
  }

  predicate Ascending(filters: seq<ProductFilter>)
  {
    forall i, j :: 0 <= i < j < |filters| ==> Rank(filters[i]) < Rank(filters[j])
  }

  /** The conditions of `filters` that apply, in their order. (The order
      listing builds its conditions the same way; each service keeps its
      own copy because each ranges over its own condition type, parameter
      record and bound values.) */
  function Keep(filters: seq<ProductFilter>, p: ProductListParams): seq<ProductFilter>
  {
    if filters == [] then []
    else
      var last := filters[|filters| - 1];
      Keep(filters[..|filters| - 1], p) + When(Applies(last, p), last)
  }

  /** Keeping conditions keeps exactly the ones that apply. */
  lemma {:induction false} KeepMembers(filters: seq<ProductFilter>, p: ProductListParams)
    ensures forall f :: f in Keep(filters, p) <==> f in filters && Applies(f, p)
  {
    if filters != [] {
      var init := filters[..|filters| - 1];
      KeepMembers(init, p);
      assert filters == init + [filters[|filters| - 1]];
    }
  }

  /** Keeping conditions preserves their order. */
  lemma {:induction false} KeepAscending(filters: seq<ProductFilter>, p: ProductListParams)
    requires Ascending(filters)
    ensures Ascending(Keep(filters, p))
  {
    if filters != [] {
      var init := filters[..|filters| - 1];
      var last := filters[|filters| - 1];
      KeepAscending(init, p);
      KeepMembers(init, p);
      var k := Keep(init, p);
      forall f | f in k ensures Rank(f) < Rank(last) {
        var i :| 0 <= i < |init| && init[i] == f;
      }
    }
  }

  /** The conditions the query text can get, in the order it appends them. */
  const ALL_FILTERS := [CategorySlugIs, CategoryIdIs, StatusIs, FeaturedIs, SearchLike, PriceAtLeast, PriceAtMost]

  lemma AllFiltersListed()
    ensures forall f: ProductFilter :: f in ALL_FILTERS
    ensures Ascending(ALL_FILTERS)
  {
    forall f: ProductFilter ensures f in ALL_FILTERS {
      assert ALL_FILTERS[Rank(f)] == f;
    }
  }

  lemma AllFiltersInOrder()
    ensures [CategorySlugIs] + [CategoryIdIs] + [StatusIs] + [FeaturedIs]
          + [SearchLike] + [PriceAtLeast] + [PriceAtMost] == ALL_FILTERS
  {
  }

  /** The conditions both queries get: exactly the ones that apply, in the
      fixed order. */
  function ProductFilters(p: ProductListParams): (r: seq<ProductFilter>)
    ensures forall f :: f in r <==> Applies(f, p)
    ensures Ascending(r)
  {
    AllFiltersListed();
    KeepMembers(ALL_FILTERS, p);
    KeepAscending(ALL_FILTERS, p);
    Keep(ALL_FILTERS, p)
  }

  function CategoryParam(p: ProductListParams): seq<Value> { Opt(Given(p.category), [Text(ValueOr(p.category))]) }
  function CategoryIdParam(p: ProductListParams): seq<Value> { Opt(Nonzero(p.categoryId), [Int(IntOr(p.categoryId, 0))]) }
  function StatusParam(p: ProductListParams): seq<Value> { Opt(Given(p.status), [Text(ValueOr(p.status))]) }
  function FeaturedParam(p: ProductListParams): seq<Value>
  {
    Opt(p.featured.Some?, [Int(if p.featured == Some(true) then 1 else 0)])
  }
  function SearchParams(p: ProductListParams): seq<Value>
  {
    var t := Text(Pattern(ValueOr(p.search)));
    Opt(Given(p.search), [t, t, t])
  }
  function MinPriceParam(p: ProductListParams): seq<Value> { Opt(p.minPrice.Some?, [Int(IntOr(p.minPrice, 0))]) }
  function MaxPriceParam(p: ProductListParams): seq<Value> { Opt(p.maxPrice.Some?, [Int(IntOr(p.maxPrice, 0))]) }

  /** The values pushed next to the conditions: one per `?`, condition by
      condition, the search pattern three times. */
  function FilterParams(p: ProductListParams): (r: seq<Value>)
    ensures r == ArgsOf(ProductFilters(p), p)
  {
    ArgsOfSteps(p);
    CategoryParam(p) + CategoryIdParam(p) + StatusParam(p) + FeaturedParam(p)
      + SearchParams(p) + MinPriceParam(p) + MaxPriceParam(p)
  }

  lemma ArgsOfKeepSnoc(filters: seq<ProductFilter>, f: ProductFilter, p: ProductListParams)
    ensures ArgsOf(Keep(filters + [f], p), p) == ArgsOf(Keep(filters, p), p) + Opt(Applies(f, p), Args(f, p))
  {
    assert (filters + [f])[..|filters|] == filters;
    var k := Keep(filters, p);
    if Applies(f, p) {
      assert (k + [f])[..|k|] == k;
    } else {
      assert k + [] == k;
    }
  }

  lemma ArgsOfFirstFour(p: ProductListParams)
    ensures ArgsOf(Keep([CategorySlugIs] + [CategoryIdIs] + [StatusIs] + [FeaturedIs], p), p)
         == CategoryParam(p) + CategoryIdParam(p) + StatusParam(p) + FeaturedParam(p)
  {
    var a1 := [CategorySlugIs];
    var a2 := a1 + [CategoryIdIs];
    var a3 := a2 + [StatusIs];
    ArgsOfKeepSnoc([], CategorySlugIs, p);
    assert [] + [CategorySlugIs] == a1;
    assert ArgsOf(Keep(a1, p), p) == CategoryParam(p) by {
      assert ArgsOf(Keep([], p), p) == [];
      assert [] + CategoryParam(p) == CategoryParam(p);
    }
    ArgsOfKeepSnoc(a1, CategoryIdIs, p);
    ArgsOfKeepSnoc(a2, StatusIs, p);
    ArgsOfKeepSnoc(a3, FeaturedIs, p);
  }

  lemma ArgsOfSteps(p: ProductListParams)
    ensures ArgsOf(Keep(ALL_FILTERS, p), p)
         == CategoryParam(p) + CategoryIdParam(p) + StatusParam(p) + FeaturedParam(p)
          + SearchParams(p) + MinPriceParam(p) + MaxPriceParam(p)
  {
    var a4 := [CategorySlugIs] + [CategoryIdIs] + [StatusIs] + [FeaturedIs];
    var a5 := a4 + [SearchLike];
    var a6 := a5 + [PriceAtLeast];
    ArgsOfFirstFour(p);
    ArgsOfKeepSnoc(a4, SearchLike, p);
    ArgsOfKeepSnoc(a5, PriceAtLeast, p);
    ArgsOfKeepSnoc(a6, PriceAtMost, p);
    AllFiltersInOrder();
  }

  lemma KeepSnoc(filters: seq<ProductFilter>, f: ProductFilter, p: ProductListParams)
    ensures Keep(filters + [f], p) == Keep(filters, p) + When(Applies(f, p), f)
  {
    assert (filters + [f])[..|filters|] == filters;
  }

  lemma KeepFirstFour(p: ProductListParams)
    ensures Keep([CategorySlugIs] + [CategoryIdIs] + [StatusIs] + [FeaturedIs], p)
         == When(Given(p.category), CategorySlugIs) + When(Nonzero(p.categoryId), CategoryIdIs)
          + When(Given(p.status), StatusIs) + When(p.featured.Some?, FeaturedIs)
  {
    var a1 := [CategorySlugIs];
    var a2 := a1 + [CategoryIdIs];
    var a3 := a2 + [StatusIs];
    KeepSnoc([], CategorySlugIs, p);
    assert [] + [CategorySlugIs] == a1;
    assert Keep(a1, p) == When(Given(p.category), CategorySlugIs) by {
      assert [] + When(Given(p.category), CategorySlugIs) == When(Given(p.category), CategorySlugIs);
    }
    KeepSnoc(a1, CategoryIdIs, p);
    KeepSnoc(a2, StatusIs, p);
    KeepSnoc(a3, FeaturedIs, p);
  }

  /** The conditions, one conditional append per parameter. */
  lemma ProductFiltersSteps(p: ProductListParams)
    ensures ProductFilters(p)
         == When(Given(p.category), CategorySlugIs) + When(Nonzero(p.categoryId), CategoryIdIs)
          + When(Given(p.status), StatusIs) + When(p.featured.Some?, FeaturedIs)
          + When(Given(p.search), SearchLike) + When(p.minPrice.Some?, PriceAtLeast)
          + When(p.maxPrice.Some?, PriceAtMost)
  {
    var a4 := [CategorySlugIs] + [CategoryIdIs] + [StatusIs] + [FeaturedIs];
    var a5 := a4 + [SearchLike];
    var a6 := a5 + [PriceAtLeast];
    KeepFirstFour(p);
    KeepSnoc(a4, SearchLike, p);
    KeepSnoc(a5, PriceAtLeast, p);
    KeepSnoc(a6, PriceAtMost, p);
    AllFiltersInOrder();
  }

  /** The column an `ORDER BY` sorts on first. */
  datatype SortColumn = ByPrice | ByFeatured | ByCreatedAt

  /** `ORDER BY p.<column> <direction>`, followed by `, p.created_at DESC`
      when `newestNext` holds. */
  datatype Ordering = Ordering(column: SortColumn, direction: string, newestNext: bool)

  /** The listing query: conditions, ordering, whether `LIMIT ?` and
      `OFFSET ?` follow, and the bound values in order. */
  datatype ProductQuery = ProductQuery(
    filters: seq<ProductFilter>,
    ordering: Ordering,
    limit: bool,
    offset: bool,
    params: seq<Value>)

  /** `COUNT(DISTINCT p.id)` with its conditions and bound values. */
  datatype ProductCountQuery = ProductCountQuery(filters: seq<ProductFilter>, params: seq<Value>)

  /** The first four condition pushes: category slug, category id, status, featured. */
  method PushFirstFour(p: ProductListParams) returns (filters: seq<ProductFilter>, params: seq<Value>)
    ensures filters == When(Given(p.category), CategorySlugIs) + When(Nonzero(p.categoryId), CategoryIdIs)
                     + When(Given(p.status), StatusIs) + When(p.featured.Some?, FeaturedIs)
    ensures params == CategoryParam(p) + CategoryIdParam(p) + StatusParam(p) + FeaturedParam(p)
  {
    filters, params := PushIf(Given(p.category), [], [], CategorySlugIs, [Text(ValueOr(p.category))]);
    assert filters == When(Given(p.category), CategorySlugIs) && params == CategoryParam(p) by {
      assert [] + When(Given(p.category), CategorySlugIs) == When(Given(p.category), CategorySlugIs);
      assert [] + CategoryParam(p) == CategoryParam(p);
    }
    filters, params := PushIf(Nonzero(p.categoryId), filters, params, CategoryIdIs, [Int(IntOr(p.categoryId, 0))]);
    filters, params := PushIf(Given(p.status), filters, params, StatusIs, [Text(ValueOr(p.status))]);
    filters, params := PushIf(p.featured.Some?, filters, params, FeaturedIs, [Int(if p.featured == Some(true) then 1 else 0)]);
  }

  /** The condition pushes of getAllProducts, one parameter at a time; the
      count query runs the same pushes again. */
  method PushProductFilters(p: ProductListParams) returns (filters: seq<ProductFilter>, params: seq<Value>)
    ensures filters == ProductFilters(p) && params == FilterParams(p)
  {
    filters, params := PushFirstFour(p);
    var searchTerm := Text(Pattern(ValueOr(p.search)));
    filters, params := PushIf(Given(p.search), filters, params, SearchLike, [searchTerm, searchTerm, searchTerm]);
    filters, params := PushIf(p.minPrice.Some?, filters, params, PriceAtLeast, [Int(IntOr(p.minPrice, 0))]);
    filters, params := PushIf(p.maxPrice.Some?, filters, params, PriceAtMost, [Int(IntOr(p.maxPrice, 0))]);
    ProductFiltersSteps(p);
  }

  /** The `ORDER BY` of the listing: newest first unless a sort column is
      named; 'price' and 'is_featured' are recognised and any other name
      sorts by creation time; the direction defaults to DESC and is used
      as given otherwise. */
  method SortClause(sortBy: Option<string>, sortOrder: Option<string>) returns (o: Ordering)
    ensures !Given(sortBy) ==> o == Ordering(ByCreatedAt, "DESC", false)
    ensures Given(sortBy) ==> o.direction == (if Given(sortOrder) then sortOrder.value else "DESC")
    ensures Given(sortBy) ==> (o.column == ByPrice <==> sortBy.value == "price")
    ensures Given(sortBy) ==> (o.column == ByFeatured <==> sortBy.value == "is_featured")
    ensures o.newestNext <==> o.column == ByFeatured
  {
    if Given(sortBy) {
      var direction := if Given(sortOrder) then sortOrder.value else "DESC";
      if sortBy.value == "price" {
        o := Ordering(ByPrice, direction, false);
      } else if sortBy.value == "is_featured" {
        o := Ordering(ByFeatured, direction, true);
      } else {
        o := Ordering(ByCreatedAt, direction, false);
      }
    } else {
      o := Ordering(ByCreatedAt, "DESC", false);
    }
  }

  /** getAllProducts: the listing query and the count query. The count
      query has the same conditions bound to the same values and no
      paging; the listing binds one value per `?`, then LIMIT when the
      limit is truthy and OFFSET only after it. */
  method BuildProductListing(p: ProductListParams) returns (list: ProductQuery, count: ProductCountQuery)
    ensures forall f :: f in list.filters <==> Applies(f, p)
    ensures Ascending(list.filters)
    ensures list.limit <==> Nonzero(p.limit)
    ensures list.offset <==> Nonzero(p.limit) && Nonzero(p.offset)
    ensures |list.params| == ArityOf(list.filters) + (if list.limit then 1 else 0) + (if list.offset then 1 else 0)
    ensures list.params[..ArityOf(list.filters)] == ArgsOf(list.filters, p)
    ensures list.limit ==> list.params[ArityOf(list.filters)] == Int(p.limit.value)
    ensures list.offset ==> list.params[|list.params| - 1] == Int(p.offset.value)
    ensures count.filters == list.filters
    ensures count.params == ArgsOf(count.filters, p)
    ensures !Given(p.sortBy) ==> list.ordering == Ordering(ByCreatedAt, "DESC", false)
    ensures Given(p.sortBy) ==> list.ordering.direction == (if Given(p.sortOrder) then p.sortOrder.value else "DESC")
    ensures Given(p.sortBy) ==> (list.ordering.column == ByPrice <==> p.sortBy.value == "price")
    ensures Given(p.sortBy) ==> (list.ordering.column == ByFeatured <==> p.sortBy.value == "is_featured")
    ensures list.ordering.newestNext <==> list.ordering.column == ByFeatured
  {
    var filters, params := PushProductFilters(p);
    var ordering := SortClause(p.sortBy, p.sortOrder);
    ghost var n := |params|;
    var limit, offset := false, false;
    if Nonzero(p.limit) {
      limit := true;
      params := params + [Int(p.limit.value)];
      if Nonzero(p.offset) {
        offset := true;
        params := params + [Int(p.offset.value)];
      }
    }
    assert params[..n] == FilterParams(p);
    list := ProductQuery(filters, ordering, limit, offset, params);
    var countFilters, countParams := PushProductFilters(p);
    count := ProductCountQuery(countFilters, countParams);
  }

  /** A minimum or maximum price of 0 still filters: `!== undefined`, not truthiness. */
  lemma ZeroPriceBoundFilters(p: ProductListParams)
    requires p.minPrice == Some(0)
    ensures PriceAtLeast in ProductFilters(p)
    ensures Int(0) in FilterParams(p)
  {
    assert MinPriceParam(p) == [Int(0)];
    var pre := CategoryParam(p) + CategoryIdParam(p) + StatusParam(p) + FeaturedParam(p) + SearchParams(p);
    assert FilterParams(p) == pre + [Int(0)] + MaxPriceParam(p);
    assert FilterParams(p)[|pre|] == Int(0);
  }

  /** `featured: false` filters on is_featured = 0 rather than dropping the condition. */
  lemma FeaturedFalseFilters(p: ProductListParams)
    requires p.featured == Some(false)
    ensures FeaturedIs in ProductFilters(p)
    ensures FeaturedParam(p) == [Int(0)]
  {
  }

  // ------------------------------------------------------------------
  // Attribute rows
  // ------------------------------------------------------------------

  /** One attribute as the request gives it; `sortOrder` may be absent. */
  datatype AttrInput = AttrInput(name: string, value: string, sortOrder: Option<int>)

  /** `attr.sort_order || 0`: absent and 0 both store 0. */
  function SortOrderOf(a: AttrInput): (r: int)
    ensures a.sortOrder.None? ==> r == 0
    ensures a.sortOrder.Some? ==> r == a.sortOrder.value
  {
    if a.sortOrder.Some? && a.sortOrder.value != 0 then a.sortOrder.value else 0
  }

  /** The attribute rows inserted for product `id`, one per input, in order. */
  function AttributeRows(id: int, attrs: seq<AttrInput>): (r: seq<AttributeRow>)
    ensures |r| == |attrs|
    ensures forall i :: 0 <= i < |attrs| ==>
      r[i] == AttributeRow(id, attrs[i].name, attrs[i].value, SortOrderOf(attrs[i]))
  {
    if attrs == [] then []
    else AttributeRows(id, attrs[..|attrs| - 1]) + [AttributeRow(id, attrs[|attrs| - 1].name, attrs[|attrs| - 1].value, SortOrderOf(attrs[|attrs| - 1]))]
  }

  /** `DELETE FROM product_attributes WHERE product_id = ?`: the other
      products' rows, in their order. */
  function WithoutProduct(rows: seq<AttributeRow>, id: int): (r: seq<AttributeRow>)
    ensures |r| <= |rows|
  {
    if rows == [] then []
    else
      var last := rows[|rows| - 1];
      WithoutProduct(rows[..|rows| - 1], id) + (if last.productId == id then [] else [last])
  }

  /** The attribute inserts, one per input in order. */
  method InsertAttributes(db: Db, id: int, attrs: seq<AttrInput>)
    modifies db`attributes
    ensures db.attributes == old(db.attributes) + AttributeRows(id, attrs)
  {
    for i := 0 to |attrs|
      invariant db.attributes == old(db.attributes) + AttributeRows(id, attrs[..i])
    {
      var a := attrs[i];
      db.attributes := db.attributes + [AttributeRow(id, a.name, a.value, SortOrderOf(a))];
      assert attrs[..i + 1][..i] == attrs[..i];
    }
    assert attrs[..|attrs|] == attrs;
  }

  /** After a replace-all, the product's rows are exactly the rows of the
      new list, every other product's rows are kept, and deleting again
      removes just the new rows. */
  lemma AttributesReplaced(rows: seq<AttributeRow>, id: int, attrs: seq<AttrInput>)
    ensures var r := WithoutProduct(rows, id) + AttributeRows(id, attrs);
      && (forall a :: a in r && a.productId == id <==> a in AttributeRows(id, attrs))
      && (forall a :: a in r && a.productId != id <==> a in rows && a.productId != id)
      && WithoutProduct(r, id) == WithoutProduct(rows, id)
  {
    var kept := WithoutProduct(rows, id);
    WithoutProductMembers(rows, id);
    WithoutProductMembers(kept + AttributeRows(id, attrs), id);
    WithoutProductAppend(kept, AttributeRows(id, attrs), id);
    WithoutProductNone(kept, id);
    WithoutProductOwn(AttributeRows(id, attrs), id);
  }

  lemma {:induction false} WithoutProductAppend(a: seq<AttributeRow>, b: seq<AttributeRow>, id: int)
    ensures WithoutProduct(a + b, id) == WithoutProduct(a, id) + WithoutProduct(b, id)
  {
    if b == [] {
      assert a + b == a;
    } else {
      var init := b[..|b| - 1];
      WithoutProductAppend(a, init, id);
      assert (a + b)[..|a + b| - 1] == a + init;
    }
  }

  lemma {:induction false} WithoutProductNone(rows: seq<AttributeRow>, id: int)
    requires forall a :: a in rows ==> a.productId != id
    ensures WithoutProduct(rows, id) == rows
  {
    if rows != [] {
      var init := rows[..|rows| - 1];
      WithoutProductNone(init, id);
      assert rows == init + [rows[|rows| - 1]];
    }
  }

  lemma {:induction false} WithoutProductOwn(rows: seq<AttributeRow>, id: int)
    requires forall a :: a in rows ==> a.productId == id
    ensures WithoutProduct(rows, id) == []
  {
    if rows != [] {
      var init := rows[..|rows| - 1];
      WithoutProductOwn(init, id);
      assert rows[|rows| - 1] in rows;
    }
  }

  /** The delete keeps exactly the other products' rows. */
  lemma {:induction false} WithoutProductMembers(rows: seq<AttributeRow>, id: int)
    ensures forall a :: a in WithoutProduct(rows, id) <==> a in rows && a.productId != id
  {
    if rows != [] {
      var init := rows[..|rows| - 1];
      WithoutProductMembers(init, id);
      assert rows == init + [rows[|rows| - 1]];
    }
  }

  // ------------------------------------------------------------------
  // createProduct
  // ------------------------------------------------------------------

  /** The fields of createProduct's data; optional ones are `None`. */
  datatype CreateProductData = CreateProductData(
    name: string,
    slug: string,
    description: Option<string>,
    shortDescription: Option<string>,
    price: int,
    compareAtPrice: Option<int>,
    sku: Option<string>,
    categoryId: Option<int>,
    brand: Option<string>,
    model: Option<string>,
    stockQuantity: int,
    featuredImage: Option<string>,
    galleryImages: Option<seq<string>>,
    status: Option<string>,
    isFeatured: Option<bool>,
    weight: Option<int>,
    attributes: Option<seq<AttrInput>>)

  /** The sixteen columns the INSERT names. */
  const INSERTED_COLUMNS: set<string> := {
    "name", "slug", "description", "short_description", "price", "compare_at_price",
    "sku", "category_id", "brand", "model", "stock_quantity", "featured_image",
    "gallery_images", "status", "is_featured", "weight" }

  /** The stored row: the table's column defaults overridden by the
      inserted values. The status defaults to 'active' when absent or
      empty, is_featured is stored as 1 or 0, and the gallery as its JSON
      text, or NULL when absent. */
  function NewProductRow(data: CreateProductData, defaults: Row): (r: Row)
    ensures r.Keys == defaults.Keys + INSERTED_COLUMNS
    ensures r["status"] == Text(if Given(data.status) then data.status.value else "active")
    ensures r["status"] != Text("")
    ensures r["is_featured"] == Int(if data.isFeatured == Some(true) then 1 else 0)
    ensures r["gallery_images"] == (if data.galleryImages.Some? then JsonText(data.galleryImages.value) else Null)
    ensures forall c :: c in defaults && c !in INSERTED_COLUMNS ==> r[c] == defaults[c]
  {
    defaults["name" := Text(data.name)]
      ["slug" := Text(data.slug)]
      ["description" := TextOrNull(data.description)]
      ["short_description" := TextOrNull(data.shortDescription)]
      ["price" := Int(data.price)]
      ["compare_at_price" := IntOrNull(data.compareAtPrice)]
      ["sku" := TextOrNull(data.sku)]
      ["category_id" := IntOrNull(data.categoryId)]
      ["brand" := TextOrNull(data.brand)]
      ["model" := TextOrNull(data.model)]
      ["stock_quantity" := Int(data.stockQuantity)]
      ["featured_image" := TextOrNull(data.featuredImage)]
      ["weight" := IntOrNull(data.weight)]
      ["gallery_images" := if data.galleryImages.Some? then JsonText(data.galleryImages.value) else Null]
      ["is_featured" := Int(if data.isFeatured == Some(true) then 1 else 0)]
      ["status" := Text(if Given(data.status) then data.status.value else "active")]
  }

  /** The attributes createProduct inserts: all of them, in order, when the
      list is present and non-empty. */
  function CreatedAttributes(id: int, data: CreateProductData): seq<AttributeRow>
  {
    if data.attributes.Some? && |data.attributes.value| > 0 then AttributeRows(id, data.attributes.value) else []
  }

  /** createProduct: one product row under the next id, then its attribute
      rows; no other product or attribute changes. `defaults` stands for
      the table's column defaults (timestamps, low-stock threshold). */
  method CreateProduct(db: Db, data: CreateProductData, defaults: Row) returns (id: int)
    modifies db`products, db`nextProductId, db`attributes
    ensures id == old(db.nextProductId) && db.nextProductId == id + 1
    ensures db.products == old(db.products)[id := NewProductRow(data, defaults)]
    ensures db.attributes == old(db.attributes) + CreatedAttributes(id, data)
  {
    id := db.nextProductId;
    db.nextProductId := id + 1;
    db.products := db.products[id := NewProductRow(data, defaults)];
    if data.attributes.Some? && |data.attributes.value| > 0 {
      InsertAttributes(db, id, data.attributes.value);
    } else {
      assert db.attributes == db.attributes + [];
    }
  }

  /** A created product's attribute rows all belong to it and keep the
      request's order and values. */
  lemma CreatedAttributesBelong(id: int, data: CreateProductData)
    requires data.attributes.Some?
    ensures var r := CreatedAttributes(id, data);
      && (forall a :: a in r ==> a.productId == id)
      && (|data.attributes.value| > 0 ==> |r| == |data.attributes.value|)
      && (forall i :: 0 <= i < |r| ==>
            r[i].name == data.attributes.value[i].name && r[i].value == data.attributes.value[i].value)
  {
  }

  // ------------------------------------------------------------------
  // updateProduct
  // ------------------------------------------------------------------

  /** The strings of a gallery array; non-string elements count as ''. */
  function GalleryStrings(elems: seq<Json>): (r: seq<string>)
    ensures |r| == |elems|
    ensures forall i :: 0 <= i < |elems| && elems[i].JStr? ==> r[i] == elems[i].s
  {
    seq(|elems|, i requires 0 <= i < |elems| => if elems[i].JStr? then elems[i].s else "")
  }

  /** The value bound for one entry: a gallery array as its JSON text,
      is_featured as 1/0 by truthiness, anything else as given. */
  function BoundValue(e: Entry): (v: Value)
    ensures e.key == "is_featured" ==> v == Int(if JsonTruthy(e.value) then 1 else 0)
    ensures e.key == "gallery_images" && e.value.JArr? ==> v == JsonText(GalleryStrings(e.value.elems))
    ensures e.key != "is_featured" && !(e.key == "gallery_images" && e.value.JArr?) ==> v == Plain(e.value)
  {
    if e.key == "gallery_images" then (if e.value.JArr? then JsonText(GalleryStrings(e.value.elems)) else Plain(e.value))
    else if e.key == "is_featured" then Int(if JsonTruthy(e.value) then 1 else 0)
    else Plain(e.value)
  }

  /** The columns the forEach names, in entry order, `attributes` skipped. */
  function UpdateColumns(entries: seq<Entry>): (r: seq<string>)
    ensures |r| <= |entries|
  {
    if entries == [] then []
    else
      var last := entries[|entries| - 1];
      UpdateColumns(entries[..|entries| - 1]) + (if last.key == "attributes" then [] else [last.key])
  }

  /** The SET columns are exactly the submitted keys other than `attributes`. */
  lemma {:induction false} UpdateColumnsMembers(entries: seq<Entry>)
    ensures forall c :: c in UpdateColumns(entries) <==> c != "attributes" && exists i :: 0 <= i < |entries| && entries[i].key == c
  {
    if entries != [] {
      var init := entries[..|entries| - 1];
      UpdateColumnsMembers(init);
      assert forall i :: 0 <= i < |init| ==> init[i] == entries[i];
    }
  }

  /** The values the forEach pushes, parallel to `UpdateColumns`. */
  function UpdateValues(entries: seq<Entry>): (r: seq<Value>)
    ensures |r| == |UpdateColumns(entries)|
  {
    if entries == [] then []
    else
      var last := entries[|entries| - 1];
      UpdateValues(entries[..|entries| - 1]) + (if last.key == "attributes" then [] else [BoundValue(last)])
  }

  /** The column assignments as a map: the last entry for a column wins. */
  function Assigned(entries: seq<Entry>): map<string, Value>
  {
    if entries == [] then map[]
    else
      var last := entries[|entries| - 1];
      var m := Assigned(entries[..|entries| - 1]);
      if last.key == "attributes" then m else m[last.key := BoundValue(last)]
  }

  /** The forEach over `Object.entries(data)`: skip `attributes`, push
      `key = ?` and its bound value for every other key. */
  method BuildProductUpdate(entries: seq<Entry>) returns (fields: seq<string>, values: seq<Value>)
    ensures fields == UpdateColumns(entries) && values == UpdateValues(entries)
  {
    fields, values := [], [];
    for i := 0 to |entries|
      invariant fields == UpdateColumns(entries[..i]) && values == UpdateValues(entries[..i])
    {
      var e := entries[i];
      assert entries[..i + 1][..i] == entries[..i];
      if e.key == "attributes" {
        continue;
      }
      if e.key == "gallery_images" {
        fields := fields + ["gallery_images"];
        values := values + [if e.value.JArr? then JsonText(GalleryStrings(e.value.elems)) else Plain(e.value)];
      } else if e.key == "is_featured" {
        fields := fields + ["is_featured"];
        values := values + [Int(if JsonTruthy(e.value) then 1 else 0)];
      } else {
        fields := fields + [e.key];
        values := values + [Plain(e.value)];
      }
    }
    assert entries[..|entries|] == entries;
  }

  /** Applying the built SET list overrides the row with the assignments. */
  lemma {:induction false} SetAllAssigned(row: Row, entries: seq<Entry>)
    ensures SetAll(row, UpdateColumns(entries), UpdateValues(entries)) == row + Assigned(entries)
  {
    if entries != [] {
      var init := entries[..|entries| - 1];
      SetAllAssigned(row, init);
      var cs := UpdateColumns(init);
      var vs := UpdateValues(init);
      var last := entries[|entries| - 1];
      if last.key != "attributes" {
        SetAllSnoc(row, cs, vs, last.key, BoundValue(last));
        MergeUpdate(row, Assigned(init), last.key, BoundValue(last));
      } else {
        assert cs + [] == cs && vs + [] == vs;
      }
    }
  }

  /** The updated row: the assignments, then updated_at = CURRENT_TIMESTAMP. */
  function UpdatedRow(row: Row, entries: seq<Entry>, now: int): Row
  {
    (row + Assigned(entries))["updated_at" := Int(now)]
  }

  /** updateProduct: nothing is written when no column but `attributes` is
      named (so an attributes-only update is dropped); otherwise the row
      is updated (if it exists) and, when an attribute list is given, the
      product's attribute rows are replaced by it. Returns the row read
      back afterwards, or None when there is none. */
  method UpdateProduct(db: Db, id: int, entries: seq<Entry>, attributes: Option<seq<AttrInput>>, now: int)
    returns (r: Option<Row>)
    modifies db`products, db`attributes
    ensures UpdateColumns(entries) == [] ==> db.products == old(db.products) && db.attributes == old(db.attributes)
    ensures UpdateColumns(entries) != [] ==>
      db.products == (if id in old(db.products) then old(db.products)[id := UpdatedRow(old(db.products)[id], entries, now)] else old(db.products))
    ensures UpdateColumns(entries) != [] ==>
      db.attributes == (if attributes.Some? then WithoutProduct(old(db.attributes), id) + AttributeRows(id, attributes.value) else old(db.attributes))
    ensures r == (if id in db.products then Some(db.products[id]) else None)
  {
    var fields, values := BuildProductUpdate(entries);
    if |fields| == 0 {
      r := if id in db.products then Some(db.products[id]) else None;
      return;
    }
    if id in db.products {
      var row := db.products[id];
      SetAllAssigned(row, entries);
      db.products := db.products[id := SetAll(row, fields, values)["updated_at" := Int(now)]];
    }
    if attributes.Some? {
      db.attributes := WithoutProduct(db.attributes, id);
      InsertAttributes(db, id, attributes.value);
    }
    r := if id in db.products then Some(db.products[id]) else None;
  }

  /** An update whose only key is `attributes` names no column, so it is
      dropped; and every other update names at least one. */
  lemma {:induction false} AttributesOnlyUpdateDropped(entries: seq<Entry>)
    ensures UpdateColumns(entries) == [] <==> forall i :: 0 <= i < |entries| ==> entries[i].key == "attributes"
  {
    UpdateColumnsMembers(entries);
    if UpdateColumns(entries) != [] {
      var c := UpdateColumns(entries)[0];
      assert c in UpdateColumns(entries);
    } else {
      forall i | 0 <= i < |entries| ensures entries[i].key == "attributes" {
        assert entries[i].key !in UpdateColumns(entries);
      }
    }
  }

  /** The assignments name exactly the non-`attributes` keys. */
  lemma {:induction false} AssignedKeys(entries: seq<Entry>)
    ensures forall c :: c in Assigned(entries) <==> c in UpdateColumns(entries)
  {
    if entries != [] {
      var init := entries[..|entries| - 1];
      AssignedKeys(init);
      UpdateColumnsMembers(init);
      UpdateColumnsMembers(entries);
      forall c ensures c in UpdateColumns(entries) <==> c in UpdateColumns(init) || (c == entries[|entries| - 1].key && c != "attributes") {
        assert forall i :: 0 <= i < |init| ==> init[i] == entries[i];
        if c in UpdateColumns(entries) && !(c == entries[|entries| - 1].key) {
          var i :| 0 <= i < |entries| && entries[i].key == c;
          assert i < |init| && init[i].key == c;
        }
      }
    }
  }

  /** With distinct keys, each named column is assigned its entry's bound value. */
  lemma {:induction false} AssignedValue(entries: seq<Entry>, i: int)
    requires DistinctKeys(entries)
    requires 0 <= i < |entries| && entries[i].key != "attributes"
    ensures entries[i].key in Assigned(entries)
    ensures Assigned(entries)[entries[i].key] == BoundValue(entries[i])
  {
    var init := entries[..|entries| - 1];
    if i < |entries| - 1 {
      assert init[i] == entries[i];
      AssignedValue(init, i);
    }
  }

  /** updateProduct writes exactly the keys present except `attributes`,
      each with its bound value (is_featured as 1/0, a gallery array as
      JSON text), stamps updated_at, and leaves every other column as it was. */
  lemma UpdateWritesExactlyKeys(row: Row, entries: seq<Entry>, now: int, c: string)
    requires DistinctKeys(entries)
    ensures c == "updated_at" ==> UpdatedRow(row, entries, now)[c] == Int(now)
    ensures forall i :: 0 <= i < |entries| && entries[i].key == c && c != "attributes" && c != "updated_at" ==>
      c in UpdatedRow(row, entries, now) && UpdatedRow(row, entries, now)[c] == BoundValue(entries[i])
    ensures c != "updated_at" && c !in UpdateColumns(entries) ==>
      (c in UpdatedRow(row, entries, now) <==> c in row) && (c in row ==> UpdatedRow(row, entries, now)[c] == row[c])
  {
    AssignedKeys(entries);
    forall i | 0 <= i < |entries| && entries[i].key == c && c != "attributes" && c != "updated_at"
      ensures c in UpdatedRow(row, entries, now) && UpdatedRow(row, entries, now)[c] == BoundValue(entries[i])
    {
      AssignedValue(entries, i);
    }
  }

  // ------------------------------------------------------------------
  // updateStock
  // ------------------------------------------------------------------

  /** The CASE of updateStock: out_of_stock when the new quantity is 0 or
      less, back to active when it was out_of_stock and the quantity is
      positive, otherwise unchanged. */
  function StockStatus(status: Value, quantity: int): (r: Value)
    ensures r == Text(OrderService.OUT_OF_STOCK) <==> quantity <= 0
    ensures quantity > 0 && status == Text(OrderService.OUT_OF_STOCK) ==> r == Text(OrderService.ACTIVE)
    ensures quantity > 0 && status != Text(OrderService.OUT_OF_STOCK) ==> r == status
  {
    if quantity <= 0 then Text(OrderService.OUT_OF_STOCK)
    else if status == Text(OrderService.OUT_OF_STOCK) then Text(OrderService.ACTIVE)
    else status
  }

  function Restocked(row: Row, quantity: int, now: int): (r: Row)
    ensures IntCol(r, "stock_quantity") == quantity
    ensures Col(r, "status") == StockStatus(Col(row, "status"), quantity)
    ensures Col(r, "updated_at") == Int(now)
    ensures forall c :: c != "stock_quantity" && c != "status" && c != "updated_at" ==> Col(r, c) == Col(row, c)
  {
    row["stock_quantity" := Int(quantity)]["status" := StockStatus(Col(row, "status"), quantity)]["updated_at" := Int(now)]
  }

  /** updateStock: sets the quantity, applies the status rule and stamps
      updated_at on that product only; an unknown id changes nothing. The
      UPDATE's `result.success` flag (`updateOk`) is returned. */
  method UpdateStock(db: Db, id: int, quantity: int, now: int, updateOk: bool) returns (ok: bool)
    modifies db`products
    ensures db.products == if id in old(db.products) then old(db.products)[id := Restocked(old(db.products)[id], quantity, now)] else old(db.products)
    ensures ok == updateOk
  {
    if id in db.products {
      db.products := db.products[id := Restocked(db.products[id], quantity, now)];
    }
    ok := updateOk;
  }

  /** A product an order sold out is active again after a positive stock update. */
  lemma SoldOutThenRestocked(row: Row, quantity: int, restock: int, now: int)
    requires Col(row, "status") == Text(OrderService.ACTIVE)
    requires IntCol(row, "stock_quantity") <= quantity
    requires restock > 0
    ensures Col(OrderService.Decrement(row, quantity), "status") == Text(OrderService.OUT_OF_STOCK)
    ensures Col(Restocked(OrderService.Decrement(row, quantity), restock, now), "status") == Text(OrderService.ACTIVE)
  {
  }

  /** A discontinued product set to 0 and then restocked comes back as
      active: the rule does not remember the status it overwrote. */
  lemma DiscontinuedComesBackActive(row: Row, restock: int, now: int)
    requires Col(row, "status") == Text("discontinued")
    requires restock > 0
    ensures Col(Restocked(Restocked(row, 0, now), restock, now), "status") == Text(OrderService.ACTIVE)
  {
  }

  /** An inactive product stays inactive after a positive stock update. */
  lemma InactiveStaysInactive(row: Row, restock: int, now: int)
    requires Col(row, "status") == Text("inactive")
    requires restock > 0
    ensures Col(Restocked(row, restock, now), "status") == Text("inactive")
  {
  }
}
