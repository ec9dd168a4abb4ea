/**
 * The category service: the category listing (active ones only unless
 * asked otherwise, ordered by sort order then name, each with a count of
 * its active products), creation with a default sort order, the partial
 * update built from the request's own keys, and deletion guarded by the
 * products that still reference the category.
 */
module CategoryService {
  import opened Common
  import opened Store
  import opened Query

  // ------------------------------------------------------------------
  // Listing: getAllCategories
  // ------------------------------------------------------------------

  /** The listing query: whether `WHERE c.is_active = 1` is added, and the
      `ORDER BY` columns (all ascending). */
  datatype CategoryListQuery = CategoryListQuery(activeOnly: bool, orderBy: seq<string>)

  /** getAllCategories' query text: the active filter unless inactive
      categories are asked for, then sort order and name. */
  method BuildCategoryListing(includeInactive: bool) returns (q: CategoryListQuery)
    ensures q.activeOnly <==> !includeInactive
    ensures q.orderBy == ["sort_order", "name"]
  {
    var activeOnly := false;
    if !includeInactive {
      activeOnly := true;
    }
    q := CategoryListQuery(activeOnly, ["sort_order", "name"]);
  }

  predicate IsActive(row: Row) { Col(row, "is_active") == Int(1) }

  function NameOf(row: Row): string
  {
    if Col(row, "name").Text? then Col(row, "name").s else ""
  }

  /** SQLite's default text order: byte-wise, a prefix first. */
  predicate TextLe(a: string, b: string)
    decreases |a|
  {
    |a| == 0 || (|b| > 0 && (a[0] < b[0] || (a[0] == b[0] && TextLe(a[1..], b[1..]))))
  }

  /** `ORDER BY c.sort_order ASC, c.name ASC` between two rows. */
  predicate ListedNoLater(r1: Row, r2: Row)
  {
    IntCol(r1, "sort_order") < IntCol(r2, "sort_order")
    || (IntCol(r1, "sort_order") == IntCol(r2, "sort_order") && TextLe(NameOf(r1), NameOf(r2)))
  }

  /** Whether a category passes the query's WHERE. */
  predicate Selected(q: CategoryListQuery, row: Row)
  {
    !q.activeOnly || IsActive(row)
  }

  /** What the query answers: every selected category exactly once, in
      listing order (ties in either order). */
  ghost predicate Answers(q: CategoryListQuery, categories: map<int, Row>, result: seq<int>)
  {
    && (forall i, j :: 0 <= i < j < |result| ==> result[i] != result[j])
    && (forall id :: id in result <==> id in categories && Selected(q, categories[id]))
    && (forall i, j :: 0 <= i < j < |result| && result[i] in categories && result[j] in categories ==>
          ListedNoLater(categories[result[i]], categories[result[j]]))
  }

  /** Without includeInactive the listing holds exactly the active
      categories; with it, every category. */
  lemma ListingSelection(includeInactive: bool, q: CategoryListQuery, categories: map<int, Row>, result: seq<int>)
    requires q.activeOnly <==> !includeInactive
    requires Answers(q, categories, result)
    ensures !includeInactive ==> forall id :: id in result <==> id in categories && IsActive(categories[id])
    ensures includeInactive ==> forall id :: id in result <==> id in categories
  {
  }

  /** In a listing, a lower sort order always comes first. */
  lemma ListingSortOrderFirst(q: CategoryListQuery, categories: map<int, Row>, result: seq<int>, i: int, j: int)
    requires Answers(q, categories, result)
    requires 0 <= i < |result| && 0 <= j < |result|
    requires result[i] in categories && result[j] in categories
    requires IntCol(categories[result[i]], "sort_order") < IntCol(categories[result[j]], "sort_order")
    ensures i < j
  {
  }

  /** The products a category's `product_count` counts: active ones only. */
  function ActiveProductIds(products: map<int, Row>, id: int): set<int>
  {
    set pid | pid in products && Col(products[pid], "category_id") == Int(id) && Col(products[pid], "status") == Text("active")
  }

  /** The products deleteCategory's guard counts: any status. */
  function ReferencingIds(products: map<int, Row>, id: int): (r: set<int>)
    ensures ActiveProductIds(products, id) <= r
  {
    set pid | pid in products && Col(products[pid], "category_id") == Int(id)
  }

  function ProductCount(products: map<int, Row>, id: int): nat { |ActiveProductIds(products, id)| }

  function ReferencingCount(products: map<int, Row>, id: int): nat { |ReferencingIds(products, id)| }

  // ------------------------------------------------------------------
  // createCategory
  // ------------------------------------------------------------------

  datatype CategoryData = CategoryData(
    name: string,
    slug: string,
    description: Option<string>,
    imageUrl: Option<string>,
    parentId: Option<int>,
    sortOrder: Option<int>)

  /** The stored row: the table's defaults (is_active, timestamps)
      overridden by the six inserted columns; the sort order is the given
      one, or 0 when absent. */
  function NewCategoryRow(data: CategoryData, defaults: Row): (r: Row)
    ensures r.Keys == defaults.Keys + {"name", "slug", "description", "image_url", "parent_id", "sort_order"}
    ensures r["sort_order"] == Int(if data.sortOrder.Some? then data.sortOrder.value else 0)
    ensures r["parent_id"] == IntOrNull(data.parentId)
    ensures forall c :: c in defaults && c !in {"name", "slug", "description", "image_url", "parent_id", "sort_order"} ==> r[c] == defaults[c]
  {
    defaults["name" := Text(data.name)]
      ["slug" := Text(data.slug)]
      ["description" := TextOrNull(data.description)]
      ["image_url" := TextOrNull(data.imageUrl)]
      ["parent_id" := IntOrNull(data.parentId)]
      ["sort_order" := Int(if data.sortOrder.Some? && data.sortOrder.value != 0 then data.sortOrder.value else 0)]
  }

  /** createCategory: one row under the next id; no other category changes. */
  method CreateCategory(db: Db, data: CategoryData, defaults: Row) returns (id: int)
    modifies db`categories, db`nextCategoryId
    ensures id == old(db.nextCategoryId) && db.nextCategoryId == id + 1
    ensures db.categories == old(db.categories)[id := NewCategoryRow(data, defaults)]
  {
    id := db.nextCategoryId;
    db.nextCategoryId := id + 1;
    db.categories := db.categories[id := NewCategoryRow(data, defaults)];
  }

  // ------------------------------------------------------------------
  // updateCategory
  // ------------------------------------------------------------------

  function UpdateColumns(entries: seq<Entry>): (r: seq<string>)
    ensures |r| == |entries|
    ensures forall i :: 0 <= i < |entries| ==> r[i] == entries[i].key
  {
    if entries == [] then [] else UpdateColumns(entries[..|entries| - 1]) + [entries[|entries| - 1].key]
  }

  function UpdateValues(entries: seq<Entry>): (r: seq<Value>)
    ensures |r| == |entries|
    ensures forall i :: 0 <= i < |entries| ==> r[i] == Plain(entries[i].value)
  {
    if entries == [] then [] else UpdateValues(entries[..|entries| - 1]) + [Plain(entries[|entries| - 1].value)]
  }

  /** The column assignments as a map: the last entry for a column wins. */
  function Assigned(entries: seq<Entry>): map<string, Value>
  {
    if entries == [] then map[]
    else
      var last := entries[|entries| - 1];
      Assigned(entries[..|entries| - 1])[last.key := Plain(last.value)]
  }

  /** The forEach: `key = ?` and the value, for every key given. */
  method BuildCategoryUpdate(entries: seq<Entry>) returns (fields: seq<string>, values: seq<Value>)
    ensures fields == UpdateColumns(entries) && values == UpdateValues(entries)
  {
    fields, values := [], [];
    for i := 0 to |entries|
      invariant fields == UpdateColumns(entries[..i]) && values == UpdateValues(entries[..i])
    {
      assert entries[..i + 1][..i] == entries[..i];
      fields := fields + [entries[i].key];
      values := values + [Plain(entries[i].value)];
    }
    assert entries[..|entries|] == entries;
  }

  lemma {:induction false} SetAllAssigned(row: Row, entries: seq<Entry>)
    ensures SetAll(row, UpdateColumns(entries), UpdateValues(entries)) == row + Assigned(entries)
  {
    if entries != [] {
      var init := entries[..|entries| - 1];
      SetAllAssigned(row, init);
      var last := entries[|entries| - 1];
      SetAllSnoc(row, UpdateColumns(init), UpdateValues(init), last.key, Plain(last.value));
      MergeUpdate(row, Assigned(init), last.key, Plain(last.value));
    }
  }

  function UpdatedRow(row: Row, entries: seq<Entry>, now: int): Row
  {
    (row + Assigned(entries))["updated_at" := Int(now)]
  }

  /** updateCategory: no write when no key is given; otherwise the row (if
      it exists) gets the assignments and updated_at. Returns the row read
      back afterwards. */
  method UpdateCategory(db: Db, id: int, entries: seq<Entry>, now: int) returns (r: Option<Row>)
    modifies db`categories
    ensures entries == [] ==> db.categories == old(db.categories)
    ensures entries != [] ==>
      db.categories == (if id in old(db.categories) then old(db.categories)[id := UpdatedRow(old(db.categories)[id], entries, now)] else old(db.categories))
    ensures r == (if id in db.categories then Some(db.categories[id]) else None)
  {
    var fields, values := BuildCategoryUpdate(entries);
    if |fields| == 0 {
      r := if id in db.categories then Some(db.categories[id]) else None;
      return;
    }
    if id in db.categories {
      var row := db.categories[id];
      SetAllAssigned(row, entries);
      db.categories := db.categories[id := SetAll(row, fields, values)["updated_at" := Int(now)]];
    }
    r := if id in db.categories then Some(db.categories[id]) else None;
  }

  lemma {:induction false} AssignedKeys(entries: seq<Entry>)
    ensures forall c :: c in Assigned(entries) <==> exists i :: 0 <= i < |entries| && entries[i].key == c
  {
    if entries != [] {
      var init := entries[..|entries| - 1];
      AssignedKeys(init);
      forall c | c in Assigned(entries) && c != entries[|entries| - 1].key
        ensures exists i :: 0 <= i < |entries| && entries[i].key == c
      {
        assert c in Assigned(init);
        var i :| 0 <= i < |init| && init[i].key == c;
        assert entries[i].key == c;
      }
      forall c | (exists i :: 0 <= i < |entries| && entries[i].key == c) && c != entries[|entries| - 1].key
        ensures c in Assigned(entries)
      {
        var i :| 0 <= i < |entries| && entries[i].key == c;
        assert init[i].key == c;
      }
    }
  }

  lemma {:induction false} AssignedValue(entries: seq<Entry>, i: int)
    requires DistinctKeys(entries)
    requires 0 <= i < |entries|
    ensures entries[i].key in Assigned(entries)
    ensures Assigned(entries)[entries[i].key] == Plain(entries[i].value)
  {
    var init := entries[..|entries| - 1];
    if i < |entries| - 1 {
      assert init[i] == entries[i];
      AssignedValue(init, i);
    }
  }

  /** updateCategory writes exactly the supplied keys plus updated_at and
      leaves every other column as it was. */
  lemma UpdateWritesExactlyKeys(row: Row, entries: seq<Entry>, now: int, c: string)
    requires DistinctKeys(entries)
    ensures c == "updated_at" ==> UpdatedRow(row, entries, now)[c] == Int(now)
    ensures forall i :: 0 <= i < |entries| && entries[i].key == c && c != "updated_at" ==>
      c in UpdatedRow(row, entries, now) && UpdatedRow(row, entries, now)[c] == Plain(entries[i].value)
    ensures c != "updated_at" && (forall i :: 0 <= i < |entries| ==> entries[i].key != c) ==>
      (c in UpdatedRow(row, entries, now) <==> c in row) && (c in row ==> UpdatedRow(row, entries, now)[c] == row[c])
  {
    AssignedKeys(entries);
    forall i | 0 <= i < |entries| && entries[i].key == c && c != "updated_at"
      ensures c in UpdatedRow(row, entries, now) && UpdatedRow(row, entries, now)[c] == Plain(entries[i].value)
    {
      AssignedValue(entries, i);
    }
  }

  // ------------------------------------------------------------------
  // deleteCategory
  // ------------------------------------------------------------------

  const HAS_PRODUCTS := "Cannot delete category with existing products"

  /** deleteCategory: refused while any product, whatever its status,
      references the category; otherwise that one category row goes and
      the DELETE's `result.success` flag (`deleteOk`) is returned. */
  method DeleteCategory(db: Db, id: int, deleteOk: bool) returns (r: Outcome<bool>)
    modifies db`categories
    ensures ReferencingCount(old(db.products), id) > 0 ==> r == Threw(HAS_PRODUCTS) && db.categories == old(db.categories)
    ensures ReferencingCount(old(db.products), id) == 0 ==> r == Returned(deleteOk) && db.categories == old(db.categories) - {id}
  {
    var count := ReferencingCount(db.products, id);
    if count > 0 {
      return Threw(HAS_PRODUCTS);
    }
    db.categories := db.categories - {id};
    r := Returned(deleteOk);
  }

  /** The deletion guard counts more than the listing shows: the listed
      product_count never exceeds it. */
  lemma ProductCountAtMostReferences(products: map<int, Row>, id: int)
    ensures ProductCount(products, id) <= ReferencingCount(products, id)
  {
    var active, all := ActiveProductIds(products, id), ReferencingIds(products, id);
    assert all == active + (all - active);
    assert active * (all - active) == {};
  }

  /** A category listed with product_count 0 can still be refused
      deletion: one inactive product referencing it is enough. */
  lemma ZeroCountStillRefused(id: int)
    ensures var products := map[7 := map["category_id" := Int(id), "status" := Text("inactive")]];
      ProductCount(products, id) == 0 && ReferencingCount(products, id) == 1
  {
    var products := map[7 := map["category_id" := Int(id), "status" := Text("inactive")]];
    assert Col(products[7], "status") != Text("active");
    assert ActiveProductIds(products, id) == {};
    assert ReferencingIds(products, id) == {7};
  }
}
