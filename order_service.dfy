/**
 * OrderService: order creation (validate lines, compute totals and the
 * discount, resolve the customer, insert the order and its items, take the
 * ordered quantities out of stock), the status and payment-status updates,
 * and the filter/parameter lists of the order listing.
 */
module OrderService {
  import opened Common
  import opened Store
  import opened Query

  datatype LineInput = LineInput(productId: int, quantity: int, unitPrice: int)

  datatype CreateOrderData = CreateOrderData(
    customerId: Option<int>,
    customerName: string,
    customerEmail: string,
    customerPhone: string,
    shippingMethod: string,
    shippingAddress: Option<string>,
    pickupLocation: Option<string>,
    deliveryInstructions: Option<string>,
    paymentMethod: string,
    customerNotes: Option<string>,
    items: seq<LineInput>,
    discountCode: Option<string>)

  /** The two errors createOrder throws before writing anything. */
  datatype OrderError = ProductUnavailable(productId: int) | InsufficientStock(productName: Value)

  /** A line after validation, with the product's name and sku snapshotted. */
  datatype Validated = Validated(line: LineInput, productName: Value, productSku: Value, totalPrice: int)

  datatype Validation = Accepted(subtotal: int, lines: seq<Validated>) | Rejected(error: OrderError)

  const ACTIVE := "active"
  const OUT_OF_STOCK := "out_of_stock"

  // ---------------------------------------------------------------
  // Step 1: line validation and the subtotal
  // ---------------------------------------------------------------

  /** `SELECT ... FROM products WHERE id = ? AND status = 'active'`. */
  function ActiveProduct(products: map<int, Row>, id: int): (r: Option<Row>)
    ensures r.Some? <==> id in products && Col(products[id], "status") == Text(ACTIVE)
    ensures r.Some? ==> r.value == products[id]
  {
    if id in products && Col(products[id], "status") == Text(ACTIVE) then Some(products[id]) else None
  }

  /** Why a line is refused, judged against the product table as it was
      before the order: a missing or non-active product, or a product that
      tracks inventory and has less stock than the line asks for. */
  function LineError(products: map<int, Row>, line: LineInput): Option<OrderError>
  {
    match ActiveProduct(products, line.productId)
    case None => Some(ProductUnavailable(line.productId))
    case Some(p) =>
      if Truthy(Col(p, "track_inventory")) && IntCol(p, "stock_quantity") < line.quantity
      then Some(InsufficientStock(Col(p, "name")))
      else None
  }

  /** Σ quantity × unit_price, with the unit price the client sent. */
  function Subtotal(lines: seq<LineInput>): int
  {
    if lines == [] then 0
    else Subtotal(lines[..|lines| - 1]) + lines[|lines| - 1].quantity * lines[|lines| - 1].unitPrice
  }

  function Snapshot(product: Row, line: LineInput): Validated
  {
    Validated(line, Col(product, "name"), Col(product, "sku"), line.quantity * line.unitPrice)
  }

  predicate AllKnown(products: map<int, Row>, lines: seq<LineInput>)
  {
    forall i :: 0 <= i < |lines| ==> lines[i].productId in products
  }

  /** Each line with its product's name and sku as they were at validation. */
  function Snapshots(products: map<int, Row>, lines: seq<LineInput>): (r: seq<Validated>)
    requires AllKnown(products, lines)
    ensures |r| == |lines|
    ensures forall i :: 0 <= i < |lines| ==> r[i].line == lines[i]
  {
    seq(|lines|, i requires 0 <= i < |lines| => Snapshot(products[lines[i].productId], lines[i]))
  }

  /** The first loop of createOrder. It fails on the first refused line;
      otherwise the subtotal is Σ quantity × unit_price over the lines (the
      stored product price plays no part) and each line carries its
      product's name and sku and total quantity × unit_price. */
  method ValidateItems(products: map<int, Row>, lines: seq<LineInput>) returns (v: Validation)
    ensures v.Rejected? <==> exists k :: 0 <= k < |lines| && LineError(products, lines[k]).Some?
    ensures v.Rejected? ==> (exists k :: 0 <= k < |lines| && LineError(products, lines[k]) == Some(v.error)
                                          && (forall j :: 0 <= j < k ==> LineError(products, lines[j]).None?))
    ensures v.Accepted? ==> v.subtotal == Subtotal(lines)
    ensures v.Accepted? ==> AllKnown(products, lines) && v.lines == Snapshots(products, lines)
  {
    var subtotal := 0;
    var validated: seq<Validated> := [];
    for i := 0 to |lines|
      invariant subtotal == Subtotal(lines[..i])
      invariant |validated| == i
      invariant forall j :: 0 <= j < i ==> LineError(products, lines[j]).None?
      invariant forall j :: 0 <= j < i ==>
        lines[j].productId in products && validated[j] == Snapshot(products[lines[j].productId], lines[j])
    {
      var item := lines[i];
      var product := ActiveProduct(products, item.productId);
      if product.None? {
        return Rejected(ProductUnavailable(item.productId));
      }
      var p := product.value;
      if Truthy(Col(p, "track_inventory")) && IntCol(p, "stock_quantity") < item.quantity {
        return Rejected(InsufficientStock(Col(p, "name")));
      }
      var itemTotal := item.quantity * item.unitPrice;
      assert lines[..i + 1][..i] == lines[..i];
      subtotal := subtotal + itemTotal;
      validated := validated + [Validated(item, Col(p, "name"), Col(p, "sku"), itemTotal)];
    }
    assert lines[..|lines|] == lines;
    assert validated == Snapshots(products, lines);
    return Accepted(subtotal, validated);
  }

  /** Every line is checked against the stock the product had before the
      order, so two lines for one product with 3 in stock, 2 each, both pass. */
  lemma RepeatedLinesNotAggregated()
    ensures var products := map[7 := map["status" := Text(ACTIVE), "track_inventory" := Int(1), "stock_quantity" := Int(3)]];
      var lines := [LineInput(7, 2, 100), LineInput(7, 2, 100)];
      && (forall k :: 0 <= k < |lines| ==> LineError(products, lines[k]).None?)
      && IntCol(ApplyStock(products, lines)[7], "stock_quantity") == -1
  {
    var products := map[7 := map["status" := Text(ACTIVE), "track_inventory" := Int(1), "stock_quantity" := Int(3)]];
    var lines := [LineInput(7, 2, 100), LineInput(7, 2, 100)];
    assert lines[..1] == [LineInput(7, 2, 100)];
    assert [LineInput(7, 2, 100)][..0] == [];
    ApplyStockStock(products, lines, 7);
    assert QuantityFor(lines, 7) == 4 by {
      assert QuantityFor([LineInput(7, 2, 100)], 7) == 2;
    }
  }

  // ---------------------------------------------------------------
  // Step 2: the discount and the total
  // ---------------------------------------------------------------

  /** `Math.round(n / 100)` for an integer `n`: halves round up. */
  function RoundHundredth(n: int): (r: int)
    ensures 100 * r - 50 <= n < 100 * r + 50
  {
    (n + 50) / 100
  }

  predicate Usable(d: DiscountCode, code: string, now: int)
  {
    && d.code == code
    && d.isActive
    && (d.startsAt.None? || d.startsAt.value <= now)
    && (d.expiresAt.None? || d.expiresAt.value >= now)
  }

  /** The discount lookup's `.first()`: the first usable code in table order. */
  function FindDiscount(codes: seq<DiscountCode>, code: string, now: int): (r: Option<DiscountCode>)
    ensures r.Some? ==> r.value in codes && Usable(r.value, code, now)
    ensures r.None? ==> forall i :: 0 <= i < |codes| ==> !Usable(codes[i], code, now)
  {
    if codes == [] then None
    else if Usable(codes[0], code, now) then Some(codes[0])
    else FindDiscount(codes[1..], code, now)
  }

  /** The code createOrder applies: none when no (non-empty) code was sent. */
  function LookupDiscount(codes: seq<DiscountCode>, code: Option<string>, now: int): (r: Option<DiscountCode>)
    ensures r.Some? ==> code.Some? && code.value != "" && r.value in codes && Usable(r.value, code.value, now)
    ensures code.Some? && code.value != "" && r.None? ==> forall i :: 0 <= i < |codes| ==> !Usable(codes[i], code.value, now)
  {
    if code.Some? && code.value != "" then FindDiscount(codes, code.value, now) else None
  }

  /** `discount.minimum_order_amount || 0`. */
  function MinimumOrder(d: DiscountCode): int
  {
    if d.minimumOrderAmount.Some? then d.minimumOrderAmount.value else 0
  }

  /** A cap applies when `maximum_discount_amount` is set and non-zero. */
  predicate Capped(d: DiscountCode)
  {
    d.maximumDiscountAmount.Some? && d.maximumDiscountAmount.value != 0
  }

  /** discount_amount: zero without a usable code or below the minimum
      order; otherwise a percentage of the subtotal rounded half up and
      capped, or the fixed value of any other kind of code. */
  function DiscountAmount(discount: Option<DiscountCode>, subtotal: int): (r: int)
    ensures discount.None? ==> r == 0
    ensures discount.Some? && subtotal < MinimumOrder(discount.value) ==> r == 0
    ensures discount.Some? && subtotal >= MinimumOrder(discount.value) && discount.value.kind == "percentage" ==>
      var n := subtotal * discount.value.value;
      if Capped(discount.value)
      then r <= discount.value.maximumDiscountAmount.value
        && 100 * r - 50 <= n
        && (r == discount.value.maximumDiscountAmount.value || n < 100 * r + 50)
      else 100 * r - 50 <= n < 100 * r + 50
    ensures discount.Some? && subtotal >= MinimumOrder(discount.value) && discount.value.kind != "percentage" ==>
      r == discount.value.value
  {
    if discount.None? || subtotal < MinimumOrder(discount.value) then 0
    else
      var d := discount.value;
      if d.kind == "percentage" then
        var amount := RoundHundredth(subtotal * d.value);
        if Capped(d) then Min(amount, d.maximumDiscountAmount.value) else amount
      else d.value
  }

  /** A percentage between 0 and 100 of a non-negative subtotal never
      exceeds the subtotal, so such a discount leaves the total non-negative. */
  lemma PercentageWithinSubtotal(d: DiscountCode, subtotal: int)
    requires d.kind == "percentage" && 0 <= d.value <= 100 && subtotal >= 0
    ensures 0 <= DiscountAmount(Some(d), subtotal) || Capped(d)
    ensures DiscountAmount(Some(d), subtotal) <= subtotal
  {
    var n := subtotal * d.value;
    assert 0 <= n <= subtotal * 100 by {
      assert subtotal * d.value <= subtotal * 100;
    }
    var r := RoundHundredth(n);
    assert 0 <= r <= subtotal;
  }

  /** A capped percentage discount is the smaller of the rounded share
      and the cap: any value meeting DiscountAmount's contract is that one. */
  lemma CappedIsMinimum(d: DiscountCode, subtotal: int, r: int)
    requires d.kind == "percentage" && Capped(d) && subtotal >= MinimumOrder(d)
    requires var n := subtotal * d.value;
      r <= d.maximumDiscountAmount.value && 100 * r - 50 <= n
      && (r == d.maximumDiscountAmount.value || n < 100 * r + 50)
    ensures r == Min(RoundHundredth(subtotal * d.value), d.maximumDiscountAmount.value)
    ensures r == DiscountAmount(Some(d), subtotal)
  {
    var n := subtotal * d.value;
    var m := d.maximumDiscountAmount.value;
    var k := RoundHundredth(n);
    assert 100 * k - 50 <= n < 100 * k + 50;
    if r == m {
      assert 100 * m - 50 <= n;
      assert k >= m;
    } else {
      assert k == r;
    }
  }

  /** 10% of 10000 with no cap is 1000, leaving 9000. */
  lemma TenPercentExample()
    ensures var d := DiscountCode("SAVE10", true, None, None, "percentage", 10, None, None);
      DiscountAmount(Some(d), 10000) == 1000 && OrderTotal(10000, DiscountAmount(Some(d), 10000)) == 9000
  {
  }

  /** The total is not clamped: a fixed discount above the subtotal makes it negative. */
  lemma FixedDiscountCanExceedSubtotal()
    ensures var d := DiscountCode("BIG", true, None, None, "fixed", 500, None, None);
      OrderTotal(300, DiscountAmount(Some(d), 300)) == -200
  {
  }

  const SHIPPING_AMOUNT := 0
  const TAX_AMOUNT := 0

  /** `subtotal + shippingAmount + taxAmount - discountAmount`. */
  function OrderTotal(subtotal: int, discount: int): int
  {
    subtotal + SHIPPING_AMOUNT + TAX_AMOUNT - discount
  }

  // ---------------------------------------------------------------
  // Step 3: the customer
  // ---------------------------------------------------------------

  /** `SELECT id FROM customers WHERE email = ?` with `.first()`. */
  function FirstCustomerWithEmail(customers: seq<Customer>, email: string): (r: Option<int>)
    ensures r.Some? ==> exists i :: 0 <= i < |customers| && customers[i].email == email && customers[i].id == r.value
    ensures r.None? ==> forall i :: 0 <= i < |customers| ==> customers[i].email != email
  {
    if customers == [] then None
    else if customers[0].email == email then Some(customers[0].id)
    else FirstCustomerWithEmail(customers[1..], email)
  }

  /** `customer_id` counts as supplied when it is present and not 0. */
  predicate CustomerSupplied(data: CreateOrderData)
  {
    data.customerId.Some? && data.customerId.value != 0
  }

  /** The customer an order is filed under, and the customer table after:
      the supplied id; else the first customer with the email; else a new
      customer, under the next id, whose notes hold the phone number. */
  function ResolvedCustomer(customers: seq<Customer>, nextId: int, data: CreateOrderData): (r: (int, seq<Customer>))
    ensures CustomerSupplied(data) ==> r == (data.customerId.value, customers)
    ensures !CustomerSupplied(data) ==> match FirstCustomerWithEmail(customers, data.customerEmail)
      case Some(id) => r == (id, customers) && exists i :: 0 <= i < |customers| && customers[i].email == data.customerEmail && customers[i].id == id
      case None =>
        && r.0 == nextId
        && r.1 == customers + [Customer(nextId, data.customerName, data.customerEmail, Text("Phone: " + data.customerPhone))]
        && (forall i :: 0 <= i < |customers| ==> customers[i].email != data.customerEmail)
  {
    if CustomerSupplied(data) then (data.customerId.value, customers)
    else match FirstCustomerWithEmail(customers, data.customerEmail)
      case Some(id) => (id, customers)
      case None => (nextId, customers + [Customer(nextId, data.customerName, data.customerEmail, Text("Phone: " + data.customerPhone))])
  }

  // ---------------------------------------------------------------
  // Step 5: order items and stock
  // ---------------------------------------------------------------

  /** The stock UPDATE of one line: the quantity leaves stock, and the status
      becomes out_of_stock when the new stock is 0 or less (the CASE reads the
      row before the update). Other columns are untouched. */
  function Decrement(row: Row, quantity: int): (r: Row)
    ensures IntCol(r, "stock_quantity") == IntCol(row, "stock_quantity") - quantity
    ensures Col(r, "status") == if IntCol(row, "stock_quantity") - quantity <= 0 then Text(OUT_OF_STOCK) else Col(row, "status")
    ensures forall c :: c != "stock_quantity" && c != "status" ==> Col(r, c) == Col(row, c)
  {
    var left := IntCol(row, "stock_quantity") - quantity;
    row["stock_quantity" := Int(left)]["status" := if left <= 0 then Text(OUT_OF_STOCK) else Col(row, "status")]
  }

  /** The stock UPDATE of one line on the table; an UPDATE of an id that
      is not in the table changes nothing. */
  function StockStep(products: map<int, Row>, line: LineInput): (r: map<int, Row>)
    ensures r.Keys == products.Keys
  {
    if line.productId in products then products[line.productId := Decrement(products[line.productId], line.quantity)]
    else products
  }

  /** The stock updates of a sequence of lines, applied in order. */
  function ApplyStock(products: map<int, Row>, lines: seq<LineInput>): (r: map<int, Row>)
    ensures r.Keys == products.Keys
  {
    if lines == [] then products
    else StockStep(ApplyStock(products, lines[..|lines| - 1]), lines[|lines| - 1])
  }

  /** Σ quantity over the lines for one product. */
  function QuantityFor(lines: seq<LineInput>, id: int): int
  {
    if lines == [] then 0
    else QuantityFor(lines[..|lines| - 1], id) + (if lines[|lines| - 1].productId == id then lines[|lines| - 1].quantity else 0)
  }

  predicate Mentioned(lines: seq<LineInput>, id: int)
  {
    exists i :: 0 <= i < |lines| && lines[i].productId == id
  }

  /** Every product's stock drops by exactly the total quantity ordered of it. */
  lemma {:induction false} ApplyStockStock(products: map<int, Row>, lines: seq<LineInput>, id: int)
    ensures id in products ==>
      IntCol(ApplyStock(products, lines)[id], "stock_quantity") == IntCol(products[id], "stock_quantity") - QuantityFor(lines, id)
  {
    if lines != [] {
      ApplyStockStock(products, lines[..|lines| - 1], id);
    }
  }

  /** A product no line mentions is left exactly as it was. */
  lemma {:induction false} ApplyStockUntouched(products: map<int, Row>, lines: seq<LineInput>, id: int)
    requires id in products && !Mentioned(lines, id)
    ensures id in ApplyStock(products, lines) && ApplyStock(products, lines)[id] == products[id]
  {
    if lines != [] {
      var init := lines[..|lines| - 1];
      assert !Mentioned(init, id) by {
        forall i | 0 <= i < |init| ensures init[i].productId != id { assert init[i] == lines[i]; }
      }
      ApplyStockUntouched(products, init, id);
      ApplyStockStock(products, init, id);
    }
  }

  /** A product on exactly one line: its stock drops by that line's quantity,
      and its status becomes out_of_stock exactly when the new stock is 0 or
      less, and otherwise stays what it was. */
  lemma {:induction false} ApplyStockSingle(products: map<int, Row>, lines: seq<LineInput>, k: int)
    requires 0 <= k < |lines| && lines[k].productId in products
    requires forall j :: 0 <= j < |lines| && j != k ==> lines[j].productId != lines[k].productId
    ensures var id := lines[k].productId;
      var left := IntCol(products[id], "stock_quantity") - lines[k].quantity;
      && IntCol(ApplyStock(products, lines)[id], "stock_quantity") == left
      && Col(ApplyStock(products, lines)[id], "status") == if left <= 0 then Text(OUT_OF_STOCK) else Col(products[id], "status")
  {
    var id := lines[k].productId;
    var n := |lines|;
    var init := lines[..n - 1];
    ApplyStockStock(products, init, id);
    if k == n - 1 {
      assert !Mentioned(init, id) by {
        forall i | 0 <= i < |init| ensures init[i].productId != id { assert init[i] == lines[i]; }
      }
      ApplyStockUntouched(products, init, id);
    } else {
      forall j | 0 <= j < |init| && j != k ensures init[j].productId != init[k].productId {
        assert init[j] == lines[j];
      }
      ApplyStockSingle(products, init, k);
      assert lines[n - 1].productId != id;
    }
  }

  function ItemRow(orderId: int, v: Validated): OrderItem
  {
    OrderItem(orderId, v.line.productId, v.productName, v.productSku, v.line.quantity, v.line.unitPrice, v.totalPrice)
  }

  /** The order_items rows of an order, one per line, in line order. */
  function ItemRows(orderId: int, validated: seq<Validated>): (r: seq<OrderItem>)
    ensures |r| == |validated|
    ensures forall i :: 0 <= i < |r| ==>
      && r[i].orderId == orderId
      && r[i].productId == validated[i].line.productId
      && r[i].quantity == validated[i].line.quantity
      && r[i].unitPrice == validated[i].line.unitPrice
      && r[i].totalPrice == validated[i].totalPrice
      && r[i].productName == validated[i].productName
      && r[i].productSku == validated[i].productSku
  {
    if validated == [] then []
    else ItemRows(orderId, validated[..|validated| - 1]) + [ItemRow(orderId, validated[|validated| - 1])]
  }

  /** Step 3 of createOrder. */
  method ResolveCustomer(db: Db, data: CreateOrderData) returns (customerId: int)
    requires db.Valid()
    modifies db`customers, db`nextCustomerId
    ensures db.Valid()
    ensures (customerId, db.customers) == ResolvedCustomer(old(db.customers), old(db.nextCustomerId), data)
  {
    if CustomerSupplied(data) {
      customerId := data.customerId.value;
    } else {
      var existing := FirstCustomerWithEmail(db.customers, data.customerEmail);
      if existing.Some? {
        customerId := existing.value;
      } else {
        customerId := db.nextCustomerId;
        db.customers := db.customers + [Customer(customerId, data.customerName, data.customerEmail, Text("Phone: " + data.customerPhone))];
        db.nextCustomerId := db.nextCustomerId + 1;
      }
    }
  }

  /** Step 5 of createOrder: one item row per validated line, in order, and
      each line's stock update. */
  method InsertItems(db: Db, orderId: int, lines: seq<LineInput>, validated: seq<Validated>)
    requires db.Valid()
    requires |validated| == |lines|
    requires forall i :: 0 <= i < |lines| ==> validated[i].line == lines[i]
    modifies db`orderItems, db`products
    ensures db.Valid()
    ensures db.orderItems == old(db.orderItems) + ItemRows(orderId, validated)
    ensures db.products == ApplyStock(old(db.products), lines)
  {
    for i := 0 to |validated|
      invariant db.products == ApplyStock(old(db.products), lines[..i])
      invariant db.orderItems == old(db.orderItems) + ItemRows(orderId, validated[..i])
    {
      var item := validated[i];
      assert validated[..i + 1][..i] == validated[..i];
      db.orderItems := db.orderItems + [ItemRow(orderId, item)];
      db.products := StockStep(db.products, item.line);
      assert lines[..i + 1][..i] == lines[..i];
    }
    assert lines[..|lines|] == lines;
    assert validated[..|validated|] == validated;
  }

  /** Step 4 of createOrder: the order row, under the next order id. */
  method InsertOrder(db: Db, order: Order)
    requires db.Valid() && order.id == db.nextOrderId
    modifies db`orders, db`nextOrderId
    ensures db.Valid()
    ensures db.orders == old(db.orders)[order.id := order]
  {
    db.orders := db.orders[order.id := order];
    db.nextOrderId := db.nextOrderId + 1;
  }

  /** The order row createOrder inserts. */
  function NewOrder(id: int, orderNumber: string, customerId: int, data: CreateOrderData,
                    subtotal: int, discount: int, now: int): (o: Order)
    ensures o.totalAmount == o.subtotal + o.shippingAmount + o.taxAmount - o.discountAmount
    ensures o.shippingAmount == 0 && o.taxAmount == 0
    ensures o.status == "pending" && o.paymentStatus == "pending"
  {
    Order(id, orderNumber, customerId, data.customerName, data.customerEmail, data.customerPhone,
      subtotal, TAX_AMOUNT, SHIPPING_AMOUNT, discount, OrderTotal(subtotal, discount),
      data.shippingMethod, data.shippingAddress, data.pickupLocation, data.deliveryInstructions,
      data.paymentMethod, "pending", None, "pending", None, None, None, now, None, data.customerNotes)
  }

  /** Steps 2 to 5 of createOrder, once every line has passed. */
  method PlaceOrder(db: Db, data: CreateOrderData, subtotal: int, validated: seq<Validated>,
                    orderNumber: string, now: int) returns (o: Order)
    requires db.Valid()
    requires |validated| == |data.items|
    requires forall i :: 0 <= i < |data.items| ==> validated[i].line == data.items[i]
    modifies db`customers, db`nextCustomerId, db`orders, db`nextOrderId, db`orderItems, db`products
    ensures db.Valid()
    ensures (o.customerId, db.customers) == ResolvedCustomer(old(db.customers), old(db.nextCustomerId), data)
    ensures o == NewOrder(old(db.nextOrderId), orderNumber, o.customerId, data, subtotal,
                          DiscountAmount(LookupDiscount(old(db.discountCodes), data.discountCode, now), subtotal), now)
    ensures db.orders == old(db.orders)[o.id := o]
    ensures db.orderItems == old(db.orderItems) + ItemRows(o.id, validated)
    ensures db.products == ApplyStock(old(db.products), data.items)
  {
    var discountAmount := DiscountAmount(LookupDiscount(db.discountCodes, data.discountCode, now), subtotal);
    var customerId := ResolveCustomer(db, data);
    o := NewOrder(db.nextOrderId, orderNumber, customerId, data, subtotal, discountAmount, now);
    InsertOrder(db, o);
    InsertItems(db, o.id, data.items, validated);
  }

  /** createOrder. On a refused line nothing is written and the first
      refusal is thrown. Otherwise the order row (subtotal Σ quantity ×
      unit_price, total subtotal + shipping + tax − discount) is inserted
      under the next order id for the resolved customer, one item row per
      line snapshots the product as it was, and the stock updates are
      applied. No other table is in the frame. The order number is
      assigned by the database and arrives as a parameter; status and
      payment status take the schema's default, 'pending'. */
  method CreateOrder(db: Db, data: CreateOrderData, orderNumber: string, now: int) returns (r: Result<Order, OrderError>)
    requires db.Valid()
    modifies db`customers, db`nextCustomerId, db`orders, db`nextOrderId, db`orderItems, db`products
    ensures db.Valid()
    ensures r.Err? <==> exists k :: 0 <= k < |data.items| && LineError(old(db.products), data.items[k]).Some?
    ensures r.Err? ==> (exists k :: 0 <= k < |data.items| && LineError(old(db.products), data.items[k]) == Some(r.error)
                                     && (forall j :: 0 <= j < k ==> LineError(old(db.products), data.items[j]).None?))
    ensures r.Err? ==> unchanged(db)
    ensures r.Ok? ==>
      var o := r.value;
      var subtotal := Subtotal(data.items);
      && (o.customerId, db.customers) == ResolvedCustomer(old(db.customers), old(db.nextCustomerId), data)
      && o == NewOrder(old(db.nextOrderId), orderNumber, o.customerId, data, subtotal,
                       DiscountAmount(LookupDiscount(old(db.discountCodes), data.discountCode, now), subtotal), now)
      && db.orders == old(db.orders)[o.id := o]
      && AllKnown(old(db.products), data.items)
      && db.orderItems == old(db.orderItems) + ItemRows(o.id, Snapshots(old(db.products), data.items))
      && db.products == ApplyStock(old(db.products), data.items)
  {
    var validation := ValidateItems(db.products, data.items);
    if validation.Rejected? {
      return Err(validation.error);
    }
    var order := PlaceOrder(db, data, validation.subtotal, validation.lines, orderNumber, now);
    return Ok(order);
  }

  // ---------------------------------------------------------------
  // updateOrderStatus and updatePaymentStatus
  // ---------------------------------------------------------------

  /** One `column = ?` or `column = CURRENT_TIMESTAMP` item of a SET list. */
  datatype Assign = SetParam(column: string) | SetNow(column: string)

  /** An `UPDATE orders SET <fields> WHERE id = ?` statement with its bound values. */
  datatype Update = Update(fields: seq<Assign>, values: seq<Value>)

  function Placeholders(fields: seq<Assign>): nat
  {
    if fields == [] then 0 else Placeholders(fields[..|fields| - 1]) + (if fields[|fields| - 1].SetParam? then 1 else 0)
  }

  lemma PlaceholdersSnoc(fields: seq<Assign>, a: Assign)
    ensures Placeholders(fields + [a]) == Placeholders(fields) + (if a.SetParam? then 1 else 0)
  {
    assert (fields + [a])[..|fields|] == fields;
  }

  /** The timestamp column a status sets, if any. */
  function StatusTimestamp(status: string): Option<string>
  {
    if status == "confirmed" then Some("confirmed_at")
    else if status == "ready_for_pickup" then Some("ready_at")
    else if status == "delivered" then Some("delivered_at")
    else None
  }

  /** The statement updateOrderStatus builds: status and updated_at, the
      status's timestamp column, admin_notes when notes are given, and the id
      bound last for the WHERE clause. What it sets is StatusUpdateEffect. */
  function StatusUpdate(id: int, status: string, adminNotes: Option<string>): (u: Update)
    ensures Placeholders(u.fields) + 1 == |u.values| && u.values[|u.values| - 1] == Int(id)
  {
    var stamped := StatusStamps(status);
    StatusStampsPlaceholders(status);
    if Given(adminNotes) then
      var fields := stamped + [SetParam("admin_notes")];
      PlaceholdersSnoc(stamped, SetParam("admin_notes"));
      Update(fields, [Text(status), Text(adminNotes.value), Int(id)])
    else
      Update(stamped, [Text(status), Int(id)])
  }

  /** The statement updatePaymentStatus builds: payment_status and
      updated_at, payment_reference when a reference is given, and the id
      last. What it sets is PaymentUpdateEffect. */
  function PaymentUpdate(id: int, paymentStatus: string, paymentReference: Option<string>): (u: Update)
    ensures Placeholders(u.fields) + 1 == |u.values| && u.values[|u.values| - 1] == Int(id)
  {
    var base := [SetParam("payment_status"), SetNow("updated_at")];
    assert Placeholders(base) == 1 by {
      PlaceholdersSnoc([], SetParam("payment_status"));
      PlaceholdersSnoc([SetParam("payment_status")], SetNow("updated_at"));
    }
    if Given(paymentReference) then
      var fields := base + [SetParam("payment_reference")];
      PlaceholdersSnoc(base, SetParam("payment_reference"));
      Update(fields, [Text(paymentStatus), Text(paymentReference.value), Int(id)])
    else
      Update(base, [Text(paymentStatus), Int(id)])
  }

  /** The effect of `column = value` on an order row. Only text values are
      ever bound to these columns. */
  function SetColumn(o: Order, column: string, v: Value, now: int): Order
  {
    var text := if v.Text? then v.s else "";
    if column == "status" then o.(status := text)
    else if column == "payment_status" then o.(paymentStatus := text)
    else if column == "admin_notes" then o.(adminNotes := Some(text))
    else if column == "payment_reference" then o.(paymentReference := Some(text))
    else o
  }

  /** The effect of `column = CURRENT_TIMESTAMP`. */
  function Stamp(o: Order, column: string, now: int): Order
  {
    if column == "updated_at" then o.(updatedAt := now)
    else if column == "confirmed_at" then o.(confirmedAt := Some(now))
    else if column == "ready_at" then o.(readyAt := Some(now))
    else if column == "delivered_at" then o.(deliveredAt := Some(now))
    else o
  }

  /** The SET list applied left to right, the i-th `?` taking the i-th value. */
  function ApplySet(o: Order, fields: seq<Assign>, values: seq<Value>, now: int): Order
    requires Placeholders(fields) <= |values|
  {
    if fields == [] then o
    else
      var init := fields[..|fields| - 1];
      var before := ApplySet(o, init, values, now);
      match fields[|fields| - 1]
      case SetParam(c) => SetColumn(before, c, values[Placeholders(init)], now)
      case SetNow(c) => Stamp(before, c, now)
  }

  lemma ApplySetSnoc(o: Order, fields: seq<Assign>, a: Assign, values: seq<Value>, now: int)
    requires Placeholders(fields + [a]) <= |values|
    ensures Placeholders(fields) <= |values|
    ensures ApplySet(o, fields + [a], values, now)
         == if a.SetParam? then SetColumn(ApplySet(o, fields, values, now), a.column, values[Placeholders(fields)], now)
            else Stamp(ApplySet(o, fields, values, now), a.column, now)
  {
    PlaceholdersSnoc(fields, a);
    assert (fields + [a])[..|fields|] == fields;
  }

  /** What a status update promises, stated directly on the row. */
  function StatusUpdated(o: Order, status: string, adminNotes: Option<string>, now: int): Order
  {
    var o1 := o.(status := status, updatedAt := now);
    var o2 := match StatusTimestamp(status)
      case Some(c) => Stamp(o1, c, now)
      case None => o1;
    if Given(adminNotes) then o2.(adminNotes := adminNotes) else o2
  }

  /** What a payment-status update promises, stated directly on the row. */
  function PaymentUpdated(o: Order, paymentStatus: string, paymentReference: Option<string>, now: int): Order
  {
    var o1 := o.(paymentStatus := paymentStatus, updatedAt := now);
    if Given(paymentReference) then o1.(paymentReference := paymentReference) else o1
  }

  /** status = ?, updated_at = CURRENT_TIMESTAMP, and the status's timestamp column. */
  function StatusStamps(status: string): seq<Assign>
  {
    [SetParam("status"), SetNow("updated_at")]
      + (if StatusTimestamp(status).Some? then [SetNow(StatusTimestamp(status).value)] else [])
  }

  /** Those assignments take exactly one value, the status. */
  lemma StatusStampsPlaceholders(status: string)
    ensures Placeholders(StatusStamps(status)) == 1
  {
    var f1 := [SetParam("status")];
    var f2 := f1 + [SetNow("updated_at")];
    assert [] + [SetParam("status")] == f1;
    PlaceholdersSnoc([], SetParam("status"));
    PlaceholdersSnoc(f1, SetNow("updated_at"));
    if StatusTimestamp(status).Some? {
      assert StatusStamps(status) == f2 + [SetNow(StatusTimestamp(status).value)];
      PlaceholdersSnoc(f2, SetNow(StatusTimestamp(status).value));
    } else {
      assert StatusStamps(status) == f2;
    }
  }

  /** Those assignments set the status and stamp updated_at and the status's column. */
  lemma StatusStampsEffect(o: Order, status: string, v: seq<Value>, now: int)
    requires |v| >= 1 && v[0] == Text(status)
    ensures Placeholders(StatusStamps(status)) <= |v|
    ensures ApplySet(o, StatusStamps(status), v, now) == StatusUpdated(o, status, None, now)
  {
    var f1 := [SetParam("status")];
    var f2 := f1 + [SetNow("updated_at")];
    assert [] + [SetParam("status")] == f1;
    ApplySetSnoc(o, [], SetParam("status"), v, now);
    ApplySetSnoc(o, f1, SetNow("updated_at"), v, now);
    PlaceholdersSnoc([], SetParam("status"));
    PlaceholdersSnoc(f1, SetNow("updated_at"));
    StatusStampsPlaceholders(status);
    if StatusTimestamp(status).Some? {
      assert StatusStamps(status) == f2 + [SetNow(StatusTimestamp(status).value)];
      ApplySetSnoc(o, f2, SetNow(StatusTimestamp(status).value), v, now);
    } else {
      assert StatusStamps(status) == f2;
    }
  }

  /** The built status statement sets exactly what StatusUpdated says. */
  lemma StatusUpdateEffect(o: Order, id: int, status: string, adminNotes: Option<string>, now: int)
    ensures var u := StatusUpdate(id, status, adminNotes);
      ApplySet(o, u.fields, u.values, now) == StatusUpdated(o, status, adminNotes, now)
  {
    var u := StatusUpdate(id, status, adminNotes);
    var stamped := StatusStamps(status);
    StatusStampsEffect(o, status, u.values, now);
    if Given(adminNotes) {
      assert u.fields == stamped + [SetParam("admin_notes")];
      ApplySetSnoc(o, stamped, SetParam("admin_notes"), u.values, now);
    } else {
      assert u.fields == stamped;
    }
  }

  /** The built payment statement sets exactly what PaymentUpdated says. */
  lemma PaymentUpdateEffect(o: Order, id: int, paymentStatus: string, paymentReference: Option<string>, now: int)
    ensures var u := PaymentUpdate(id, paymentStatus, paymentReference);
      ApplySet(o, u.fields, u.values, now) == PaymentUpdated(o, paymentStatus, paymentReference, now)
  {
    var u := PaymentUpdate(id, paymentStatus, paymentReference);
    var v := u.values;
    var f1 := [SetParam("payment_status")];
    var f2 := f1 + [SetNow("updated_at")];
    ApplySetSnoc(o, [], SetParam("payment_status"), v, now);
    ApplySetSnoc(o, f1, SetNow("updated_at"), v, now);
    assert [] + [SetParam("payment_status")] == f1;
    assert ApplySet(o, f2, v, now) == o.(paymentStatus := paymentStatus, updatedAt := now);
    if Given(paymentReference) {
      assert u.fields == f2 + [SetParam("payment_reference")];
      ApplySetSnoc(o, f2, SetParam("payment_reference"), v, now);
      PlaceholdersSnoc([], SetParam("payment_status"));
      PlaceholdersSnoc(f1, SetNow("updated_at"));
      assert v[Placeholders(f2)] == Text(paymentReference.value);
    } else {
      assert u.fields == f2;
    }
  }

  /** Runs `UPDATE orders SET ... WHERE id = ?`: the last value is the id,
      and a missing id updates nothing. */
  method RunUpdate(db: Db, u: Update, now: int)
    requires db.Valid()
    requires Placeholders(u.fields) + 1 == |u.values| && u.values[|u.values| - 1].Int?
    modifies db`orders
    ensures db.Valid()
    ensures var id := u.values[|u.values| - 1].i;
      db.orders == if id in old(db.orders) then old(db.orders)[id := ApplySet(old(db.orders)[id], u.fields, u.values, now)] else old(db.orders)
  {
    var id := u.values[|u.values| - 1].i;
    if id in db.orders {
      db.orders := db.orders[id := ApplySet(db.orders[id], u.fields, u.values, now)];
    }
  }

  /** updateOrderStatus: the row, when present, becomes StatusUpdated of
      itself; the row is then read back, or null when there is none. */
  method UpdateOrderStatus(db: Db, id: int, status: string, adminNotes: Option<string>, now: int) returns (r: Option<Order>)
    requires db.Valid()
    modifies db`orders
    ensures db.Valid()
    ensures db.orders == if id in old(db.orders) then old(db.orders)[id := StatusUpdated(old(db.orders)[id], status, adminNotes, now)] else old(db.orders)
    ensures r == if id in db.orders then Some(db.orders[id]) else None
  {
    var u := StatusUpdate(id, status, adminNotes);
    if id in db.orders {
      StatusUpdateEffect(db.orders[id], id, status, adminNotes, now);
    }
    RunUpdate(db, u, now);
    r := if id in db.orders then Some(db.orders[id]) else None;
  }

  /** updatePaymentStatus, in the same way. */
  method UpdatePaymentStatus(db: Db, id: int, paymentStatus: string, paymentReference: Option<string>, now: int) returns (r: Option<Order>)
    requires db.Valid()
    modifies db`orders
    ensures db.Valid()
    ensures db.orders == if id in old(db.orders) then old(db.orders)[id := PaymentUpdated(old(db.orders)[id], paymentStatus, paymentReference, now)] else old(db.orders)
    ensures r == if id in db.orders then Some(db.orders[id]) else None
  {
    var u := PaymentUpdate(id, paymentStatus, paymentReference);
    if id in db.orders {
      PaymentUpdateEffect(db.orders[id], id, paymentStatus, paymentReference, now);
    }
    RunUpdate(db, u, now);
    r := if id in db.orders then Some(db.orders[id]) else None;
  }

  /** A status change never touches the money or the customer snapshot. */
  lemma StatusUpdateKeepsTotals(o: Order, status: string, adminNotes: Option<string>, now: int)
    ensures var o' := StatusUpdated(o, status, adminNotes, now);
      && o'.totalAmount == o.totalAmount && o'.subtotal == o.subtotal && o'.discountAmount == o.discountAmount
      && o'.customerId == o.customerId && o'.paymentStatus == o.paymentStatus && o'.status == status
  {
  }

  // ---------------------------------------------------------------
  // getAllOrders: the listing query and the count query
  // ---------------------------------------------------------------

  /** The listing's parameters; a string filter applies when it is truthy
      (present and non-empty), limit and offset when present and non-zero. */
  datatype ListParams = ListParams(
    status: Option<string>,
    paymentStatus: Option<string>,
    shippingMethod: Option<string>,
    search: Option<string>,
    dateFrom: Option<string>,
    dateTo: Option<string>,
    limit: Option<int>,
    offset: Option<int>)

  /** The WHERE conditions, in the order the query text appends them. */
  datatype Filter = StatusIs | PaymentStatusIs | ShippingMethodIs | SearchLike | DateFrom | DateTo

  function Rank(f: Filter): nat
  {
    match f
    case StatusIs => 0
    case PaymentStatusIs => 1
    case ShippingMethodIs => 2
    case SearchLike => 3
    case DateFrom => 4
    case DateTo => 5
  }

  /** How many `?` a condition holds: the search matches three columns. */
  function Arity(f: Filter): nat
  {
    if f == SearchLike then 3 else 1
  }

  function ArityOf(filters: seq<Filter>): nat
  {
    if filters == [] then 0 else ArityOf(filters[..|filters| - 1]) + Arity(filters[|filters| - 1])
  }

  predicate Applies(f: Filter, p: ListParams)
  {
    match f
    case StatusIs => Given(p.status)
    case PaymentStatusIs => Given(p.paymentStatus)
    case ShippingMethodIs => Given(p.shippingMethod)
    case SearchLike => Given(p.search)
    case DateFrom => Given(p.dateFrom)
    case DateTo => Given(p.dateTo)
  }

  /** The values one condition binds. */
  function Args(f: Filter, p: ListParams): seq<Value>
  {
    match f
    case StatusIs => [Text(ValueOr(p.status))]
    case PaymentStatusIs => [Text(ValueOr(p.paymentStatus))]
    case ShippingMethodIs => [Text(ValueOr(p.shippingMethod))]
    case SearchLike => var t := Text(Pattern(ValueOr(p.search))); [t, t, t]
    case DateFrom => [Text(ValueOr(p.dateFrom))]
    case DateTo => [Text(ValueOr(p.dateTo))]
  }

  predicate AllApply(filters: seq<Filter>, p: ListParams)
  {
    forall i :: 0 <= i < |filters| ==> Applies(filters[i], p)
  }

  /** The values a list of conditions binds, condition by condition. */
  function ArgsOf(filters: seq<Filter>, p: ListParams): (r: seq<Value>)
    requires AllApply(filters, p)
    ensures |r| == ArityOf(filters)
  {
    if filters == [] then []
    else ArgsOf(filters[..|filters| - 1], p) + Args(filters[|filters| - 1], p)
  }

  predicate Ascending(filters: seq<Filter>)
  {
    forall i, j :: 0 <= i < j < |filters| ==> Rank(filters[i]) < Rank(filters[j])
  }

  /** The conditions of `filters` that apply, in their order. */
  function Keep(filters: seq<Filter>, p: ListParams): (r: seq<Filter>)
    ensures AllApply(r, p)
  {
    if filters == [] then []
    else
      var last := filters[|filters| - 1];
      Keep(filters[..|filters| - 1], p) + When(Applies(last, p), last)
  }

  /** Keeping conditions keeps exactly the ones that apply. */
  lemma {:induction false} KeepMembers(filters: seq<Filter>, p: ListParams)
    ensures forall f :: f in Keep(filters, p) <==> f in filters && Applies(f, p)
  {
    if filters != [] {
      var init := filters[..|filters| - 1];
      KeepMembers(init, p);
      assert filters == init + [filters[|filters| - 1]];
    }
  }

  /** Keeping conditions preserves their order. */
  lemma {:induction false} KeepAscending(filters: seq<Filter>, p: ListParams)
    requires Ascending(filters)
    ensures Ascending(Keep(filters, p))
  {
    if filters != [] {
      var init := filters[..|filters| - 1];
      var last := filters[|filters| - 1];
      KeepAscending(init, p);
      KeepMembers(init, p);
      var k := Keep(init, p);
      forall f | f in k ensures Rank(f) < Rank(last) {
        var i :| 0 <= i < |init| && init[i] == f;
      }
    }
  }

  /** The conditions the query text can get, in the order it appends them. */
  const ALL_FILTERS := [StatusIs, PaymentStatusIs, ShippingMethodIs, SearchLike, DateFrom, DateTo]

  lemma AllFiltersListed()
    ensures forall f: Filter :: f in ALL_FILTERS
    ensures Ascending(ALL_FILTERS)
  {
    forall f: Filter ensures f in ALL_FILTERS {
      assert ALL_FILTERS[Rank(f)] == f;
    }
  }

  /** The conditions the listing query text gets: exactly the ones whose
      parameter is truthy, in the fixed order. */
  function ListFilters(p: ListParams): (r: seq<Filter>)
    ensures forall f :: f in r <==> Applies(f, p)
    ensures Ascending(r)
  {
    AllFiltersListed();
    KeepMembers(ALL_FILTERS, p);
    KeepAscending(ALL_FILTERS, p);
    Keep(ALL_FILTERS, p)
  }

  /** The values pushed next to the conditions, before any paging value:
      each truthy parameter's value, the search pattern three times. */
  function FilterParams(p: ListParams): (r: seq<Value>)
    ensures r == ArgsOf(ListFilters(p), p)
  {
    ArgsOfSteps(p);
    StatusParam(p) + PaymentStatusParam(p) + ShippingMethodParam(p) + SearchParams(p) + DateFromParam(p) + DateToParam(p)
  }

  /** Appending one more candidate condition appends its values when it applies. */
  lemma ArgsOfKeepSnoc(filters: seq<Filter>, f: Filter, p: ListParams)
    ensures ArgsOf(Keep(filters + [f], p), p) == ArgsOf(Keep(filters, p), p) + Opt(Applies(f, p), Args(f, p))
  {
    assert (filters + [f])[..|filters|] == filters;
    var k := Keep(filters, p);
    if Applies(f, p) {
      assert (k + [f])[..|k|] == k;
    } else {
      assert k + [] == k;
    }
  }

  function StatusParam(p: ListParams): seq<Value> { Opt(Given(p.status), [Text(ValueOr(p.status))]) }
  function PaymentStatusParam(p: ListParams): seq<Value> { Opt(Given(p.paymentStatus), [Text(ValueOr(p.paymentStatus))]) }
  function ShippingMethodParam(p: ListParams): seq<Value> { Opt(Given(p.shippingMethod), [Text(ValueOr(p.shippingMethod))]) }
  function SearchParams(p: ListParams): seq<Value>
  {
    var t := Text(Pattern(ValueOr(p.search)));
    Opt(Given(p.search), [t, t, t])
  }
  function DateFromParam(p: ListParams): seq<Value> { Opt(Given(p.dateFrom), [Text(ValueOr(p.dateFrom))]) }
  function DateToParam(p: ListParams): seq<Value> { Opt(Given(p.dateTo), [Text(ValueOr(p.dateTo))]) }

  lemma ArgsOfFirstThree(p: ListParams)
    ensures ArgsOf(Keep([StatusIs] + [PaymentStatusIs] + [ShippingMethodIs], p), p)
         == StatusParam(p) + PaymentStatusParam(p) + ShippingMethodParam(p)
  {
    var a1 := [StatusIs];
    var a2 := a1 + [PaymentStatusIs];
    ArgsOfKeepSnoc([], StatusIs, p);
    assert [] + [StatusIs] == a1;
    assert ArgsOf(Keep(a1, p), p) == StatusParam(p) by {
      assert ArgsOf(Keep([], p), p) == [];
      assert [] + StatusParam(p) == StatusParam(p);
    }
    ArgsOfKeepSnoc(a1, PaymentStatusIs, p);
    ArgsOfKeepSnoc(a2, ShippingMethodIs, p);
  }

  lemma ArgsOfSteps(p: ListParams)
    ensures ArgsOf(Keep(ALL_FILTERS, p), p)
         == StatusParam(p) + PaymentStatusParam(p) + ShippingMethodParam(p)
          + SearchParams(p) + DateFromParam(p) + DateToParam(p)
  {
    var a3 := [StatusIs] + [PaymentStatusIs] + [ShippingMethodIs];
    var a4 := a3 + [SearchLike];
    var a5 := a4 + [DateFrom];
    ArgsOfFirstThree(p);
    ArgsOfKeepSnoc(a3, SearchLike, p);
    ArgsOfKeepSnoc(a4, DateFrom, p);
    ArgsOfKeepSnoc(a5, DateTo, p);
    AllFiltersInOrder();
  }

  lemma KeepSnoc(filters: seq<Filter>, f: Filter, p: ListParams)
    ensures Keep(filters + [f], p) == Keep(filters, p) + When(Applies(f, p), f)
  {
    assert (filters + [f])[..|filters|] == filters;
  }

  /** The listing's conditions, one conditional append per parameter. */
  lemma ListFiltersSteps(p: ListParams)
    ensures ListFilters(p)
         == When(Given(p.status), StatusIs) + When(Given(p.paymentStatus), PaymentStatusIs)
          + When(Given(p.shippingMethod), ShippingMethodIs) + When(Given(p.search), SearchLike)
          + When(Given(p.dateFrom), DateFrom) + When(Given(p.dateTo), DateTo)
  {
    var a1 := [StatusIs];
    var a2 := a1 + [PaymentStatusIs];
    var a3 := a2 + [ShippingMethodIs];
    var a4 := a3 + [SearchLike];
    var a5 := a4 + [DateFrom];
    KeepSnoc([], StatusIs, p);
    assert [] + [StatusIs] == a1;
    assert Keep(a1, p) == When(Given(p.status), StatusIs) by {
      assert [] + When(Given(p.status), StatusIs) == When(Given(p.status), StatusIs);
    }
    KeepSnoc(a1, PaymentStatusIs, p);
    KeepSnoc(a2, ShippingMethodIs, p);
    KeepSnoc(a3, SearchLike, p);
    KeepSnoc(a4, DateFrom, p);
    KeepSnoc(a5, DateTo, p);
    AllFiltersInOrder();
  }

  lemma AllFiltersInOrder()
    ensures [StatusIs] + [PaymentStatusIs] + [ShippingMethodIs] + [SearchLike] + [DateFrom] + [DateTo] == ALL_FILTERS
  {
  }

  /** The listing query: its conditions, whether `LIMIT ?` and `OFFSET ?`
      follow `ORDER BY o.created_at DESC`, and the bound values in order. */
  datatype ListQuery = ListQuery(filters: seq<Filter>, limit: bool, offset: bool, params: seq<Value>)

  /** `COUNT(*)` with its conditions and bound values. */
  datatype CountQuery = CountQuery(filters: seq<Filter>, params: seq<Value>)

  /** The listing query of getAllOrders. OFFSET is only ever added after
      LIMIT, and neither is added when its value is 0. */
  function OrderListQuery(p: ListParams): (q: ListQuery)
    ensures q.filters == ListFilters(p)
    ensures q.limit <==> Nonzero(p.limit)
    ensures q.offset <==> Nonzero(p.limit) && Nonzero(p.offset)
    ensures |q.params| == ArityOf(q.filters) + (if q.limit then 1 else 0) + (if q.offset then 1 else 0)
    ensures q.params[..ArityOf(q.filters)] == ArgsOf(q.filters, p)
    ensures q.limit ==> q.params[ArityOf(q.filters)] == Int(p.limit.value)
    ensures q.offset ==> q.params[|q.params| - 1] == Int(p.offset.value)
  {
    var params := FilterParams(p);
    if Nonzero(p.limit) then
      if Nonzero(p.offset) then ListQuery(ListFilters(p), true, true, params + [Int(p.limit.value), Int(p.offset.value)])
      else ListQuery(ListFilters(p), true, false, params + [Int(p.limit.value)])
    else ListQuery(ListFilters(p), false, false, params)
  }

  /** The condition pushes of getAllOrders, one truthy parameter at a time. */
  method PushFilters(p: ListParams) returns (filters: seq<Filter>, params: seq<Value>)
    ensures filters == ListFilters(p) && params == FilterParams(p)
  {
    filters, params := PushIf(Given(p.status), [], [], StatusIs, [Text(ValueOr(p.status))]);
    assert filters == When(Given(p.status), StatusIs) && params == StatusParam(p) by {
      assert [] + When(Given(p.status), StatusIs) == When(Given(p.status), StatusIs);
      assert [] + StatusParam(p) == StatusParam(p);
    }
    filters, params := PushIf(Given(p.paymentStatus), filters, params, PaymentStatusIs, [Text(ValueOr(p.paymentStatus))]);
    filters, params := PushIf(Given(p.shippingMethod), filters, params, ShippingMethodIs, [Text(ValueOr(p.shippingMethod))]);
    var searchTerm := Text(Pattern(ValueOr(p.search)));
    filters, params := PushIf(Given(p.search), filters, params, SearchLike, [searchTerm, searchTerm, searchTerm]);
    filters, params := PushIf(Given(p.dateFrom), filters, params, DateFrom, [Text(ValueOr(p.dateFrom))]);
    filters, params := PushIf(Given(p.dateTo), filters, params, DateTo, [Text(ValueOr(p.dateTo))]);
    ListFiltersSteps(p);
  }

  /** The count query's conditions, pushed again from the parameters. */
  method PushCountFilters(p: ListParams) returns (filters: seq<Filter>)
    ensures filters == ListFilters(p)
  {
    filters := [];
    if Given(p.status) { filters := filters + [StatusIs]; }
    assert filters == When(Given(p.status), StatusIs);
    ghost var f1 := filters;
    if Given(p.paymentStatus) { filters := filters + [PaymentStatusIs]; }
    assert filters == f1 + When(Given(p.paymentStatus), PaymentStatusIs);
    ghost var f2 := filters;
    if Given(p.shippingMethod) { filters := filters + [ShippingMethodIs]; }
    assert filters == f2 + When(Given(p.shippingMethod), ShippingMethodIs);
    ghost var f3 := filters;
    if Given(p.search) { filters := filters + [SearchLike]; }
    assert filters == f3 + When(Given(p.search), SearchLike);
    ghost var f4 := filters;
    if Given(p.dateFrom) { filters := filters + [DateFrom]; }
    assert filters == f4 + When(Given(p.dateFrom), DateFrom);
    ghost var f5 := filters;
    if Given(p.dateTo) { filters := filters + [DateTo]; }
    assert filters == f5 + When(Given(p.dateTo), DateTo);
    ListFiltersSteps(p);
  }

  /** getAllOrders as written: the conditions and their values, then LIMIT
      and OFFSET; the count query repeats the conditions and takes the
      listing's values minus the last two. */
  method BuildOrderListing(p: ListParams) returns (list: ListQuery, count: CountQuery)
    ensures list == OrderListQuery(p)
    ensures count == CountQueryAsWritten(p)
  {
    var filters, params := PushFilters(p);
    var limit, offset := false, false;
    if Nonzero(p.limit) {
      limit := true;
      params := params + [Int(p.limit.value)];
      if Nonzero(p.offset) {
        offset := true;
        params := params + [Int(p.offset.value)];
      }
    }
    list := ListQuery(filters, limit, offset, params);
    var countParams := DropLastTwo(params);
    var countFilters := PushCountFilters(p);
    count := CountQuery(countFilters, countParams);
  }

  /** The count query as written: the same conditions, bound to the
      listing's values with the last two dropped whether or not LIMIT and
      OFFSET were bound. */
  function CountQueryAsWritten(p: ListParams): CountQuery
  {
    CountQuery(ListFilters(p), DropLastTwo(OrderListQuery(p).params))
  }

  /** The count query as intended: the same conditions, with exactly the
      values the conditions bind. */
  function OrderCountQuery(p: ListParams): (q: CountQuery)
    ensures q.filters == OrderListQuery(p).filters
    ensures |q.params| == ArityOf(q.filters)
    ensures q.params == ArgsOf(q.filters, p)
    ensures q.params == OrderListQuery(p).params[..ArityOf(q.filters)]
  {
    CountQuery(ListFilters(p), FilterParams(p))
  }

  /** The as-written count query binds one value per `?` exactly when there
      are no conditions or both LIMIT and OFFSET were bound; in every other
      case it binds too few. */
  lemma CountParamsAsWrittenAligned(p: ListParams)
    ensures var q := CountQueryAsWritten(p);
      (|q.params| == ArityOf(q.filters)) <==> (ListFilters(p) == [] || (Nonzero(p.limit) && Nonzero(p.offset)))
    ensures |CountQueryAsWritten(p).params| <= ArityOf(ListFilters(p))
  {
    var fs := ListFilters(p);
    if fs != [] {
      assert Arity(fs[|fs| - 1]) >= 1;
      assert ArityOf(fs) >= 1;
    }
  }

  /** When LIMIT and OFFSET are both bound the as-written count query is
      the intended one. */
  lemma CountQueryAgreesWhenPaged(p: ListParams)
    requires Nonzero(p.limit) && Nonzero(p.offset)
    ensures CountQueryAsWritten(p) == OrderCountQuery(p)
  {
    var params := OrderListQuery(p).params;
    var n := ArityOf(ListFilters(p));
    assert params[..n] == FilterParams(p);
  }

  /** The first page of a status-filtered listing (limit 20, offset 0):
      the count query has one `?` and no value. */
  lemma FirstPageCountCounterexample()
    ensures var p := ListParams(Some("pending"), None, None, None, None, None, Some(20), Some(0));
      && ArityOf(CountQueryAsWritten(p).filters) == 1
      && CountQueryAsWritten(p).params == []
      && OrderCountQuery(p).params == [Text("pending")]
  {
    var p := ListParams(Some("pending"), None, None, None, None, None, Some(20), Some(0));
    assert FilterParams(p) == [Text("pending")];
  }
}
