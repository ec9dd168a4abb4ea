/**
 * The relational database the services share, as in-memory tables.
 * Product and category rows are column maps so that partial updates can
 * write exactly the columns they name; the order-side tables are typed
 * records. Auto-increment ids come from the `next...` counters, and
 * CURRENT_TIMESTAMP is a `now` parameter of the operations that stamp.
 */
module Store {
  import opened Common

  /** A row as a map from column name to value; an absent column reads as NULL. */
  type Row = map<string, Value>

  function Col(row: Row, column: string): Value
  {
    if column in row then row[column] else Null
  }

  /** A column read as a JavaScript number; NULL and text read as 0 here. */
  function IntCol(row: Row, column: string): int
  {
    match Col(row, column)
    case Int(i) => i
    case _ => 0
  }

  datatype Customer = Customer(id: int, name: string, email: string, notes: Value)

  datatype Order = Order(
    id: int,
    orderNumber: string,
    customerId: int,
    customerName: string,
    customerEmail: string,
    customerPhone: string,
    subtotal: int,
    taxAmount: int,
    shippingAmount: int,
    discountAmount: int,
    totalAmount: int,
    shippingMethod: string,
    shippingAddress: Option<string>,
    pickupLocation: Option<string>,
    deliveryInstructions: Option<string>,
    paymentMethod: string,
    paymentStatus: string,
    paymentReference: Option<string>,
    status: string,
    confirmedAt: Option<int>,
    readyAt: Option<int>,
    deliveredAt: Option<int>,
    updatedAt: int,
    adminNotes: Option<string>,
    customerNotes: Option<string>)

  /** A link between a customer and a subscription. */
  datatype CustomerSubscription = CustomerSubscription(customerId: int, subscriptionId: int, status: string)

  datatype OrderItem = OrderItem(
    orderId: int,
    productId: int,
    productName: Value,
    productSku: Value,
    quantity: int,
    unitPrice: int,
    totalPrice: int)

  datatype AttributeRow = AttributeRow(productId: int, name: string, value: string, sortOrder: int)

  datatype DiscountCode = DiscountCode(
    code: string,
    isActive: bool,
    startsAt: Option<int>,
    expiresAt: Option<int>,
    kind: string,
    value: int,
    minimumOrderAmount: Option<int>,
    maximumDiscountAmount: Option<int>)

  class Db {
    var products: map<int, Row>
    var attributes: seq<AttributeRow>
    var categories: map<int, Row>
    var customers: seq<Customer>
    var customerSubscriptions: seq<CustomerSubscription>
    var orders: map<int, Order>
    var orderItems: seq<OrderItem>
    var discountCodes: seq<DiscountCode>
    var nextProductId: int
    var nextCategoryId: int
    var nextCustomerId: int
    var nextOrderId: int

    /** Every stored id is below its table's next auto-increment id. */
    predicate Valid()
      reads this
    {
      && (forall id :: id in products ==> id < nextProductId)
      && (forall id :: id in categories ==> id < nextCategoryId)
      && (forall i :: 0 <= i < |customers| ==> customers[i].id < nextCustomerId)
      && (forall id :: id in orders ==> id < nextOrderId)
    }

    constructor ()
      ensures Valid()
      ensures products == map[] && categories == map[] && orders == map[]
      ensures attributes == [] && customers == [] && orderItems == [] && discountCodes == []
      ensures customerSubscriptions == []
    {
      products, attributes, categories := map[], [], map[];
      customerSubscriptions := [];
      customers, orders, orderItems, discountCodes := [], map[], [], [];
      nextProductId, nextCategoryId, nextCustomerId, nextOrderId := 1, 1, 1, 1;
    }
  }
}
