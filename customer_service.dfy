/**
 * The customer service: shaping the rows of the customer query (each
 * customer with its order count, total spent and last order date) and
 * creating a customer with an optional subscription link. The database's
 * responses (its success flag and result rows) are parameters.
 */
module CustomerService {
  import opened Common
  import opened Store
  import opened Query

  /** A customer as the service returns it. */
  datatype CustomerView = CustomerView(
    id: Value,
    name: Value,
    email: Value,
    notes: Value,
    createdAt: Value,
    updatedAt: Value,
    orderCount: Value,
    totalSpent: Value,
    lastOrderDate: Value)

  /** `v || 0`. */
  function OrZero(v: Value): (r: Value)
    ensures Truthy(r) || r == Int(0)
    ensures Truthy(v) ==> r == v
  {
    if Truthy(v) then v else Int(0)
  }

  /** One row of the customer query as the service returns it: the
      aggregates default to 0 (a customer without orders has a NULL sum),
      every other field is copied. */
  function ProcessRow(row: Row): (c: CustomerView)
    ensures c.orderCount == OrZero(Col(row, "order_count")) && c.totalSpent == OrZero(Col(row, "total_spent"))
    ensures c.orderCount != Null && c.totalSpent != Null
    ensures c.id == Col(row, "id") && c.email == Col(row, "email") && c.lastOrderDate == Col(row, "last_order_date")
    ensures c.name == Col(row, "name") && c.notes == Col(row, "notes")
    ensures c.createdAt == Col(row, "created_at") && c.updatedAt == Col(row, "updated_at")
  {
    CustomerView(
      Col(row, "id"), Col(row, "name"), Col(row, "email"), Col(row, "notes"),
      Col(row, "created_at"), Col(row, "updated_at"),
      OrZero(Col(row, "order_count")), OrZero(Col(row, "total_spent")),
      Col(row, "last_order_date"))
  }

  /** processCustomerResults: one customer per row, in the rows' order. */
  function ProcessCustomerResults(rows: seq<Row>): (r: seq<CustomerView>)
    ensures |r| == |rows|
    ensures forall i :: 0 <= i < |rows| ==> r[i] == ProcessRow(rows[i])
  {
    seq(|rows|, i requires 0 <= i < |rows| => ProcessRow(rows[i]))
  }

  /** Processing distributes over concatenation: it is a per-row map. */
  lemma ProcessAppend(a: seq<Row>, b: seq<Row>)
    ensures ProcessCustomerResults(a + b) == ProcessCustomerResults(a) + ProcessCustomerResults(b)
  {
  }

  /** What the database returns for `.all()`. */
  datatype QueryResponse = QueryResponse(success: bool, results: seq<Row>)

  /** getById and getByEmail's result: `null` on a failed query,
      `undefined` when no row matched, else the first customer. */
  datatype Lookup = NullResult | Undefined | Found(customer: CustomerView)

  /** The `WHERE` a single-customer query appends to the base select. */
  datatype CustomerKey = ById(id: int) | ByEmail(email: string)

  /** The lookup query: the base select, its WHERE, and the bound value. */
  datatype LookupQuery = LookupQuery(whereColumn: string, param: Value)

  function LookupQueryOf(key: CustomerKey): (q: LookupQuery)
    ensures key.ById? ==> q == LookupQuery("id", Int(key.id))
    ensures key.ByEmail? ==> q == LookupQuery("email", Text(key.email))
  {
    match key
    case ById(id) => LookupQuery("id", Int(id))
    case ByEmail(email) => LookupQuery("email", Text(email))
  }

  /** `const [customer] = processCustomerResults(response.results)` when
      the query succeeded, `null` otherwise. */
  function FirstCustomer(response: QueryResponse): (r: Lookup)
    ensures !response.success <==> r == NullResult
    ensures response.success && response.results == [] <==> r == Undefined
    ensures r.Found? ==> |response.results| > 0 && r.customer == ProcessCustomerResults(response.results)[0]
  {
    if !response.success then NullResult
    else
      var customers := ProcessCustomerResults(response.results);
      if |customers| == 0 then Undefined else Found(customers[0])
  }

  /** getById and getByEmail: the query they run, and what they return
      for the database's response to it. */
  method GetCustomer(key: CustomerKey, response: QueryResponse) returns (q: LookupQuery, r: Lookup)
    ensures q == LookupQueryOf(key)
    ensures r == FirstCustomer(response)
  {
    q := LookupQueryOf(key);
    if response.success {
      var customers := ProcessCustomerResults(response.results);
      if |customers| == 0 {
        r := Undefined;
      } else {
        r := Found(customers[0]);
      }
    } else {
      r := NullResult;
    }
  }

  /** getAll: every row processed, or `[]` on a failed query. */
  function AllCustomers(response: QueryResponse): (r: seq<CustomerView>)
    ensures !response.success ==> r == []
    ensures response.success ==> |r| == |response.results|
    ensures response.success ==> forall i :: 0 <= i < |r| ==> r[i] == ProcessRow(response.results[i])
  {
    if response.success then ProcessCustomerResults(response.results) else []
  }

  // ------------------------------------------------------------------
  // create
  // ------------------------------------------------------------------

  datatype Subscription = Subscription(id: int, status: string)

  datatype NewCustomer = NewCustomer(name: string, email: string, notes: Option<string>, subscription: Option<Subscription>)

  /** `{ success: true, customerId }` */
  datatype Created = Created(success: bool, customerId: int)

  const CREATE_FAILED := "Failed to create customer"
  const LINK_FAILED := "Failed to create customer subscription relationship"

  /** `notes || null`. */
  function NotesValue(notes: Option<string>): (v: Value)
    ensures v == Null <==> !Given(notes)
  {
    if Given(notes) then Text(notes.value) else Null
  }

  /** The customer insert; `insertOk` is the success flag the database
      reports for it. */
  method InsertCustomer(db: Db, data: NewCustomer, insertOk: bool) returns (r: Outcome<int>)
    modifies db`customers, db`nextCustomerId
    ensures !insertOk ==> r == Threw(CREATE_FAILED) && db.customers == old(db.customers) && db.nextCustomerId == old(db.nextCustomerId)
    ensures insertOk ==>
      && r == Returned(old(db.nextCustomerId))
      && db.customers == old(db.customers) + [Customer(old(db.nextCustomerId), data.name, data.email, NotesValue(data.notes))]
      && db.nextCustomerId == old(db.nextCustomerId) + 1
  {
    if !insertOk {
      return Threw(CREATE_FAILED);
    }
    var id := db.nextCustomerId;
    db.customers := db.customers + [Customer(id, data.name, data.email, NotesValue(data.notes))];
    db.nextCustomerId := id + 1;
    r := Returned(id);
  }

  /** create as written: the subscription insert prepares
      `CUSTOMER_QUERIES.INSERT_CUSTOMER_SUBSCRIPTION`, which the query
      table does not define, so with a subscription the call fails with
      the database's error (`prepareError`) after the customer row is
      already stored, and no link is ever written. */
  method CreateAsWritten(db: Db, data: NewCustomer, insertOk: bool, prepareError: string) returns (r: Outcome<Created>)
    modifies db`customers, db`nextCustomerId
    ensures !insertOk ==> r == Threw(CREATE_FAILED) && db.customers == old(db.customers)
    ensures insertOk ==> db.customers == old(db.customers) + [Customer(old(db.nextCustomerId), data.name, data.email, NotesValue(data.notes))]
    ensures insertOk && data.subscription.None? ==> r == Returned(Created(true, old(db.nextCustomerId)))
    ensures insertOk && data.subscription.Some? ==> r == Threw(prepareError)
  {
    var inserted := InsertCustomer(db, data, insertOk);
    if inserted.Threw? {
      return Threw(inserted.message);
    }
    var customerId := inserted.value;
    if data.subscription.Some? {
      // CUSTOMER_QUERIES has no INSERT_CUSTOMER_SUBSCRIPTION, so the
      // statement prepared here is undefined and preparing it throws.
      return Threw(prepareError);
    }
    r := Returned(Created(true, customerId));
  }

  /** create with the subscription insert it evidently means: the customer
      row, then, only when a subscription is supplied, one link row; a
      failed link insert throws. `linkOk` is the database's success flag
      for the link insert. */
  method Create(db: Db, data: NewCustomer, insertOk: bool, linkOk: bool) returns (r: Outcome<Created>)
    modifies db`customers, db`nextCustomerId, db`customerSubscriptions
    ensures !insertOk ==>
      r == Threw(CREATE_FAILED) && db.customers == old(db.customers) && db.customerSubscriptions == old(db.customerSubscriptions)
    ensures insertOk ==> db.customers == old(db.customers) + [Customer(old(db.nextCustomerId), data.name, data.email, NotesValue(data.notes))]
    ensures insertOk && data.subscription.None? ==>
      r == Returned(Created(true, old(db.nextCustomerId))) && db.customerSubscriptions == old(db.customerSubscriptions)
    ensures insertOk && data.subscription.Some? && !linkOk ==>
      r == Threw(LINK_FAILED) && db.customerSubscriptions == old(db.customerSubscriptions)
    ensures insertOk && data.subscription.Some? && linkOk ==>
      r == Returned(Created(true, old(db.nextCustomerId)))
      && db.customerSubscriptions == old(db.customerSubscriptions)
           + [CustomerSubscription(old(db.nextCustomerId), data.subscription.value.id, data.subscription.value.status)]
  {
    var inserted := InsertCustomer(db, data, insertOk);
    if inserted.Threw? {
      return Threw(inserted.message);
    }
    var customerId := inserted.value;
    if data.subscription.Some? {
      if !linkOk {
        return Threw(LINK_FAILED);
      }
      var s := data.subscription.value;
      db.customerSubscriptions := db.customerSubscriptions + [CustomerSubscription(customerId, s.id, s.status)];
    }
    r := Returned(Created(true, customerId));
  }
}
