/** The FastAPI service: `POST /search_products` (whose price and feature
    branches are left as `pass`), `GET /order_status` (which decodes the
    `ATSYMB` spelling of the e-mail) and `POST /create_complaint`. */
module Backend {
  import opened Outcomes
  import opened Text
  import opened Store
  import opened QueryBuilder
  import opened ProductSearch
  import opened EmailCodec

  /** `HTTPException(status_code, detail)`. */
  datatype HttpError = HttpError(status: int, detail: string)

  const NotFound := 404

  // ---------------------------------------------------------------------
  // POST /search_products
  // ---------------------------------------------------------------------

  /** The endpoint's WHERE construction: query, brand and product type as in
      the chatbot's builder; nothing for a price range or features. */
  function BuildFastApi(c: Criteria): (q: Query)
    ensures Balanced(q)
    ensures q == Assemble(Applied(c), NoRule)
  {
    var qb := Append(QueryPart(c.query), BrandPart(c.brand));
    var q := Append(qb, TypePart(c.productType));
    AppendEmpty(qb);
    AppendEmpty(q);
    q
  }

  lemma AppendEmpty(q: Query)
    ensures Append(q, Empty) == q
  {
    assert q.clauses + [] == q.clauses;
    assert q.params + [] == q.params;
  }

  /** The price range and the features sent to the endpoint change nothing. */
  lemma FastApiIgnoresPriceAndFeatures(c: Criteria, priceRange: Option<string>, features: Option<string>)
    ensures BuildFastApi(c.(priceRange := priceRange, features := features)) == BuildFastApi(c)
  {
  }

  /** The endpoint builds the chatbot's query exactly when the price range
      adds no condition and the features are absent or "any". */
  lemma FastApiMatchesActionsIff(c: Criteria, parse: string -> Option<real>)
    ensures Build(c, parse) == Ok(BuildFastApi(c)) <==>
      ClassifyPrice(c.priceRange, parse) == Ok(NoRule) && !Active(c.features)
  {
    if ClassifyPrice(c.priceRange, parse) == Ok(NoRule) && !Active(c.features) {
      FastApiWithoutExtras(c, parse);
    }
    if Build(c, parse) == Ok(BuildFastApi(c)) {
      FastApiOnlyWithoutExtras(c, parse);
    }
  }

  lemma FastApiWithoutExtras(c: Criteria, parse: string -> Option<real>)
    requires ClassifyPrice(c.priceRange, parse) == Ok(NoRule) && !Active(c.features)
    ensures Build(c, parse) == Ok(BuildFastApi(c))
  {
    assert FeaturePart(c.features) == FeaturePart(None);
    assert Assemble(c, NoRule) == Assemble(Applied(c), NoRule);
  }

  lemma FastApiOnlyWithoutExtras(c: Criteria, parse: string -> Option<real>)
    requires Build(c, parse) == Ok(BuildFastApi(c))
    ensures ClassifyPrice(c.priceRange, parse) == Ok(NoRule) && !Active(c.features)
  {
    var rule := ClassifyPrice(c.priceRange, parse).value;
    ClauseCount(c, rule);
    ClauseCount(Applied(c), NoRule);
    assert |Assemble(c, rule).clauses| == |Assemble(Applied(c), NoRule).clauses|;
  }

  /** The number of clauses the builder emits, part by part. */
  lemma ClauseCount(c: Criteria, rule: PriceRule)
    ensures |Assemble(c, rule).clauses| == |QueryPart(c.query).clauses| + |BrandPart(c.brand).clauses|
      + |PriceQuery(rule).clauses| + |TypePart(c.productType).clauses| + |FeaturePart(c.features).clauses|
  {
  }

  /** One element of the response's `products` list. */
  datatype ProductJson = ProductJson(
    id: int, name: string, brand: string, price: real,
    stock: int, rating: real, features: string)

  /** The row-to-JSON mapping: `stock` is the quantity column, `features`
      the tags column. */
  function ToJson(p: Product): (j: ProductJson)
    ensures j.id == p.id && j.name == p.name && j.brand == p.brand && j.price == p.price
    ensures j.stock == p.quantity && j.rating == p.rating && j.features == p.tags
  {
    ProductJson(p.id, p.name, p.brand, p.price, p.quantity, p.rating, p.tags)
  }

  /** The product a JSON element describes. */
  function FromJson(j: ProductJson): Product {
    Product(j.id, j.name, j.brand, j.price, j.stock, j.rating, j.features)
  }

  /** The mapping loses nothing: each side determines the other. */
  lemma JsonRoundTrip(p: Product, j: ProductJson)
    ensures FromJson(ToJson(p)) == p
    ensures ToJson(FromJson(j)) == j
  {
  }

  function JsonList(ps: seq<Product>): (js: seq<ProductJson>)
    ensures |js| == |ps|
    ensures forall i :: 0 <= i < |ps| ==> js[i] == ToJson(ps[i])
  {
    if |ps| == 0 then [] else [ToJson(ps[0])] + JsonList(ps[1..])
  }

  /** The products a response lists. */
  function Listed(js: seq<ProductJson>): (ps: seq<Product>)
    ensures |ps| == |js|
    ensures forall i :: 0 <= i < |js| ==> ps[i] == FromJson(js[i])
  {
    if |js| == 0 then [] else [FromJson(js[0])] + Listed(js[1..])
  }

  /** The criteria the endpoint actually applies. */
  function Applied(c: Criteria): Criteria {
    c.(priceRange := None, features := None)
  }

  /** The endpoint's response answers the query, brand and type criteria
      alone. It cannot fail: the price text is never parsed. */
  function SearchEndpoint(table: seq<Product>, c: Criteria): (r: seq<ProductJson>)
    ensures Answers(table, Applied(c), NoRule, Listed(r))
  {
    AssembledPage(table, Applied(c), NoRule);
    var page := Execute(BuildFastApi(c), table).value;
    ListedJsonList(page);
    JsonList(page)
  }

  lemma ListedJsonList(ps: seq<Product>)
    ensures Listed(JsonList(ps)) == ps
  {
  }

  // ---------------------------------------------------------------------
  // GET /order_status
  // ---------------------------------------------------------------------

  /** The response body: the six `orders` columns of the joined row. */
  datatype OrderJson = OrderJson(
    orderId: int, userId: int, shippingAddress: string,
    orderAmount: real, status: string, createdTime: string)

  /** `get_order_status`: the e-mail is decoded (`ATSYMB` back to `@`)
      before the lookup; no matching order and user gives a 404. */
  function OrderStatus(db: Db, orderId: int, email: string): (r: Result<OrderJson, HttpError>)
    ensures r.Err? <==>
      forall o, u :: o in db.orders && u in db.users ==> !OrderMatches(o, u, orderId, Decode(email))
    ensures r.Err? ==> r.error == HttpError(NotFound, "Order not found")
    ensures r.Ok? ==> exists o, u :: (o in db.orders && u in db.users
      && OrderMatches(o, u, orderId, Decode(email))
      && r.value == OrderJson(o.id, o.userId, o.shippingAddress, o.amount, o.status, o.createdTime))
  {
    match LookupOrder(db, orderId, Decode(email))
    case None => Err(HttpError(NotFound, "Order not found"))
    case Some(row) =>
      var o := row.order;
      Ok(OrderJson(o.id, o.userId, o.shippingAddress, o.amount, o.status, o.createdTime))
  }

  /** An address the chatbot encoded reaches the same order as the address
      itself did in the chatbot's own lookup. */
  lemma OrderStatusOfEncoded(db: Db, orderId: int, email: string)
    requires !Contains(email, Marker)
    ensures OrderStatus(db, orderId, Encode(email)).Ok? <==> LookupOrder(db, orderId, email).Some?
  {
    RoundTrip(email);
  }

  /** A client that sends the plain address (no marker) is served as well. */
  lemma OrderStatusOfPlain(db: Db, orderId: int, email: string)
    requires !Contains(email, Marker)
    ensures OrderStatus(db, orderId, email).Ok? <==> LookupOrder(db, orderId, email).Some?
  {
    DecodeIdentity(email);
  }

  /** With unique keys the response is determined: it is the matching order. */
  lemma OrderStatusUnique(db: Db, o: Order, u: User, email: string)
    requires AccountsKeyed(db)
    requires o in db.orders && u in db.users && OrderMatches(o, u, o.id, Decode(email))
    ensures OrderStatus(db, o.id, email)
      == Ok(OrderJson(o.id, o.userId, o.shippingAddress, o.amount, o.status, o.createdTime))
  {
    LookupOrderUnique(db, o, u, o.id, Decode(email));
  }

  // ---------------------------------------------------------------------
  // POST /create_complaint
  // ---------------------------------------------------------------------

  datatype ComplaintRequest = ComplaintRequest(
    orderId: int, userEmail: string, topic: string, description: string)

  /** The store after the request and the response. */
  datatype Response = Response(db: Db, body: Result<int, HttpError>)

  /** `create_complaint`: 404 "User not found" and no insert when the e-mail
      has no user; otherwise one `'open'` complaint and its new id. The
      e-mail is used as sent (no `ATSYMB` decoding here). */
  function CreateComplaintEndpoint(db: Db, req: ComplaintRequest, now: string): (r: Response)
    ensures r.body.Err? <==> forall u :: u in db.users ==> u.email != req.userEmail
    ensures r.body.Err? ==> r.db == db && r.body.error == HttpError(NotFound, "User not found")
    ensures r.body.Ok? ==>
      && (forall c :: c in db.complaints ==> c.id != r.body.value)
      && exists u :: u in db.users && u.email == req.userEmail
           && r.db.complaints == db.complaints
                + [Complaint(r.body.value, req.orderId, u.id, "open", req.topic, req.description, now)]
    ensures r.db.products == db.products && r.db.users == db.users && r.db.orders == db.orders
  {
    var filed := CreateComplaint(db, req.orderId, req.userEmail, req.topic, req.description, now);
    match filed.id
    case None => Response(db, Err(HttpError(NotFound, "User not found")))
    case Some(id) => Response(filed.db, Ok(id))
  }
}
