/**
 * The backend function's request handler: routing on path and method, the
 * inbound and outbound movement handlers, product listing and creation, the
 * statistics and the default information response. Every database error and
 * every body that does not parse is answered with status 500.
 *
 * `Step` states what one request does to the store and what it answers;
 * `Handle` performs it against a `Database`, one database call at a time,
 * in the order the source makes them.
 */
module BackendHandler {
  import opened Wrappers
  import opened JsValue
  import opened BackendStore
  import opened BackendStats

  /** A request: the HTTP method, the path, and the body, `None` when it is not a JSON object. */
  datatype Request = Request(verb: string, path: string, body: Option<Doc>)

  datatype Route =
    | ListProducts | AddProduct | ListMovements | RecordInbound | RecordOutbound | GetStats | ApiInfo

  /** The handler's chain of path and method tests, first match wins. */
  function RouteOf(verb: string, path: string): Route {
    if path == "/products" && verb == "GET" then ListProducts
    else if path == "/products" && verb == "POST" then AddProduct
    else if path == "/movements" && verb == "GET" then ListMovements
    else if path == "/movements/inbound" && verb == "POST" then RecordInbound
    else if path == "/movements/outbound" && verb == "POST" then RecordOutbound
    else if path == "/stats" && verb == "GET" then GetStats
    else ApiInfo
  }

  datatype Fault = StoreError(cause: DbError) | MalformedBody

  datatype Reply =
    | DocumentList(total: nat, documents: seq<Doc>)
    | ProductCreated(product: Doc)
    | MovementRecorded(success: bool, movement: Doc)
    | Refused(success: bool, error: string)
    | Statistics(stats: Stats)
    | Info(message: string, endpoints: seq<string>)
    | Error(fault: Fault)

  datatype Response = Response(status: nat, reply: Reply)

  /** The refusal message of an outbound movement larger than the stock ("quantity not available"). */
  const ShortStockMessage: string := "\U{627}\U{644}\U{643}\U{645}\U{64A}\U{629} \U{63A}\U{64A}\U{631} \U{645}\U{62A}\U{648}\U{641}\U{631}\U{629}"

  const InfoResponse: Response := Response(200, Info("WMS API v1.0", ["/products", "/movements", "/stats"]))

  function Failed(e: DbError): Response {
    Response(500, Error(StoreError(e)))
  }

  /** The body spread into a new document whose `type` and `createdAt` are then set. */
  function MovementOf(data: Doc, kind: string, now: Instant): (m: Doc)
    ensures m.Keys == data.Keys + {"type", "createdAt"}
    ensures m["type"] == Str(kind) && m["createdAt"] == Stamp(now)
    ensures forall k :: k in data && k != "type" && k != "createdAt" ==> m[k] == data[k]
  {
    data["type" := Str(kind)]["createdAt" := Stamp(now)]
  }

  /** `POST /products`. */
  function AddProductStep(s: State, data: Doc, newId: string): (State, Response) {
    match NewProduct(s.products, newId, data)
    case Failure(e) => (s, Failed(e))
    case Success(p) => (s.(products := s.products + [p]), Response(200, ProductCreated(ProductDoc(p))))
  }

  /**
   * `POST /movements/inbound`: the movement is written first; only then is
   * the product looked up and its quantity raised.
   */
  function InboundStep(s: State, data: Doc, now: Instant): (State, Response) {
    var m := MovementOf(data, "inbound", now);
    if !IsValidMovement(m) then (s, Failed(InvalidStructure))
    else
      var logged := s.(movements := s.movements + [m]);
      match GetProduct(logged.products, Get(data, "productId"))
      case Failure(e) => (logged, Failed(e))
      case Success(p) =>
        match SetQuantity(logged.products, p.id, Stock(p) + data["quantity"].n)
        case Failure(e) => (logged, Failed(e))
        case Success(ps) => (logged.(products := ps), Response(200, MovementRecorded(true, m)))
  }

  /**
   * `POST /movements/outbound`: the product is looked up and its quantity
   * compared with the request before anything is written.
   */
  function OutboundStep(s: State, data: Doc, now: Instant): (State, Response) {
    match GetProduct(s.products, Get(data, "productId"))
    case Failure(e) => (s, Failed(e))
    case Success(p) =>
      if Less(Some(QuantityValue(p)), Get(data, "quantity")) then
        (s, Response(400, Refused(false, ShortStockMessage)))
      else
        var m := MovementOf(data, "outbound", now);
        if !IsValidMovement(m) then (s, Failed(InvalidStructure))
        else
          var logged := s.(movements := s.movements + [m]);
          match SetQuantity(logged.products, p.id, Stock(p) - data["quantity"].n)
          case Failure(e) => (logged, Failed(e))
          case Success(ps) => (logged.(products := ps), Response(200, MovementRecorded(true, m)))
  }

  /** One request: the new store contents and the response. */
  function Step(s: State, req: Request, now: Instant, newId: string): (State, Response) {
    match RouteOf(req.verb, req.path)
    case ListProducts => (s, Response(200, DocumentList(|s.products|, ProductDocs(s.products))))
    case AddProduct =>
      if req.body.None? then (s, Response(500, Error(MalformedBody)))
      else AddProductStep(s, req.body.value, newId)
    case ListMovements => (s, Response(200, DocumentList(|s.movements|, s.movements)))
    case RecordInbound =>
      if req.body.None? then (s, Response(500, Error(MalformedBody)))
      else InboundStep(s, req.body.value, now)
    case RecordOutbound =>
      if req.body.None? then (s, Response(500, Error(MalformedBody)))
      else OutboundStep(s, req.body.value, now)
    case GetStats => (s, Response(200, Statistics(ComputeStats(s.products, s.movements, now.day))))
    case ApiInfo => (s, InfoResponse)
  }

  method HandleAddProduct(db: Database, data: Doc, newId: string) returns (res: Response)
    requires db.Valid()
    modifies db
    ensures db.Valid()
    ensures (db.Snapshot(), res) == AddProductStep(old(db.Snapshot()), data, newId)
  {
    var product := db.CreateProduct(newId, data);
    if product.Failure? {
      return Failed(product.error);
    }
    res := Response(200, ProductCreated(ProductDoc(product.value)));
  }

  method HandleInbound(db: Database, data: Doc, now: Instant) returns (res: Response)
    requires db.Valid()
    modifies db
    ensures db.Valid()
    ensures (db.Snapshot(), res) == InboundStep(old(db.Snapshot()), data, now)
  {
    var m := MovementOf(data, "inbound", now);
    var movement := db.CreateMovement(m);
    if movement.Failure? {
      return Failed(movement.error);
    }
    ghost var logged := db.Snapshot();
    assert logged == old(db.Snapshot()).(movements := old(db.Snapshot()).movements + [m]);
    var product := db.GetDocument(Get(data, "productId"));
    if product.Failure? {
      return Failed(product.error);
    }
    var _ := db.UpdateQuantity(product.value.id, Stock(product.value) + data["quantity"].n);
    res := Response(200, MovementRecorded(true, movement.value));
  }

  method HandleOutbound(db: Database, data: Doc, now: Instant) returns (res: Response)
    requires db.Valid()
    modifies db
    ensures db.Valid()
    ensures (db.Snapshot(), res) == OutboundStep(old(db.Snapshot()), data, now)
  {
    var product := db.GetDocument(Get(data, "productId"));
    if product.Failure? {
      return Failed(product.error);
    }
    if Less(Some(QuantityValue(product.value)), Get(data, "quantity")) {
      return Response(400, Refused(false, ShortStockMessage));
    }
    var m := MovementOf(data, "outbound", now);
    var movement := db.CreateMovement(m);
    if movement.Failure? {
      return Failed(movement.error);
    }
    ghost var logged := db.Snapshot();
    assert logged == old(db.Snapshot()).(movements := old(db.Snapshot()).movements + [m]);
    var _ := db.UpdateQuantity(product.value.id, Stock(product.value) - data["quantity"].n);
    res := Response(200, MovementRecorded(true, movement.value));
  }

  /** The handler: dispatch on path and method, as `Step` describes. */
  method Handle(db: Database, req: Request, now: Instant, newId: string) returns (res: Response)
    requires db.Valid()
    modifies db
    ensures db.Valid()
    ensures (db.Snapshot(), res) == Step(old(db.Snapshot()), req, now, newId)
  {
    if req.path == "/products" && req.verb == "GET" {
      var products := db.ListProducts();
      return Response(200, DocumentList(|products|, ProductDocs(products)));
    }
    if req.path == "/products" && req.verb == "POST" {
      if req.body.None? {
        return Response(500, Error(MalformedBody));
      }
      res := HandleAddProduct(db, req.body.value, newId);
      return;
    }
    if req.path == "/movements" && req.verb == "GET" {
      var movements := db.ListMovements();
      return Response(200, DocumentList(|movements|, movements));
    }
    if req.path == "/movements/inbound" && req.verb == "POST" {
      if req.body.None? {
        return Response(500, Error(MalformedBody));
      }
      res := HandleInbound(db, req.body.value, now);
      return;
    }
    if req.path == "/movements/outbound" && req.verb == "POST" {
      if req.body.None? {
        return Response(500, Error(MalformedBody));
      }
      res := HandleOutbound(db, req.body.value, now);
      return;
    }
    if req.path == "/stats" && req.verb == "GET" {
      var products := db.ListProducts();
      var movements := db.ListMovements();
      return Response(200, Statistics(ComputeStats(products, movements, now.day)));
    }
    res := InfoResponse;
  }

  /** The routes the handler names; every other path and method pair falls through to the information response. */
  lemma RoutedPairs(verb: string, path: string)
    ensures RouteOf(verb, path) != ApiInfo <==>
      (path, verb) in {("/products", "GET"), ("/products", "POST"), ("/movements", "GET"),
                       ("/movements/inbound", "POST"), ("/movements/outbound", "POST"), ("/stats", "GET")}
  {
  }

  /** The listings, the statistics and the default response write nothing. */
  lemma ReadsWriteNothing(s: State, req: Request, now: Instant, newId: string)
    requires RouteOf(req.verb, req.path) in {ListProducts, ListMovements, GetStats, ApiInfo}
    ensures Step(s, req, now, newId).0 == s
    ensures RouteOf(req.verb, req.path) == ApiInfo ==> Step(s, req, now, newId).1 == InfoResponse
  {
  }

  /**
   * An outbound request with an integer quantity is refused with status 400
   * exactly when the product exists and its stock is below the quantity, and
   * a refused request writes nothing.
   */
  lemma OutboundRefusal(s: State, data: Doc, now: Instant, q: int)
    requires Get(data, "quantity") == Some(Int(q))
    ensures OutboundStep(s, data, now).1.status == 400 <==>
      (GetProduct(s.products, Get(data, "productId")).Success?
       && Stock(GetProduct(s.products, Get(data, "productId")).value) < q)
    ensures OutboundStep(s, data, now).1.status == 400 ==>
      OutboundStep(s, data, now) == (s, Response(400, Refused(false, ShortStockMessage)))
  {
    match GetProduct(s.products, Get(data, "productId"))
    case Failure(_) =>
    case Success(p) =>
      assert Less(Some(QuantityValue(p)), Some(Int(q))) <==> Stock(p) < q;
  }

  /**
   * An accepted outbound request appends exactly one movement, typed
   * `outbound` whatever the body said, and lowers that one product's
   * quantity by the requested amount, leaving it non-negative.
   */
  lemma OutboundAccepted(s: State, data: Doc, now: Instant, p: Product, q: int)
    requires GetProduct(s.products, Get(data, "productId")) == Success(p)
    requires Get(data, "quantity") == Some(Int(q)) && q <= Stock(p)
    ensures var (t, res) := OutboundStep(s, data, now);
      var m := MovementOf(data, "outbound", now);
      var i := IndexOf(s.products, p.id).value;
      && res == Response(200, MovementRecorded(true, m))
      && t.movements == s.movements + [m]
      && m["type"] == Str("outbound")
      && |t.products| == |s.products|
      && t.products[i] == p.(quantity := Some(Stock(p) - q))
      && Stock(t.products[i]) >= 0
      && forall j :: 0 <= j < |s.products| && j != i ==> t.products[j] == s.products[j]
  {
    assert !Less(Some(QuantityValue(p)), Some(Int(q)));
  }

  /**
   * An inbound request for a known product appends one movement typed
   * `inbound` and stamped now, and raises that product's quantity, a null
   * quantity counting as zero.
   */
  lemma InboundAccepted(s: State, data: Doc, now: Instant, p: Product, q: int)
    requires GetProduct(s.products, Get(data, "productId")) == Success(p)
    requires Get(data, "quantity") == Some(Int(q))
    ensures var (t, res) := InboundStep(s, data, now);
      var m := MovementOf(data, "inbound", now);
      var i := IndexOf(s.products, p.id).value;
      && res == Response(200, MovementRecorded(true, m))
      && t.movements == s.movements + [m]
      && m["type"] == Str("inbound") && m["createdAt"] == Stamp(now)
      && |t.products| == |s.products|
      && t.products[i] == p.(quantity := Some(Stock(p) + q))
      && forall j :: 0 <= j < |s.products| && j != i ==> t.products[j] == s.products[j]
  {
  }

  /**
   * An inbound request for an unknown product still leaves its movement in
   * the log, since the movement is written before the lookup; no product
   * changes and the answer is the status 500 error.
   */
  lemma InboundUnknownProduct(s: State, data: Doc, now: Instant, id: string, q: int)
    requires Get(data, "productId") == Some(Str(id)) && Get(data, "quantity") == Some(Int(q))
    requires IndexOf(s.products, id).None?
    ensures InboundStep(s, data, now)
      == (s.(movements := s.movements + [MovementOf(data, "inbound", now)]), Failed(DocumentNotFound))
  {
  }

  /** A movement body without a string product id or an integer quantity is refused by the store: nothing is written. */
  lemma MalformedMovementWritesNothing(s: State, data: Doc, now: Instant)
    requires !(Get(data, "productId").Some? && Get(data, "productId").value.Str?)
      || !(Get(data, "quantity").Some? && Get(data, "quantity").value.Int?)
    ensures InboundStep(s, data, now) == (s, Failed(InvalidStructure))
    ensures OutboundStep(s, data, now).0 == s && OutboundStep(s, data, now).1.status in {400, 500}
  {
  }
}
