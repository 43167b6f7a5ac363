/**
 * What the movement log says about stock. Each logged movement contributes
 * its quantity to its product, positively for `inbound` and negatively for
 * `outbound`. A product is balanced when its stock equals the net of the
 * log. The handler keeps a product balanced and its stock non-negative,
 * over any sequence of requests taken one at a time.
 */
module BackendLedger {
  import opened Wrappers
  import opened JsValue
  import opened BackendStore
  import opened BackendStats
  import opened BackendHandler

  /** The signed quantity movement `m` records for product `id`. */
  function Contribution(m: Doc, id: string): int {
    if Get(m, "productId") == Some(Str(id)) && Get(m, "quantity").Some? && Get(m, "quantity").value.Int? then
      if Get(m, "type") == Some(Str("inbound")) then m["quantity"].n
      else if Get(m, "type") == Some(Str("outbound")) then -m["quantity"].n
      else 0
    else 0
  }

  /** Inbound minus outbound quantities logged for product `id`. */
  function Net(ms: seq<Doc>, id: string): int {
    if ms == [] then 0 else Net(ms[..|ms| - 1], id) + Contribution(ms[|ms| - 1], id)
  }

  ghost predicate Balanced(s: State, id: string) {
    forall i :: 0 <= i < |s.products| && s.products[i].id == id ==> Stock(s.products[i]) == Net(s.movements, id)
  }

  ghost predicate NonNegative(s: State, id: string) {
    forall i :: 0 <= i < |s.products| && s.products[i].id == id ==> Stock(s.products[i]) >= 0
  }

  /** Later states keep every product in its place, and the log only grows. */
  ghost predicate Extends(s: State, t: State) {
    && |s.products| <= |t.products|
    && (forall i :: 0 <= i < |s.products| ==> t.products[i].id == s.products[i].id)
    && s.movements <= t.movements
  }

  /**
   * A request the invariant is stated for: an inbound quantity is not
   * negative, and a product created by the request gets an id other than `id`.
   */
  predicate Admissible(req: Request, newId: string, id: string) {
    && (RouteOf(req.verb, req.path) == AddProduct ==> newId != id)
    && (RouteOf(req.verb, req.path) == RecordInbound && req.body.Some? ==>
          match Get(req.body.value, "quantity")
          case Some(Int(q)) => q >= 0
          case _ => true)
  }

  lemma {:induction false} NetAppend(ms: seq<Doc>, ns: seq<Doc>, id: string)
    ensures Net(ms + ns, id) == Net(ms, id) + Net(ns, id)
    decreases |ns|
  {
    if ns == [] {
      assert ms + ns == ms;
    } else {
      assert (ms + ns)[..|ms + ns| - 1] == ms + ns[..|ns| - 1];
      NetAppend(ms, ns[..|ns| - 1], id);
    }
  }

  /** A quantity update keeps ids unique and products in place. */
  lemma SetQuantityExtends(s: State, id: string, q: int, ms: seq<Doc>)
    requires UniqueIds(s.products) && SetQuantity(s.products, id, q).Success? && s.movements <= ms
    ensures UniqueIds(SetQuantity(s.products, id, q).value)
    ensures Extends(s, State(SetQuantity(s.products, id, q).value, ms))
  {
  }

  lemma InboundExtends(s: State, data: Doc, now: Instant)
    requires UniqueIds(s.products)
    ensures UniqueIds(InboundStep(s, data, now).0.products) && Extends(s, InboundStep(s, data, now).0)
  {
    var m := MovementOf(data, "inbound", now);
    if IsValidMovement(m) {
      var ms := s.movements + [m];
      match GetProduct(s.products, Get(data, "productId"))
      case Failure(_) =>
      case Success(p) => SetQuantityExtends(s, p.id, Stock(p) + data["quantity"].n, ms);
    }
  }

  lemma OutboundExtends(s: State, data: Doc, now: Instant)
    requires UniqueIds(s.products)
    ensures UniqueIds(OutboundStep(s, data, now).0.products) && Extends(s, OutboundStep(s, data, now).0)
  {
    var m := MovementOf(data, "outbound", now);
    match GetProduct(s.products, Get(data, "productId"))
    case Failure(_) =>
    case Success(p) =>
      if !Less(Some(QuantityValue(p)), Get(data, "quantity")) && IsValidMovement(m) {
        SetQuantityExtends(s, p.id, Stock(p) - data["quantity"].n, s.movements + [m]);
      }
  }

  /** Every request keeps ids unique, keeps products in place and only appends to the log. */
  lemma StepExtends(s: State, req: Request, now: Instant, newId: string)
    requires UniqueIds(s.products)
    ensures UniqueIds(Step(s, req, now, newId).0.products)
    ensures Extends(s, Step(s, req, now, newId).0)
  {
    if req.body.Some? {
      match RouteOf(req.verb, req.path)
      case RecordInbound => InboundExtends(s, req.body.value, now);
      case RecordOutbound => OutboundExtends(s, req.body.value, now);
      case _ =>
    }
  }

  /** A movement recorded for another product leaves this product's net unchanged. */
  lemma NetOfOtherProduct(ms: seq<Doc>, m: Doc, id: string)
    requires Get(m, "productId") != Some(Str(id))
    ensures Net(ms + [m], id) == Net(ms, id)
  {
    assert (ms + [m])[..|ms|] == ms;
  }

  lemma InboundKeepsBalance(s: State, data: Doc, now: Instant, id: string)
    requires UniqueIds(s.products) && Balanced(s, id)
    ensures Balanced(InboundStep(s, data, now).0, id)
  {
    var m := MovementOf(data, "inbound", now);
    var t := InboundStep(s, data, now).0;
    if IsValidMovement(m) {
      assert (s.movements + [m])[..|s.movements|] == s.movements;
      if Get(data, "productId") == Some(Str(id)) {
        assert Net(t.movements, id) == Net(s.movements, id) + data["quantity"].n;
      } else {
        NetOfOtherProduct(s.movements, m, id);
      }
    }
  }

  lemma OutboundKeepsBalance(s: State, data: Doc, now: Instant, id: string)
    requires UniqueIds(s.products) && Balanced(s, id)
    ensures Balanced(OutboundStep(s, data, now).0, id)
  {
    var m := MovementOf(data, "outbound", now);
    var t := OutboundStep(s, data, now).0;
    if t != s {
      assert (s.movements + [m])[..|s.movements|] == s.movements;
      if Get(data, "productId") == Some(Str(id)) {
        assert Net(t.movements, id) == Net(s.movements, id) - data["quantity"].n;
      } else {
        NetOfOtherProduct(s.movements, m, id);
      }
    }
  }

  /** One admissible request keeps a product balanced. */
  lemma StepKeepsBalance(s: State, req: Request, now: Instant, newId: string, id: string)
    requires UniqueIds(s.products) && Balanced(s, id) && Admissible(req, newId, id)
    ensures Balanced(Step(s, req, now, newId).0, id)
  {
    if req.body.Some? {
      match RouteOf(req.verb, req.path)
      case RecordInbound => InboundKeepsBalance(s, req.body.value, now, id);
      case RecordOutbound => OutboundKeepsBalance(s, req.body.value, now, id);
      case _ =>
    }
  }

  lemma OutboundKeepsNonNegative(s: State, data: Doc, now: Instant, id: string)
    requires UniqueIds(s.products) && NonNegative(s, id)
    ensures NonNegative(OutboundStep(s, data, now).0, id)
  {
    match GetProduct(s.products, Get(data, "productId"))
    case Failure(_) =>
    case Success(p) =>
      if !Less(Some(QuantityValue(p)), Get(data, "quantity")) && IsValidMovement(MovementOf(data, "outbound", now)) {
        assert Stock(p) - data["quantity"].n >= 0;
      }
  }

  lemma InboundKeepsNonNegative(s: State, data: Doc, now: Instant, id: string)
    requires UniqueIds(s.products) && NonNegative(s, id)
    requires match Get(data, "quantity") case Some(Int(q)) => q >= 0 case _ => true
    ensures NonNegative(InboundStep(s, data, now).0, id)
  {
  }

  /** One admissible request keeps a product's stock non-negative. */
  lemma StepKeepsNonNegative(s: State, req: Request, now: Instant, newId: string, id: string)
    requires UniqueIds(s.products) && NonNegative(s, id) && Admissible(req, newId, id)
    ensures NonNegative(Step(s, req, now, newId).0, id)
  {
    if req.body.Some? {
      match RouteOf(req.verb, req.path)
      case RecordInbound => InboundKeepsNonNegative(s, req.body.value, now, id);
      case RecordOutbound => OutboundKeepsNonNegative(s, req.body.value, now, id);
      case _ =>
    }
  }

  /** A request together with the instant it is handled at and the id a created product would get. */
  datatype Call = Call(req: Request, now: Instant, newId: string)

  /** The store after the calls, handled one at a time in order. */
  function Run(s: State, calls: seq<Call>): State {
    if calls == [] then s
    else
      var c := calls[|calls| - 1];
      Step(Run(s, calls[..|calls| - 1]), c.req, c.now, c.newId).0
  }

  lemma {:induction false} RunKeepsInvariant(s: State, calls: seq<Call>, id: string)
    requires UniqueIds(s.products) && Balanced(s, id) && NonNegative(s, id)
    requires forall k :: 0 <= k < |calls| ==> Admissible(calls[k].req, calls[k].newId, id)
    ensures var t := Run(s, calls);
      UniqueIds(t.products) && Balanced(t, id) && NonNegative(t, id) && Extends(s, t)
  {
    if calls != [] {
      var before := calls[..|calls| - 1];
      var c := calls[|calls| - 1];
      assert forall k :: 0 <= k < |before| ==> before[k] == calls[k];
      RunKeepsInvariant(s, before, id);
      var u := Run(s, before);
      StepExtends(u, c.req, c.now, c.newId);
      StepKeepsBalance(u, c.req, c.now, c.newId, id);
      StepKeepsNonNegative(u, c.req, c.now, c.newId, id);
    }
  }

  /**
   * A product that starts at zero stock with no logged movements ends, after
   * any admissible sequence of requests, with stock equal to the inbound
   * minus the accepted outbound quantities logged for it on the way, and
   * never below zero.
   */
  lemma StockFollowsLedger(s: State, calls: seq<Call>, i: nat)
    requires UniqueIds(s.products) && i < |s.products|
    requires Stock(s.products[i]) == 0 && Net(s.movements, s.products[i].id) == 0
    requires forall k :: 0 <= k < |calls| ==> Admissible(calls[k].req, calls[k].newId, s.products[i].id)
    ensures var t := Run(s, calls);
      && i < |t.products| && t.products[i].id == s.products[i].id
      && s.movements <= t.movements
      && Stock(t.products[i]) == Net(t.movements[|s.movements|..], s.products[i].id)
      && Stock(t.products[i]) >= 0
  {
    var id := s.products[i].id;
    assert Balanced(s, id) && NonNegative(s, id) by {
      forall j | 0 <= j < |s.products| && s.products[j].id == id
        ensures Stock(s.products[j]) == 0
      {
        assert j == i;
      }
    }
    RunKeepsInvariant(s, calls, id);
    var t := Run(s, calls);
    assert Extends(s, t);
    assert i < |t.products| && t.products[i].id == id;
    assert Stock(t.products[i]) == Net(t.movements, id) && Stock(t.products[i]) >= 0;
    var added := t.movements[|s.movements|..];
    assert t.movements == s.movements + added;
    NetAppend(s.movements, added, id);
    assert Net(t.movements, id) == Net(added, id);
  }

  /**
   * An accepted inbound request raises the statistics' total stock by its
   * quantity and today's inbound count by one, when handled today.
   */
  lemma InboundStatistics(s: State, data: Doc, now: Instant, p: Product, q: int)
    requires GetProduct(s.products, Get(data, "productId")) == Success(p)
    requires Get(data, "quantity") == Some(Int(q))
    ensures var before := ComputeStats(s.products, s.movements, now.day);
      var after := ComputeStats(InboundStep(s, data, now).0.products, InboundStep(s, data, now).0.movements, now.day);
      && after.totalProducts == before.totalProducts
      && after.totalStock == before.totalStock + q
      && after.todayInbound == before.todayInbound + 1
      && after.todayOutbound == before.todayOutbound
  {
    var m := MovementOf(data, "inbound", now);
    var i := IndexOf(s.products, p.id).value;
    InboundAccepted(s, data, now, p, q);
    assert InboundStep(s, data, now).0.products == s.products[i := p.(quantity := Some(Stock(p) + q))];
    TotalStockUpdate(s.products, i, p.(quantity := Some(Stock(p) + q)));
    assert (s.movements + [m])[..|s.movements|] == s.movements;
  }

  /**
   * An accepted outbound request lowers the total stock by its quantity and
   * raises today's outbound count by one.
   */
  lemma OutboundStatistics(s: State, data: Doc, now: Instant, p: Product, q: int)
    requires GetProduct(s.products, Get(data, "productId")) == Success(p)
    requires Get(data, "quantity") == Some(Int(q)) && q <= Stock(p)
    ensures var before := ComputeStats(s.products, s.movements, now.day);
      var after := ComputeStats(OutboundStep(s, data, now).0.products, OutboundStep(s, data, now).0.movements, now.day);
      && after.totalProducts == before.totalProducts
      && after.totalStock == before.totalStock - q
      && after.todayInbound == before.todayInbound
      && after.todayOutbound == before.todayOutbound + 1
  {
    var m := MovementOf(data, "outbound", now);
    var i := IndexOf(s.products, p.id).value;
    OutboundAccepted(s, data, now, p, q);
    assert OutboundStep(s, data, now).0.products == s.products[i := p.(quantity := Some(Stock(p) - q))];
    TotalStockUpdate(s.products, i, p.(quantity := Some(Stock(p) - q)));
    assert (s.movements + [m])[..|s.movements|] == s.movements;
  }

  /**
   * A product holding 5: taking out 3 leaves 2, a second request for 3 is
   * refused and changes nothing, and bringing in 10 gives 12; two movements
   * are logged.
   */
  lemma OutboundThenInboundExample(now: Instant)
    ensures var s0 := State([Product("A", Some(5), map[])], []);
      var take := Request("POST", "/movements/outbound", Some(map["productId" := Str("A"), "quantity" := Int(3)]));
      var bring := Request("POST", "/movements/inbound", Some(map["productId" := Str("A"), "quantity" := Int(10)]));
      var (s1, r1) := Step(s0, take, now, "");
      var (s2, r2) := Step(s1, take, now, "");
      var (s3, r3) := Step(s2, bring, now, "");
      && r1.status == 200 && s1.products == [Product("A", Some(2), map[])]
      && r2 == Response(400, Refused(false, ShortStockMessage)) && s2 == s1
      && r3.status == 200 && s3.products == [Product("A", Some(12), map[])]
      && |s3.movements| == 2
  {
    var a := Product("A", Some(5), map[]);
    var s0 := State([a], []);
    var take := map["productId" := Str("A"), "quantity" := Int(3)];
    var bring := map["productId" := Str("A"), "quantity" := Int(10)];
    var takeReq := Request("POST", "/movements/outbound", Some(take));
    var bringReq := Request("POST", "/movements/inbound", Some(bring));
    assert RouteOf(takeReq.verb, takeReq.path) == RecordOutbound;
    assert RouteOf(bringReq.verb, bringReq.path) == RecordInbound;
    assert Step(s0, takeReq, now, "") == OutboundStep(s0, take, now);
    assert Get(take, "productId") == Some(Str("A")) && Get(take, "quantity") == Some(Int(3));
    assert Get(bring, "productId") == Some(Str("A")) && Get(bring, "quantity") == Some(Int(10));
    assert GetProduct(s0.products, Get(take, "productId")) == Success(a);
    assert IndexOf(s0.products, "A") == Some(0);
    OutboundAccepted(s0, take, now, a, 3);
    var s1 := OutboundStep(s0, take, now).0;
    var a1 := a.(quantity := Some(2));
    assert s1.products == [a1];
    assert IndexOf(s1.products, "A") == Some(0);
    assert Step(s1, takeReq, now, "") == OutboundStep(s1, take, now);
    assert GetProduct(s1.products, Get(take, "productId")) == Success(a1);
    OutboundRefusal(s1, take, now, 3);
    assert Step(s1, bringReq, now, "") == InboundStep(s1, bring, now);
    assert GetProduct(s1.products, Get(bring, "productId")) == Success(a1);
    InboundAccepted(s1, bring, now, a1, 10);
    var s3 := InboundStep(s1, bring, now).0;
    assert s3.products == [a1.(quantity := Some(12))];
    assert |s3.movements| == |s1.movements| + 1 == 2;
  }
}
