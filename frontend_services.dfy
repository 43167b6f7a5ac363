/**
 * The browser side's data services and its inbound form. In demo mode the
 * documents live in local storage, one list per collection under the key
 * `wms_<collection>`; otherwise they live in the database. Both stores are
 * modelled as maps from a key to the list of documents stored there.
 *
 * `Documents`, `CreateStep` and `SubmitStep` state what reading, creating
 * and submitting the inbound form do; `DataServices` performs them.
 */
module FrontendServices {
  import opened Wrappers
  import opened JsValue
  import Dashboard

  /** The local storage key of a collection. */
  function StorageKey(c: string): string {
    "wms_" + c
  }

  /** The contents of local storage (already parsed) and of the database's collections. */
  datatype Stores = Stores(local: map<string, seq<Doc>>, remote: map<string, seq<Doc>>)

  function Lookup(m: map<string, seq<Doc>>, k: string): seq<Doc> {
    if k in m then m[k] else []
  }

  /**
   * `getDocuments(c)`: in demo mode the stored list, or none when the key is
   * absent; otherwise the collection, or none when the database call fails.
   */
  function Documents(demo: bool, st: Stores, c: string): seq<Doc> {
    if demo then Lookup(st.local, StorageKey(c)) else Lookup(st.remote, c)
  }

  /**
   * The document demo mode stores: a generated `$id`, then every field of
   * `data` (so a `$id` in `data` wins), then the creation stamp (so
   * `$createdAt` is always the store's own).
   */
  function NewDemoDoc(data: Doc, id: string, now: Instant): (d: Doc)
    ensures d.Keys == data.Keys + {"$id", "$createdAt"}
    ensures d["$createdAt"] == Stamp(now)
    ensures d["$id"] == if "$id" in data then data["$id"] else Str(id)
    ensures forall k :: k in data && k != "$createdAt" ==> d[k] == data[k]
  {
    (map["$id" := Str(id)] + data)["$createdAt" := Stamp(now)]
  }

  /** The document the database stores: `data` with the id and creation stamp the server assigns. */
  function NewServerDoc(data: Doc, id: string, now: Instant): Doc {
    data["$id" := Str(id)]["$createdAt" := Stamp(now)]
  }

  datatype ServiceError = CollectionNotFound

  /** `createDocument(c, data)`: demo mode always succeeds; the database refuses an unknown collection. */
  function CreateStep(demo: bool, st: Stores, c: string, data: Doc, id: string, now: Instant)
    : (Stores, Result<Doc, ServiceError>)
  {
    if demo then
      var d := NewDemoDoc(data, id, now);
      (st.(local := st.local[StorageKey(c) := Documents(demo, st, c) + [d]]), Success(d))
    else if c in st.remote then
      var d := NewServerDoc(data, id, now);
      (st.(remote := st.remote[c := st.remote[c] + [d]]), Success(d))
    else (st, Failure(CollectionNotFound))
  }

  /** `products.find(p => p.$id === id)`: the position of the first product with that id. */
  function FindById(ps: seq<Doc>, id: string): (r: Option<nat>)
    ensures r.Some? ==> r.value < |ps| && Get(ps[r.value], "$id") == Some(Str(id))
    ensures r.Some? ==> forall j :: 0 <= j < r.value ==> Get(ps[j], "$id") != Some(Str(id))
    ensures r.None? <==> forall j :: 0 <= j < |ps| ==> Get(ps[j], "$id") != Some(Str(id))
  {
    if ps == [] then None
    else if Get(ps[0], "$id") == Some(Str(id)) then Some(0)
    else match FindById(ps[1..], id)
      case None => None
      case Some(k) => Some(k + 1)
  }

  /**
   * The movement the inbound form records. `productName` is the product's
   * name, `Unknown` without a product, and absent when the product has no
   * name (an undefined property does not survive storage).
   */
  function InboundData(ps: seq<Doc>, productId: string, qty: int): Doc
  {
    var base := map["type" := Str("inbound"), "productId" := Str(productId),
                    "quantity" := Int(qty), "status" := Str("completed")];
    match FindById(ps, productId)
    case None => base["productName" := Str("Unknown")]
    case Some(i) => if "name" in ps[i] then base["productName" := ps[i]["name"]] else base
  }

  /**
   * The recorded movement is a completed inbound movement of `qty` for the
   * chosen product, named after it, or `Unknown` when it is missing.
   */
  lemma InboundDataFields(ps: seq<Doc>, productId: string, qty: int)
    ensures var d := InboundData(ps, productId, qty);
      && "$id" !in d && "$createdAt" !in d
      && Get(d, "type") == Some(Str("inbound")) && Get(d, "status") == Some(Str("completed"))
      && Get(d, "productId") == Some(Str(productId)) && Get(d, "quantity") == Some(Int(qty))
      && Get(d, "productName") == match FindById(ps, productId)
           case None => Some(Str("Unknown"))
           case Some(i) => Get(ps[i], "name")
  {
  }

  /**
   * How a submission of the inbound form ends: nothing done, both writes
   * made, the product missing when its quantity is read (a TypeError), or a
   * database call refused.
   */
  datatype Outcome = Ignored | Recorded | MissingProduct | Refused

  /**
   * The inbound form: record the movement, then raise the product's
   * quantity. Demo mode writes the whole product list back; otherwise only
   * the product's quantity is updated.
   */
  function SubmitStep(demo: bool, st: Stores, productId: string, qty: int, id: string, now: Instant)
    : (Stores, Outcome)
  {
    if productId == "" then (st, Ignored)
    else
      var ps := Documents(demo, st, "products");
      var (logged, created) := CreateStep(demo, st, "movements", InboundData(ps, productId, qty), id, now);
      if created.Failure? then (logged, Refused)
      else match FindById(ps, productId)
        case None => (logged, MissingProduct)
        case Some(i) => RaiseStep(demo, logged, ps, i, qty)
  }

  /**
   * The second half of the inbound form, once the product `ps[i]` is found:
   * demo mode parses the old quantity and writes the whole list back; the
   * database takes `quantity || 0` plus `qty`, and refuses the result unless
   * that is a number.
   */
  function RaiseStep(demo: bool, st: Stores, ps: seq<Doc>, i: nat, qty: int): (Stores, Outcome)
    requires i < |ps|
  {
    if demo then
      var updated := ps[i := ps[i]["quantity" := Int(Dashboard.StockOf(ps[i]) + qty)]];
      (st.(local := st.local[StorageKey("products") := updated]), Recorded)
    else match Or(Get(ps[i], "quantity"), Int(0))
      case Int(n) =>
        var updated := ps[i := ps[i]["quantity" := Int(n + qty)]];
        (st.(remote := st.remote["products" := updated]), Recorded)
      case _ => (st, Refused)
  }

  /** Distinct collections have distinct storage keys. */
  lemma StorageKeyInjective(c: string, e: string)
    ensures StorageKey(c) == StorageKey(e) ==> c == e
  {
    assert StorageKey(c)[4..] == c && StorageKey(e)[4..] == e;
  }

  /**
   * Creating in demo mode always succeeds and appends exactly the new
   * document to that collection's list, keeping every earlier document;
   * no other collection and nothing in the database changes.
   */
  lemma DemoCreateAppends(st: Stores, c: string, data: Doc, id: string, now: Instant)
    ensures var (t, r) := CreateStep(true, st, c, data, id, now);
      && r == Success(NewDemoDoc(data, id, now))
      && Documents(true, t, c) == Documents(true, st, c) + [r.value]
      && |Documents(true, t, c)| == |Documents(true, st, c)| + 1
      && (forall e :: e != c ==> Documents(true, t, e) == Documents(true, st, e))
      && t.remote == st.remote
  {
    forall e | e != c
      ensures Documents(true, CreateStep(true, st, c, data, id, now).0, e) == Documents(true, st, e)
    {
      StorageKeyInjective(c, e);
    }
  }

  /** Creating in the database appends to an existing collection, and fails, changing nothing, for any other. */
  lemma ServerCreate(st: Stores, c: string, data: Doc, id: string, now: Instant)
    ensures var (t, r) := CreateStep(false, st, c, data, id, now);
      && (c in st.remote <==> r.Success?)
      && (r.Success? ==>
            r.value == NewServerDoc(data, id, now) && Documents(false, t, c) == Documents(false, st, c) + [r.value])
      && (forall e :: e != c ==> Documents(false, t, e) == Documents(false, st, e))
      && t.local == st.local
  {
  }

  /** Submitting without a chosen product does nothing. */
  lemma SubmitWithoutProduct(demo: bool, st: Stores, qty: int, id: string, now: Instant)
    ensures SubmitStep(demo, st, "", qty, id, now) == (st, Ignored)
  {
  }

  /**
   * A demo submission for an existing product appends the movement to the
   * movement list and sets that one product's quantity to its parsed old
   * quantity plus `qty`, leaving the other products alone.
   */
  lemma DemoSubmitRecorded(st: Stores, productId: string, qty: int, id: string, now: Instant, i: nat)
    requires productId != "" && FindById(Documents(true, st, "products"), productId) == Some(i)
    ensures var (t, o) := SubmitStep(true, st, productId, qty, id, now);
      var ps := Documents(true, st, "products");
      && o == Recorded
      && Documents(true, t, "movements")
         == Documents(true, st, "movements") + [NewDemoDoc(InboundData(ps, productId, qty), id, now)]
      && Documents(true, t, "products") == ps[i := ps[i]["quantity" := Int(Dashboard.StockOf(ps[i]) + qty)]]
  {
    StorageKeyInjective("products", "movements");
    DemoCreateAppends(st, "movements", InboundData(Documents(true, st, "products"), productId, qty), id, now);
  }

  /** After a demo submission the dashboard's total rises by exactly `qty`. */
  lemma DemoSubmitTotal(st: Stores, productId: string, qty: int, id: string, now: Instant, i: nat)
    requires productId != "" && FindById(Documents(true, st, "products"), productId) == Some(i)
    ensures Dashboard.TotalStock(Documents(true, SubmitStep(true, st, productId, qty, id, now).0, "products"))
      == Dashboard.TotalStock(Documents(true, st, "products")) + qty
  {
    var ps := Documents(true, st, "products");
    var t := SubmitStep(true, st, productId, qty, id, now).0;
    DemoSubmitRecorded(st, productId, qty, id, now, i);
    assert Documents(true, t, "products") == ps[i := ps[i]["quantity" := Int(Dashboard.StockOf(ps[i]) + qty)]];
    Dashboard.TotalStockUpdate(ps, i, ps[i]["quantity" := Int(Dashboard.StockOf(ps[i]) + qty)]);
  }

  /** After a demo submission the dashboard's inbound count rises by one. */
  lemma DemoSubmitInboundCount(st: Stores, productId: string, qty: int, id: string, now: Instant, i: nat)
    requires productId != "" && FindById(Documents(true, st, "products"), productId) == Some(i)
    ensures Dashboard.CountOfType(Documents(true, SubmitStep(true, st, productId, qty, id, now).0, "movements"), "inbound")
      == Dashboard.CountOfType(Documents(true, st, "movements"), "inbound") + 1
  {
    var ms := Documents(true, st, "movements");
    var m := NewDemoDoc(InboundData(Documents(true, st, "products"), productId, qty), id, now);
    DemoSubmitRecorded(st, productId, qty, id, now, i);
    InboundDataFields(Documents(true, st, "products"), productId, qty);
    assert (ms + [m])[..|ms|] == ms;
  }

  /**
   * A demo submission for a product that is not there still appends the
   * movement, named `Unknown`, and then fails before touching any product.
   */
  lemma DemoSubmitUnknownProduct(st: Stores, productId: string, qty: int, id: string, now: Instant)
    requires productId != "" && FindById(Documents(true, st, "products"), productId).None?
    ensures var (t, o) := SubmitStep(true, st, productId, qty, id, now);
      && o == MissingProduct
      && Documents(true, t, "movements") == Documents(true, st, "movements")
           + [NewDemoDoc(InboundData(Documents(true, st, "products"), productId, qty), id, now)]
      && Documents(true, t, "products") == Documents(true, st, "products")
  {
    StorageKeyInjective("products", "movements");
    DemoCreateAppends(st, "movements", InboundData(Documents(true, st, "products"), productId, qty), id, now);
  }

  /**
   * For a product whose quantity is an integer, both modes set it to the
   * old quantity plus `qty`: `parseInt(q) || 0` and `q || 0` agree on integers.
   */
  lemma ModesAgreeOnIntegerQuantity(demo: bool, st: Stores, productId: string, qty: int, id: string, now: Instant, i: nat, q: int)
    requires productId != "" && FindById(Documents(demo, st, "products"), productId) == Some(i)
    requires Get(Documents(demo, st, "products")[i], "quantity") == Some(Int(q))
    requires !demo ==> "movements" in st.remote
    ensures var (t, o) := SubmitStep(demo, st, productId, qty, id, now);
      var ps := Documents(demo, st, "products");
      o == Recorded && Documents(demo, t, "products") == ps[i := ps[i]["quantity" := Int(q + qty)]]
  {
    StorageKeyInjective("products", "movements");
  }

  /** The data services of one page: the mode it runs in and the two stores. */
  class DataServices {
    const demo: bool
    var local: map<string, seq<Doc>>
    var remote: map<string, seq<Doc>>

    function Snapshot(): Stores
      reads this
    {
      Stores(local, remote)
    }

    constructor (demo: bool, st: Stores)
      ensures this.demo == demo && Snapshot() == st
    {
      this.demo := demo;
      local := st.local;
      remote := st.remote;
    }

    method GetDocuments(c: string) returns (docs: seq<Doc>)
      ensures docs == Documents(demo, Snapshot(), c)
    {
      if demo {
        var key := StorageKey(c);
        docs := if key in local then local[key] else [];
      } else {
        docs := if c in remote then remote[c] else [];
      }
    }

    method CreateDocument(c: string, data: Doc, id: string, now: Instant) returns (r: Result<Doc, ServiceError>)
      modifies this
      ensures (Snapshot(), r) == CreateStep(demo, old(Snapshot()), c, data, id, now)
    {
      if demo {
        var docs := GetDocuments(c);
        var d := NewDemoDoc(data, id, now);
        docs := docs + [d];
        local := local[StorageKey(c) := docs];
        r := Success(d);
      } else if c in remote {
        var d := NewServerDoc(data, id, now);
        remote := remote[c := remote[c] + [d]];
        r := Success(d);
      } else {
        r := Failure(CollectionNotFound);
      }
    }

    /** `loadDashboard`: the figures over the current products and movements. */
    method LoadDashboard() returns (f: Dashboard.Figures)
      ensures f == Dashboard.DashboardFigures(Documents(demo, Snapshot(), "products"), Documents(demo, Snapshot(), "movements"))
    {
      var products := GetDocuments("products");
      var movements := GetDocuments("movements");
      f := Dashboard.DashboardFigures(products, movements);
    }

    /** The inbound form's submit handler. */
    method SubmitInbound(productId: string, qty: int, id: string, now: Instant) returns (outcome: Outcome)
      modifies this
      ensures (Snapshot(), outcome) == SubmitStep(demo, old(Snapshot()), productId, qty, id, now)
    {
      if productId == "" {
        return Ignored;
      }
      var products := GetDocuments("products");
      var i := 0;
      while i < |products| && Get(products[i], "$id") != Some(Str(productId))
        invariant 0 <= i <= |products|
        invariant forall j :: 0 <= j < i ==> Get(products[j], "$id") != Some(Str(productId))
      {
        i := i + 1;
      }
      assert i < |products| <==> FindById(products, productId).Some?;
      assert i < |products| ==> FindById(products, productId) == Some(i);
      var created := CreateDocument("movements", InboundData(products, productId, qty), id, now);
      if created.Failure? {
        return Refused;
      }
      if i == |products| {
        return MissingProduct;
      }
      outcome := RaiseQuantity(products, i, qty);
    }

    /** The stock update of the inbound form, for the product `ps[i]` it found. */
    method RaiseQuantity(ps: seq<Doc>, i: nat, qty: int) returns (outcome: Outcome)
      requires i < |ps|
      modifies this
      ensures (Snapshot(), outcome) == RaiseStep(demo, old(Snapshot()), ps, i, qty)
    {
      var products := ps;
      if demo {
        products := products[i := products[i]["quantity" := Int(Dashboard.StockOf(products[i]) + qty)]];
        local := local[StorageKey("products") := products];
        return Recorded;
      }
      var current := Or(Get(products[i], "quantity"), Int(0));
      if !current.Int? {
        return Refused;
      }
      products := products[i := products[i]["quantity" := Int(current.n + qty)]];
      remote := remote["products" := products];
      outcome := Recorded;
    }
  }
}
