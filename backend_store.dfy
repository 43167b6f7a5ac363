/**
 * The document database behind the backend function, reduced to the two
 * collections the stock rules touch: the product table and the movement log.
 * The database calls the handler makes (list, get, create, update) are here
 * both as functions on a `State` value and as methods of `Database`, the
 * in-memory store the handler talks to.
 */
module BackendStore {
  import opened Wrappers
  import opened JsValue

  /**
   * A product document. `quantity` is `None` when the database holds null
   * for that attribute; `attrs` are the product's other attributes.
   */
  datatype Product = Product(id: string, quantity: Option<int>, attrs: Doc)

  /**
   * The stock level the handlers compute with: `product.quantity || 0`, which
   * is also the number a null quantity becomes under `<` and `-`.
   */
  function Stock(p: Product): int {
    p.quantity.GetOr(0)
  }

  /** The quantity attribute as a JSON value: null when it is unset. */
  function QuantityValue(p: Product): Value {
    match p.quantity
    case Some(n) => Int(n)
    case None => Null
  }

  /** The document listDocuments returns for a product. */
  function ProductDoc(p: Product): Doc {
    p.attrs["$id" := Str(p.id)]["quantity" := QuantityValue(p)]
  }

  function ProductDocs(ps: seq<Product>): (docs: seq<Doc>)
    ensures |docs| == |ps|
    ensures forall i :: 0 <= i < |ps| ==> docs[i] == ProductDoc(ps[i])
  {
    if ps == [] then [] else [ProductDoc(ps[0])] + ProductDocs(ps[1..])
  }

  /** Why the database refuses a call. */
  datatype DbError = DocumentNotFound | InvalidStructure | DocumentAlreadyExists

  /** The contents of the two collections. */
  datatype State = State(products: seq<Product>, movements: seq<Doc>)

  /** Document ids are unique within a collection. */
  ghost predicate UniqueIds(ps: seq<Product>) {
    forall i, j :: 0 <= i < j < |ps| ==> ps[i].id != ps[j].id
  }

  /** The position of the product with this id. */
  function IndexOf(ps: seq<Product>, id: string): (r: Option<nat>)
    ensures r.Some? ==> r.value < |ps| && ps[r.value].id == id
    ensures r.Some? ==> forall j :: 0 <= j < r.value ==> ps[j].id != id
    ensures r.None? <==> forall j :: 0 <= j < |ps| ==> ps[j].id != id
  {
    if ps == [] then None
    else if ps[0].id == id then Some(0)
    else match IndexOf(ps[1..], id)
      case None => None
      case Some(k) => Some(k + 1)
  }

  /**
   * `getDocument(products, id)` on the in-memory store: the product whose
   * id is the string `id`; the store matches string ids only, so any other
   * id, `undefined` included, is not found.
   */
  function GetProduct(ps: seq<Product>, id: Option<Value>): (r: Result<Product, DbError>)
    ensures r.Success? <==> exists j :: 0 <= j < |ps| && id == Some(Str(ps[j].id))
    ensures r.Success? ==>
      (id == Some(Str(r.value.id)) && IndexOf(ps, r.value.id).Some?
       && ps[IndexOf(ps, r.value.id).value] == r.value)
    ensures r.Failure? ==> r.error == DocumentNotFound
  {
    if id.Some? && id.value.Str? then
      match IndexOf(ps, id.value.s)
      case Some(i) => Success(ps[i])
      case None => Failure(DocumentNotFound)
    else Failure(DocumentNotFound)
  }

  /**
   * Of the movement attributes the schema declares, the two the handlers
   * depend on: a string `productId` and an integer `quantity`, both
   * required. A document without them is refused.
   */
  predicate IsValidMovement(d: Doc) {
    "productId" in d && d["productId"].Str? && "quantity" in d && d["quantity"].Int?
  }

  /** `updateDocument(products, id, {quantity: q})`. */
  function SetQuantity(ps: seq<Product>, id: string, q: int): (r: Result<seq<Product>, DbError>)
    ensures r.Success? <==> IndexOf(ps, id).Some?
    ensures r.Success? ==>
      (|r.value| == |ps|
       && r.value[IndexOf(ps, id).value] == ps[IndexOf(ps, id).value].(quantity := Some(q))
       && forall j :: 0 <= j < |ps| && j != IndexOf(ps, id).value ==> r.value[j] == ps[j])
    ensures r.Failure? ==> r.error == DocumentNotFound
  {
    match IndexOf(ps, id)
    case Some(i) => Success(ps[i := ps[i].(quantity := Some(q))])
    case None => Failure(DocumentNotFound)
  }

  /**
   * `createDocument(products, id, data)`: an id already in use is a
   * conflict, and the schema's integer `quantity` must be present.
   */
  function NewProduct(ps: seq<Product>, id: string, data: Doc): (r: Result<Product, DbError>)
    ensures r.Success? <==> IndexOf(ps, id).None? && Get(data, "quantity").Some? && Get(data, "quantity").value.Int?
    ensures r.Success? ==> r.value.id == id && r.value.quantity == Some(data["quantity"].n)
    ensures r.Success? ==> ProductDoc(r.value) == data["$id" := Str(id)]
  {
    if IndexOf(ps, id).Some? then Failure(DocumentAlreadyExists)
    else match Get(data, "quantity")
      case Some(Int(n)) => Success(Product(id, Some(n), data - {"$id", "quantity"}))
      case _ => Failure(InvalidStructure)
  }

  /** The in-memory store the backend handler reads and writes. */
  class Database {
    var products: seq<Product>
    var movements: seq<Doc>

    ghost predicate Valid()
      reads this
    {
      UniqueIds(products)
    }

    function Snapshot(): State
      reads this
    {
      State(products, movements)
    }

    constructor (products: seq<Product>, movements: seq<Doc>)
      requires UniqueIds(products)
      ensures Valid() && Snapshot() == State(products, movements)
    {
      this.products := products;
      this.movements := movements;
    }

    /** `listDocuments(products)`. */
    method ListProducts() returns (docs: seq<Product>)
      ensures docs == products
    {
      docs := products;
    }

    /** `listDocuments(movements)`. */
    method ListMovements() returns (docs: seq<Doc>)
      ensures docs == movements
    {
      docs := movements;
    }

    /** `getDocument(products, id)`. */
    method GetDocument(id: Option<Value>) returns (r: Result<Product, DbError>)
      ensures r == GetProduct(products, id)
    {
      r := Failure(DocumentNotFound);
      if id.Some? && id.value.Str? {
        var i := 0;
        while i < |products|
          invariant 0 <= i <= |products|
          invariant forall j :: 0 <= j < i ==> products[j].id != id.value.s
        {
          if products[i].id == id.value.s {
            r := Success(products[i]);
            return;
          }
          i := i + 1;
        }
      }
    }

    /** `createDocument(movements, ID.unique(), data)`: appends to the log. */
    method CreateMovement(data: Doc) returns (r: Result<Doc, DbError>)
      modifies this
      ensures products == old(products)
      ensures r == if IsValidMovement(data) then Success(data) else Failure(InvalidStructure)
      ensures movements == if r.Success? then old(movements) + [data] else old(movements)
    {
      if IsValidMovement(data) {
        movements := movements + [data];
        r := Success(data);
      } else {
        r := Failure(InvalidStructure);
      }
    }

    /** `updateDocument(products, id, {quantity: q})`. */
    method UpdateQuantity(id: string, q: int) returns (r: Result<Product, DbError>)
      requires Valid()
      modifies this
      ensures Valid() && movements == old(movements)
      ensures match SetQuantity(old(products), id, q)
        case Success(ps) => products == ps && r.Success? && r.value == ps[IndexOf(ps, id).value]
        case Failure(e) => products == old(products) && r == Failure(e)
    {
      var i := IndexOf(products, id);
      if i.Some? {
        var p := products[i.value].(quantity := Some(q));
        products := products[i.value := p];
        r := Success(p);
      } else {
        r := Failure(DocumentNotFound);
      }
    }

    /** `createDocument(products, id, data)`. */
    method CreateProduct(id: string, data: Doc) returns (r: Result<Product, DbError>)
      requires Valid()
      modifies this
      ensures Valid() && movements == old(movements)
      ensures r == NewProduct(old(products), id, data)
      ensures products == if r.Success? then old(products) + [r.value] else old(products)
    {
      r := NewProduct(products, id, data);
      if r.Success? {
        products := products + [r.value];
      }
    }
  }
}
