/**
 * The `GET /stats` figures: a fold over the product table and two filters
 * over the movement log. "Today" is the day number of the current instant,
 * and a stored `createdAt` stamp belongs to today when its day is that number.
 */
module BackendStats {
  import opened Wrappers
  import opened JsValue
  import opened BackendStore

  datatype Stats = Stats(
    totalProducts: nat,
    totalStock: int,
    lowStockCount: nat,
    todayInbound: nat,
    todayOutbound: nat)

  /** The fixed low-stock threshold of the backend. */
  const LowStockThreshold: int := 10

  /** `reduce((sum, p) => sum + (p.quantity || 0), 0)`. */
  function TotalStock(ps: seq<Product>): int {
    if ps == [] then 0 else TotalStock(ps[..|ps| - 1]) + Stock(ps[|ps| - 1])
  }

  /** `p.quantity < 10`, compared the way JavaScript compares a number or null. */
  predicate IsLowStock(p: Product) {
    Less(Some(QuantityValue(p)), Some(Int(LowStockThreshold)))
  }

  function LowStockCount(ps: seq<Product>): (n: nat)
    ensures n <= |ps|
  {
    if ps == [] then 0
    else LowStockCount(ps[..|ps| - 1]) + (if IsLowStock(ps[|ps| - 1]) then 1 else 0)
  }

  /** A movement of type `t` whose `createdAt` stamp falls on day `today`. */
  predicate MadeOn(m: Doc, t: string, today: int) {
    Get(m, "type") == Some(Str(t))
    && match Get(m, "createdAt")
      case Some(Stamp(at)) => at.day == today
      case _ => false
  }

  function CountMadeOn(ms: seq<Doc>, t: string, today: int): (n: nat)
    ensures n <= |ms|
  {
    if ms == [] then 0
    else CountMadeOn(ms[..|ms| - 1], t, today) + (if MadeOn(ms[|ms| - 1], t, today) then 1 else 0)
  }

  /** The response body of `GET /stats`. */
  function ComputeStats(ps: seq<Product>, ms: seq<Doc>, today: int): Stats {
    Stats(|ps|, TotalStock(ps), LowStockCount(ps),
          CountMadeOn(ms, "inbound", today), CountMadeOn(ms, "outbound", today))
  }

  /** The JavaScript comparison with 10 agrees with the integer one on stock levels. */
  lemma IsLowStockIff(p: Product)
    ensures IsLowStock(p) <==> Stock(p) < LowStockThreshold
  {
  }

  /** Empty collections give all-zero statistics. */
  lemma StatsOfEmpty(today: int)
    ensures ComputeStats([], [], today) == Stats(0, 0, 0, 0, 0)
  {
  }

  /** The total is a sum with missing quantities counted as zero: the sum of `Stock`. */
  lemma {:induction false} TotalStockSplit(ps: seq<Product>, qs: seq<Product>)
    ensures TotalStock(ps + qs) == TotalStock(ps) + TotalStock(qs)
    decreases |qs|
  {
    if qs == [] {
      assert ps + qs == ps;
    } else {
      assert (ps + qs)[..|ps + qs| - 1] == ps + qs[..|qs| - 1];
      TotalStockSplit(ps, qs[..|qs| - 1]);
    }
  }

  /** Changing one product changes the total by the difference of its stock. */
  lemma TotalStockUpdate(ps: seq<Product>, i: nat, p: Product)
    requires i < |ps|
    ensures TotalStock(ps[i := p]) == TotalStock(ps) - Stock(ps[i]) + Stock(p)
  {
    assert ps == ps[..i] + [ps[i]] + ps[i + 1..];
    assert ps[i := p] == ps[..i] + [p] + ps[i + 1..];
    TotalStockSplit(ps[..i] + [ps[i]], ps[i + 1..]);
    TotalStockSplit(ps[..i] + [p], ps[i + 1..]);
    TotalStockSplit(ps[..i], [ps[i]]);
    TotalStockSplit(ps[..i], [p]);
  }

  /** A product with a quantity of at least 10, and only such a product, is not counted as low. */
  lemma {:induction false} LowStockCountZero(ps: seq<Product>)
    ensures LowStockCount(ps) == 0 <==> forall i :: 0 <= i < |ps| ==> Stock(ps[i]) >= LowStockThreshold
  {
    if ps != [] {
      LowStockCountZero(ps[..|ps| - 1]);
      IsLowStockIff(ps[|ps| - 1]);
      assert forall i :: 0 <= i < |ps| - 1 ==> ps[..|ps| - 1][i] == ps[i];
    }
  }

  /** Each movement is counted at most once, under its own type. */
  lemma {:induction false} TodayCountsBounded(ms: seq<Doc>, today: int)
    ensures CountMadeOn(ms, "inbound", today) + CountMadeOn(ms, "outbound", today) <= |ms|
  {
    if ms != [] {
      TodayCountsBounded(ms[..|ms| - 1], today);
    }
  }

  /** The count is zero exactly when no movement of that type carries today's stamp. */
  lemma {:induction false} CountMadeOnZero(ms: seq<Doc>, t: string, today: int)
    ensures CountMadeOn(ms, t, today) == 0 <==> forall i :: 0 <= i < |ms| ==> !MadeOn(ms[i], t, today)
  {
    if ms != [] {
      CountMadeOnZero(ms[..|ms| - 1], t, today);
      assert forall i :: 0 <= i < |ms| - 1 ==> ms[..|ms| - 1][i] == ms[i];
    }
  }
}
