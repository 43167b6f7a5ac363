/**
 * The figures the dashboard page shows, computed in the browser from the
 * product and movement documents: total stock, low-stock alerts and the
 * inbound and outbound counts. The rules differ from the backend's
 * statistics: quantities go through `parseInt`, each product may carry its
 * own `min_stock` threshold, and the "today" counts have no date filter.
 */
module Dashboard {
  import opened Wrappers
  import opened JsValue
  import JsString
  import BackendStats

  /** The threshold used when a product's `min_stock` is missing, zero or otherwise falsy. */
  const DefaultMinStock: int := 10

  /** What `parseInt(p.quantity) || 0` adds to the total for one product. */
  function StockOf(p: Doc): int {
    ParseIntOr0(Get(p, "quantity"))
  }

  /** `products.reduce((acc, p) => acc + (parseInt(p.quantity) || 0), 0)`. */
  function TotalStock(ps: seq<Doc>): int {
    if ps == [] then 0 else TotalStock(ps[..|ps| - 1]) + StockOf(ps[|ps| - 1])
  }

  /** `p.quantity < (p.min_stock || 10)`. */
  predicate IsLowStock(p: Doc) {
    Less(Get(p, "quantity"), Some(Or(Get(p, "min_stock"), Int(DefaultMinStock))))
  }

  function LowStockCount(ps: seq<Doc>): (n: nat)
    ensures n <= |ps|
  {
    if ps == [] then 0
    else LowStockCount(ps[..|ps| - 1]) + (if IsLowStock(ps[|ps| - 1]) then 1 else 0)
  }

  /** `movements.filter(m => m.type === t).length`. */
  function CountOfType(ms: seq<Doc>, t: string): (n: nat)
    ensures n <= |ms|
  {
    if ms == [] then 0
    else CountOfType(ms[..|ms| - 1], t) + (if Get(ms[|ms| - 1], "type") == Some(Str(t)) then 1 else 0)
  }

  datatype Figures = Figures(totalStock: int, alerts: nat, todayInbound: nat, todayOutbound: nat)

  /** The four numbers `loadDashboard` writes into the page. */
  function DashboardFigures(ps: seq<Doc>, ms: seq<Doc>): Figures {
    Figures(TotalStock(ps), LowStockCount(ps), CountOfType(ms, "inbound"), CountOfType(ms, "outbound"))
  }

  lemma {:induction false} TotalStockSplit(ps: seq<Doc>, qs: seq<Doc>)
    ensures TotalStock(ps + qs) == TotalStock(ps) + TotalStock(qs)
    decreases |qs|
  {
    if qs == [] {
      assert ps + qs == ps;
    } else {
      assert (ps + qs)[..|ps + qs| - 1] == ps + qs[..|qs| - 1];
      TotalStockSplit(ps, qs[..|qs| - 1]);
    }
  }

  /** Replacing one product changes the total by the difference of what the two contribute. */
  lemma TotalStockUpdate(ps: seq<Doc>, i: nat, p: Doc)
    requires i < |ps|
    ensures TotalStock(ps[i := p]) == TotalStock(ps) - StockOf(ps[i]) + StockOf(p)
  {
    assert ps == ps[..i] + [ps[i]] + ps[i + 1..];
    assert ps[i := p] == ps[..i] + [p] + ps[i + 1..];
    TotalStockSplit(ps[..i] + [ps[i]], ps[i + 1..]);
    TotalStockSplit(ps[..i] + [p], ps[i + 1..]);
    TotalStockSplit(ps[..i], [ps[i]]);
    TotalStockSplit(ps[..i], [p]);
  }

  /** A missing, null or date-valued quantity adds nothing to the total. */
  lemma UnparsableQuantityCountsZero(p: Doc)
    requires Get(p, "quantity").None? || Get(p, "quantity") == Some(Null) || Get(p, "quantity").value.Stamp?
    ensures StockOf(p) == 0
  {
  }

  /**
   * A quantity held as text counts with the number its digits spell, leading
   * white space and trailing non-digits ignored, as `parseInt` reads it.
   */
  lemma QuantityTextCounts(p: Doc, ws: string, n: nat, rest: string)
    requires Get(p, "quantity") == Some(Str(ws + DecimalText(n) + rest))
    requires JsString.AllWhiteSpace(ws) && (rest == [] || (!IsDigit(rest[0], 10) && rest[0] != 'x' && rest[0] != 'X'))
    ensures StockOf(p) == n
  {
    ParseIntOfPaddedDecimal(ws, n, rest);
  }

  /** With an integer quantity and no usable `min_stock`, a product is low exactly when it holds fewer than 10. */
  lemma LowStockByDefault(p: Doc, q: int)
    requires Get(p, "quantity") == Some(Int(q)) && !Truthy(Get(p, "min_stock"))
    ensures IsLowStock(p) <==> q < DefaultMinStock
  {
  }

  /** With integer quantity and a non-zero integer `min_stock`, a product is low exactly when it is below that minimum. */
  lemma LowStockByMinimum(p: Doc, q: int, m: int)
    requires Get(p, "quantity") == Some(Int(q)) && Get(p, "min_stock") == Some(Int(m)) && m != 0
    ensures IsLowStock(p) <==> q < m
  {
  }

  /** With no product low, the alert count is zero, and only then. */
  lemma {:induction false} NoAlertsIff(ps: seq<Doc>)
    ensures LowStockCount(ps) == 0 <==> forall i :: 0 <= i < |ps| ==> !IsLowStock(ps[i])
  {
    if ps != [] {
      NoAlertsIff(ps[..|ps| - 1]);
      assert forall i :: 0 <= i < |ps| - 1 ==> ps[..|ps| - 1][i] == ps[i];
    }
  }

  /**
   * Without a date filter the dashboard's "today" counts are the all-time
   * counts, so they are never below the backend's counts for any one day.
   */
  lemma {:induction false} AllTimeCountsCoverToday(ms: seq<Doc>, t: string, today: int)
    ensures BackendStats.CountMadeOn(ms, t, today) <= CountOfType(ms, t)
  {
    if ms != [] {
      AllTimeCountsCoverToday(ms[..|ms| - 1], t, today);
    }
  }

  /** Each movement counts for at most one of the two types. */
  lemma {:induction false} TypeCountsBounded(ms: seq<Doc>)
    ensures CountOfType(ms, "inbound") + CountOfType(ms, "outbound") <= |ms|
  {
    if ms != [] {
      TypeCountsBounded(ms[..|ms| - 1]);
    }
  }

  /** Empty collections show zero everywhere. */
  lemma FiguresOfEmpty()
    ensures DashboardFigures([], []) == Figures(0, 0, 0, 0)
  {
  }
}
