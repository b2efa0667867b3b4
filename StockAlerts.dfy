/** `backoffice/src/components/dashboard/StockAlerts.tsx`: the low-stock and out-of-stock
    lists, the first three entries of each and the "+N más" overflow line. */
module StockAlerts {
  import opened Wrappers
  import opened Lists
  import opened Catalog
  import opened DashboardStats

  datatype Alerts = Alerts(lowStock: seq<Product>, outOfStock: seq<Product>)

  /** The two `filter`s of `fetchStockAlerts`, each keeping the input order. */
  function ComputeAlerts(ps: seq<Product>): (a: Alerts)
    ensures forall i :: 0 <= i < |a.lowStock| ==> a.lowStock[i] in ps && 0.0 < a.lowStock[i].stock <= 10.0
    ensures forall i :: 0 <= i < |a.outOfStock| ==> a.outOfStock[i] in ps && a.outOfStock[i].stock == 0.0
    ensures forall i :: 0 <= i < |ps| && 0.0 < ps[i].stock <= 10.0 ==> ps[i] in a.lowStock
    ensures forall i :: 0 <= i < |ps| && ps[i].stock == 0.0 ==> ps[i] in a.outOfStock
  {
    Alerts(Filter(ps, IsLowStock), Filter(ps, IsOutOfStock))
  }

  /** `totalAlerts`: the two list lengths added. */
  function TotalAlerts(a: Alerts): nat {
    |a.lowStock| + |a.outOfStock|
  }

  /** No product is in both lists, a product with negative stock is in neither, and so
      the alerts never outnumber the products. */
  lemma AlertsPartition(ps: seq<Product>)
    ensures var a := ComputeAlerts(ps);
      && (forall i, j :: 0 <= i < |a.lowStock| && 0 <= j < |a.outOfStock| ==> a.lowStock[i] != a.outOfStock[j])
      && (forall i :: 0 <= i < |ps| && ps[i].stock < 0.0 ==> ps[i] !in a.lowStock && ps[i] !in a.outOfStock)
      && TotalAlerts(a) <= |ps|
  {
    CountDisjoint(ps, IsLowStock, IsOutOfStock);
  }

  /** Both lists keep the order of the product list: filtering a concatenation filters
      each part. */
  lemma AlertsKeepOrder(ps: seq<Product>, qs: seq<Product>)
    ensures ComputeAlerts(ps + qs).lowStock == ComputeAlerts(ps).lowStock + ComputeAlerts(qs).lowStock
    ensures ComputeAlerts(ps + qs).outOfStock == ComputeAlerts(ps).outOfStock + ComputeAlerts(qs).outOfStock
  {
    FilterConcat(ps, qs, IsLowStock);
    FilterConcat(ps, qs, IsOutOfStock);
  }

  /** `list.slice(0, 3)`: the entries shown. */
  function Shown(list: seq<Product>): (r: seq<Product>)
    ensures |r| <= 3 && |r| <= |list|
    ensures r == list[..|r|]
    ensures |list| >= 3 ==> |r| == 3
  {
    if |list| <= 3 then list else list[..3]
  }

  /** `list.length > 3 && "+{list.length - 3} más"`: the overflow count, when shown. */
  function Overflow(list: seq<Product>): (r: Option<nat>)
    ensures r.Some? <==> |list| > 3
  {
    if |list| > 3 then Some(|list| - 3) else None
  }

  /** The entries shown and the overflow count account for the whole list. */
  lemma ShownPlusOverflow(list: seq<Product>)
    ensures |Shown(list)| + Overflow(list).GetOr(0) == |list|
    ensures Overflow(list).Some? ==> Overflow(list).value >= 1
  {
  }
}
