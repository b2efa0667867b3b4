/** `backoffice/src/components/dashboard/DashboardStats.tsx`: the four summary cards
    computed from the product list in `fetchStats`. */
module DashboardStats {
  import opened Lists
  import opened Catalog

  datatype Stats = Stats(totalProducts: nat, totalValue: real, lowStock: nat, outOfStock: nat, averagePrice: real)

  /** `product.stock > 0 && product.stock <= 10` */
  predicate IsLowStock(p: Product) {
    0.0 < p.stock <= 10.0
  }

  /** `product.stock === 0` */
  predicate IsOutOfStock(p: Product) {
    p.stock == 0.0
  }

  /** `products.reduce((sum, p) => sum + p.price * p.stock, 0)`: the stock's worth. */
  function TotalValue(ps: seq<Product>): real
    decreases |ps|
  {
    if |ps| == 0 then 0.0 else TotalValue(ps[..|ps| - 1]) + ps[|ps| - 1].price * ps[|ps| - 1].stock
  }

  /** The worth of a list is the worth of its parts. */
  lemma {:induction false} TotalValueConcat(a: seq<Product>, b: seq<Product>)
    ensures TotalValue(a + b) == TotalValue(a) + TotalValue(b)
    decreases |b|
  {
    if |b| == 0 {
      assert a + b == a;
    } else {
      assert (a + b)[..|a + b| - 1] == a + b[..|b| - 1];
      TotalValueConcat(a, b[..|b| - 1]);
    }
  }

  /** With no negative prices or stock, the worth is never negative. */
  lemma {:induction false} TotalValueNonNegative(ps: seq<Product>)
    requires forall i :: 0 <= i < |ps| ==> ps[i].price >= 0.0 && ps[i].stock >= 0.0
    ensures TotalValue(ps) >= 0.0
    decreases |ps|
  {
    if |ps| > 0 {
      TotalValueNonNegative(ps[..|ps| - 1]);
      var p := ps[|ps| - 1];
      assert p.price * p.stock >= 0.0;
    }
  }

  /** No product is both low on stock and out of stock. */
  lemma AlertCountsBounded(ps: seq<Product>)
    ensures Count(ps, IsLowStock) + Count(ps, IsOutOfStock) <= |ps|
  {
    forall x | x in ps ensures !(IsLowStock(x) && IsOutOfStock(x)) {
    }
    CountDisjoint(ps, IsLowStock, IsOutOfStock);
  }

  /** `totalValue / totalProducts` when there are products, 0 otherwise. */
  function Average(value: real, n: nat): (a: real)
    ensures n == 0 ==> a == 0.0
    ensures n > 0 ==> a * (n as real) == value
  {
    if n > 0 then value / (n as real) else 0.0
  }

  /** The statistics of `fetchStats`. `averagePrice` is the worth per product (0 for no
      products), not the mean price. Low stock and out of stock never overlap, so
      together they count at most every product. */
  function ComputeStats(ps: seq<Product>): (s: Stats)
    ensures s.totalProducts == |ps| && s.totalValue == TotalValue(ps)
    ensures s.lowStock == |Filter(ps, IsLowStock)| && s.outOfStock == |Filter(ps, IsOutOfStock)|
    ensures s.lowStock + s.outOfStock <= s.totalProducts
    ensures s.averagePrice == Average(s.totalValue, s.totalProducts)
  {
    AlertCountsBounded(ps);
    var value := TotalValue(ps);
    Stats(|ps|, value, Count(ps, IsLowStock), Count(ps, IsOutOfStock), Average(value, |ps|))
  }
}
