/** `backoffice/src/components/dashboard/ProductChart.tsx`: products counted into five
    fixed price ranges, with each range's share of all products and its bar width. */
module ProductChart {
  import opened Lists
  import opened Catalog

  /** A range's upper end; the last one is `Infinity`. */
  datatype Upper = AtMost(max: real) | Unbounded

  datatype Range = Range(min: real, max: Upper, caption: string)

  datatype Bucket = Bucket(range: string, count: nat, percentage: real)

  /** The five ranges in their declared order. Their bounds leave gaps: a price strictly
      between 50 and 50.01 (or 100 and 100.01, ...) and a negative price fall in none. */
  const Ranges: seq<Range> := [
    Range(0.0, AtMost(50.0), "$0 - $50"),
    Range(50.01, AtMost(100.0), "$50 - $100"),
    Range(100.01, AtMost(200.0), "$100 - $200"),
    Range(200.01, AtMost(500.0), "$200 - $500"),
    Range(500.01, Unbounded, "$500+")
  ]

  /** `product.price >= range.min && product.price <= range.max` */
  predicate InRange(r: Range, price: real) {
    r.min <= price && (r.max.Unbounded? || price <= r.max.max)
  }

  function InRangeFn(r: Range): Product -> bool {
    (p: Product) => InRange(r, p.price)
  }

  /** `products.length > 0 ? (count / products.length) * 100 : 0` */
  function Percentage(count: nat, n: nat): (r: real)
    ensures n == 0 ==> r == 0.0
    ensures n > 0 ==> r * (n as real) == (count as real) * 100.0
    ensures count <= n ==> 0.0 <= r <= 100.0
  {
    if n > 0 then (count as real) / (n as real) * 100.0 else 0.0
  }

  /** `rangeCounts`: one bucket per range, in order. */
  function Buckets(ps: seq<Product>): (b: seq<Bucket>)
    ensures |b| == 5
    ensures forall k :: 0 <= k < 5 ==>
      b[k].range == Ranges[k].caption && b[k].count == |Filter(ps, InRangeFn(Ranges[k]))|
      && b[k].percentage == Percentage(b[k].count, |ps|)
  {
    seq(5, k requires 0 <= k < 5 =>
      var count := Count(ps, InRangeFn(Ranges[k]));
      Bucket(Ranges[k].caption, count, Percentage(count, |ps|)))
  }

  /** No price lies in two ranges. */
  lemma RangesDisjoint(price: real)
    ensures forall k, l :: 0 <= k < l < 5 ==> !(InRange(Ranges[k], price) && InRange(Ranges[l], price))
  {
  }

  /** The prices no range counts: below 0, and the gaps above 50, 100, 200 and 500. */
  lemma UncountedPrices(price: real)
    requires price < 0.0 || 50.0 < price < 50.01 || 100.0 < price < 100.01
          || 200.0 < price < 200.01 || 500.0 < price < 500.01
    ensures forall k :: 0 <= k < 5 ==> !InRange(Ranges[k], price)
  {
  }

  /** How many ranges contain a price: 0 or 1. */
  function Hits(price: real): (n: nat)
    ensures n <= 1
  {
    RangesDisjoint(price);
    (if InRange(Ranges[0], price) then 1 else 0) + (if InRange(Ranges[1], price) then 1 else 0)
    + (if InRange(Ranges[2], price) then 1 else 0) + (if InRange(Ranges[3], price) then 1 else 0)
    + (if InRange(Ranges[4], price) then 1 else 0)
  }

  /** The five counts together. */
  function CountSum(b: seq<Bucket>): nat
    requires |b| == 5
  {
    b[0].count + b[1].count + b[2].count + b[3].count + b[4].count
  }

  /** The first product adds its number of hits to the five counts. */
  lemma CountSumStep(ps: seq<Product>)
    requires |ps| > 0
    ensures CountSum(Buckets(ps)) == Hits(ps[0].price) + CountSum(Buckets(ps[1..]))
  {
    var b, c := Buckets(ps), Buckets(ps[1..]);
    forall k | 0 <= k < 5
      ensures b[k].count == (if InRange(Ranges[k], ps[0].price) then 1 else 0) + c[k].count
    {
      assert b[k].count == Count(ps, InRangeFn(Ranges[k]));
      assert c[k].count == Count(ps[1..], InRangeFn(Ranges[k]));
    }
  }

  /** The bucket counts add up to at most the number of products (the "Total" line),
      with equality exactly when no price falls in a gap or below 0. */
  lemma {:induction false} CountSumBounded(ps: seq<Product>)
    ensures CountSum(Buckets(ps)) <= |ps|
    ensures CountSum(Buckets(ps)) == |ps| <==> forall i :: 0 <= i < |ps| ==> Hits(ps[i].price) == 1
    decreases |ps|
  {
    if |ps| > 0 {
      CountSumBounded(ps[1..]);
      CountSumStep(ps);
      if forall i :: 0 <= i < |ps| ==> Hits(ps[i].price) == 1 {
        assert forall i :: 0 <= i < |ps[1..]| ==> Hits(ps[1..][i].price) == 1 by {
          forall i | 0 <= i < |ps[1..]| ensures Hits(ps[1..][i].price) == 1 {
            assert ps[1..][i] == ps[i + 1];
          }
        }
      } else {
        var i :| 0 <= i < |ps| && Hits(ps[i].price) != 1;
        if i > 0 {
          assert ps[1..][i - 1] == ps[i];
        }
      }
    }
  }

  /** The bar width `maxCount > 0 ? (count / maxCount) * 100 : 0`. */
  function BarWidth(count: nat, maxCount: nat): (w: real)
    ensures maxCount == 0 ==> w == 0.0
    ensures 0 < maxCount && count <= maxCount ==> 0.0 <= w <= 100.0
    ensures 0 < maxCount && count == maxCount ==> w == 100.0
  {
    if maxCount > 0 then (count as real) / (maxCount as real) * 100.0 else 0.0
  }

  /** `Math.max(...chartData.map(item => item.count))` over the five buckets. */
  function MaxCount(b: seq<Bucket>): (m: nat)
    requires |b| == 5
    ensures forall k :: 0 <= k < 5 ==> b[k].count <= m
    ensures exists k :: 0 <= k < 5 && b[k].count == m
  {
    var m01 := if b[0].count >= b[1].count then b[0].count else b[1].count;
    var m23 := if b[2].count >= b[3].count then b[2].count else b[3].count;
    var m03 := if m01 >= m23 then m01 else m23;
    if m03 >= b[4].count then m03 else b[4].count
  }
}
