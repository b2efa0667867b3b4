/** The pieces of JavaScript number and array semantics the Deno handlers rely on:
    `parseInt` results that may be NaN, `Math.ceil(a / b)` with its infinities, the
    `<` comparison against such a value, and `Array.prototype.slice`. */
module Js {

  /** An integer-valued JavaScript number, or NaN. */
  datatype JsInt = Int(v: int) | NaN

  /** The value of `Math.ceil(total / limit)`, which is infinite or NaN when limit is 0. */
  datatype Ceil = Finite(n: int) | PosInfinity | NotANumber

  function Sub(a: JsInt, b: int): JsInt {
    if a.Int? then Int(a.v - b) else NaN
  }

  function Add(a: JsInt, b: JsInt): JsInt {
    if a.Int? && b.Int? then Int(a.v + b.v) else NaN
  }

  function Mul(a: JsInt, b: JsInt): JsInt {
    if a.Int? && b.Int? then Int(a.v * b.v) else NaN
  }

  /** `Math.ceil(total / limit)` for a count `total`. */
  function CeilDiv(total: nat, limit: JsInt): (r: Ceil)
    ensures limit.Int? && limit.v > 0 ==>
      r.Finite? && (r.n - 1) * limit.v < total <= r.n * limit.v
    ensures limit == Int(0) ==> r == (if total > 0 then PosInfinity else NotANumber)
  {
    match limit
    case NaN => NotANumber
    case Int(l) =>
      if l > 0 then Finite((total + l - 1) / l)
      else if l < 0 then Finite(-(total / -l))
      else if total > 0 then PosInfinity
      else NotANumber
  }

  /** With a positive limit, page `page` (counted from 1) starts inside the first `total`
      items exactly when it is at most `Math.ceil(total / limit)`. */
  lemma PageStartsInside(total: nat, limit: int, page: int)
    requires limit > 0 && page >= 1
    ensures (page - 1) * limit < total <==> page <= CeilDiv(total, Int(limit)).n
  {
    var n := CeilDiv(total, Int(limit)).n;
    if page <= n {
      assert (page - 1) * limit <= (n - 1) * limit by {
        MulMonotone(page - 1, n - 1, limit);
      }
    } else {
      assert n * limit <= (page - 1) * limit by {
        MulMonotone(n, page - 1, limit);
      }
    }
  }

  lemma MulMonotone(a: int, b: int, c: nat)
    requires a <= b
    ensures a * c <= b * c
  {
  }

  /** `page < totalPages`: false as soon as either side is NaN. */
  predicate LessThan(a: JsInt, b: Ceil) {
    a.Int? && match b
      case Finite(n) => a.v < n
      case PosInfinity => true
      case NotANumber => false
  }

  /** `page > n`: false for NaN. */
  predicate GreaterThan(a: JsInt, n: int) {
    a.Int? && a.v > n
  }

  /** With a positive limit, `page < Math.ceil(total / limit)` says exactly that some
      item lies beyond page `page`. */
  lemma MorePagesIffMoreItems(total: nat, limit: int, page: int)
    requires limit > 0
    ensures LessThan(Int(page), CeilDiv(total, Int(limit))) <==> page * limit < total
  {
    var n := CeilDiv(total, Int(limit)).n;
    if page < n {
      MulMonotone(page, n - 1, limit);
    } else {
      MulMonotone(n, page, limit);
    }
  }

  /** How `slice` turns one argument into an index: NaN is 0, a negative value counts
      back from the end, and the result is clamped to [0, len]. */
  function SliceIndex(x: JsInt, len: nat): (r: nat)
    ensures r <= len
  {
    match x
    case NaN => 0
    case Int(v) =>
      if v < 0 then (if len + v < 0 then 0 else len + v)
      else if v > len then len
      else v
  }

  /** `s.slice(start, end)` */
  function Slice<T>(s: seq<T>, start: JsInt, end: JsInt): (r: seq<T>)
    ensures var a, b := SliceIndex(start, |s|), SliceIndex(end, |s|);
      |r| == (if a < b then b - a else 0)
    ensures forall i :: 0 <= i < |r| ==> r[i] == s[SliceIndex(start, |s|) + i]
  {
    var a, b := SliceIndex(start, |s|), SliceIndex(end, |s|);
    if a < b then s[a..b] else []
  }

  /** A slice from `start` to `start + limit` never holds more than `limit` elements, and
      for a start inside the sequence it is the contiguous run beginning there. */
  lemma SliceWindow<T>(s: seq<T>, start: int, limit: int)
    requires limit >= 0
    ensures |Slice(s, Int(start), Int(start + limit))| <= limit
    ensures 0 <= start <= |s| ==>
      Slice(s, Int(start), Int(start + limit)) == s[start..if start + limit <= |s| then start + limit else |s|]
  {
  }
}
