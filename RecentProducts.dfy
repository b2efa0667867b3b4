/** `backoffice/src/components/dashboard/RecentProducts.tsx`: the five most recently
    created products, newest first, and the relative day labels of `formatDate`. */
module RecentProducts {
  import opened Catalog

  /** Creation instants never increase along the sequence. */
  predicate NewestFirst(s: seq<Product>) {
    forall k, l :: 0 <= k < l < |s| ==> s[k].createdAt >= s[l].createdAt
  }

  /** Exchanges the products at `j - 1` and `j`. */
  method Swap(a: array<Product>, j: int)
    requires 0 < j < a.Length
    modifies a
    ensures a[..] == old(a[..])[j - 1 := old(a[j])][j := old(a[j - 1])]
    ensures multiset(a[..]) == multiset(old(a[..]))
  {
    a[j - 1], a[j] := a[j], a[j - 1];
  }

  /** Moves `a[i]` left past the strictly older products before it, so that the first
      `i + 1` products are newest first. */
  method Insert(a: array<Product>, i: int)
    requires 0 < i < a.Length && NewestFirst(a[..i])
    modifies a
    ensures NewestFirst(a[..i + 1])
    ensures multiset(a[..]) == multiset(old(a[..]))
  {
    var j := i;
    while j > 0 && a[j - 1].createdAt < a[j].createdAt
      invariant 0 <= j <= i
      invariant forall k, l :: 0 <= k < l <= i && k != j && l != j ==> a[k].createdAt >= a[l].createdAt
      invariant forall l :: j < l <= i ==> a[j].createdAt > a[l].createdAt
      invariant multiset(a[..]) == multiset(old(a[..]))
    {
      Swap(a, j);
      j := j - 1;
    }
  }

  /** `products.sort((a, b) => b.created_at - a.created_at)`: an in-place sort, newest
      first, that only reorders the products. */
  method SortNewestFirst(a: array<Product>)
    modifies a
    ensures NewestFirst(a[..])
    ensures multiset(a[..]) == multiset(old(a[..]))
  {
    if a.Length == 0 {
      return;
    }
    var i := 1;
    while i < a.Length
      invariant 1 <= i <= a.Length
      invariant NewestFirst(a[..i])
      invariant multiset(a[..]) == multiset(old(a[..]))
    {
      Insert(a, i);
      i := i + 1;
    }
    assert a[..] == a[..a.Length];
  }

  /** `sortedProducts` of `fetchRecentProducts`: sort in place, then `slice(0, 5)`. The
      result holds min(5, n) products, newest first, and no product left out is newer
      than one kept. */
  method Recent(a: array<Product>) returns (r: seq<Product>)
    modifies a
    ensures |r| == if a.Length < 5 then a.Length else 5
    ensures NewestFirst(r)
    ensures multiset(a[..]) == multiset(old(a[..])) && r == a[..|r|]
    ensures forall k, l :: 0 <= k < |r| <= l < a.Length ==> r[k].createdAt >= a[l].createdAt
  {
    SortNewestFirst(a);
    r := if a.Length < 5 then a[..] else a[..5];
  }

  // ---------------------------------------------------------------- formatDate

  const Day: int := 1000 * 60 * 60 * 24

  /** What `formatDate` renders: "Hoy", "Ayer", "Hace n días", or the absolute date. */
  datatype DateLabel = Today | Yesterday | DaysAgo(n: int) | Absolute(instant: int)

  /** `Math.ceil(Math.abs(now - date) / day)` */
  function DiffDays(date: int, now: int): (d: nat)
    ensures (d - 1) * Day < (if now >= date then now - date else date - now) <= d * Day
            || (d == 0 && now == date)
  {
    var diff := if now >= date then now - date else date - now;
    (diff + Day - 1) / Day
  }

  function FormatDate(date: int, now: int): (l: DateLabel)
    ensures DiffDays(date, now) == 1 <==> l == Today
    ensures DiffDays(date, now) == 2 <==> l == Yesterday
    ensures l.DaysAgo? <==> DiffDays(date, now) != 1 && DiffDays(date, now) != 2 && DiffDays(date, now) <= 7
    ensures l.DaysAgo? ==> l.n == DiffDays(date, now) - 1
    ensures l.Absolute? ==> l.instant == date
  {
    var d := DiffDays(date, now);
    if d == 1 then Today
    else if d == 2 then Yesterday
    else if d <= 7 then DaysAgo(d - 1)
    else Absolute(date)
  }

  /** A product created at this very instant has difference 0, which falls into the
      "Hace n días" branch with n = -1. */
  lemma SameInstantIsMinusOneDays(t: int)
    ensures FormatDate(t, t) == DaysAgo(-1)
  {
  }

  /** Anything up to one whole day away, in either direction, is "Hoy". */
  lemma WithinADayIsToday(date: int, now: int)
    requires date != now && -Day <= now - date <= Day
    ensures FormatDate(date, now) == Today
  {
  }

  /** Because of the absolute value, a future date gets the label of the past date
      equally far away. */
  lemma FutureLikePast(now: int, offset: nat)
    ensures DiffDays(now + offset, now) == DiffDays(now - offset, now)
    ensures FormatDate(now + offset, now).Absolute? || FormatDate(now + offset, now) == FormatDate(now - offset, now)
  {
  }
}
