/** Array operations shared by the handlers and the dashboard: `filter`, the reversal an
    `ORDER BY id DESC` produces, `find`, and counting with a predicate. */
module Lists {
  import opened Wrappers

  /** `s.filter(p)` */
  function Filter<T>(s: seq<T>, p: T -> bool): (r: seq<T>)
    ensures |r| <= |s|
    ensures forall i :: 0 <= i < |r| ==> r[i] in s && p(r[i])
    ensures forall i :: 0 <= i < |s| && p(s[i]) ==> s[i] in r
    decreases |s|
  {
    if |s| == 0 then []
    else if p(s[0]) then [s[0]] + Filter(s[1..], p)
    else Filter(s[1..], p)
  }

  /** Filtering distributes over concatenation, so it keeps the input order. */
  lemma {:induction false} FilterConcat<T>(s: seq<T>, t: seq<T>, p: T -> bool)
    ensures Filter(s + t, p) == Filter(s, p) + Filter(t, p)
    decreases |s|
  {
    if |s| == 0 {
      assert s + t == t;
    } else {
      assert (s + t)[1..] == s[1..] + t;
      FilterConcat(s[1..], t, p);
    }
  }

  /** Filtering drops something exactly when some element fails the predicate. */
  lemma {:induction false} FilterDrops<T>(s: seq<T>, p: T -> bool)
    ensures |Filter(s, p)| < |s| <==> exists i :: 0 <= i < |s| && !p(s[i])
    decreases |s|
  {
    if |s| > 0 {
      FilterDrops(s[1..], p);
      if exists i :: 0 <= i < |s[1..]| && !p(s[1..][i]) {
        var i :| 0 <= i < |s[1..]| && !p(s[1..][i]);
        assert !p(s[i + 1]);
      }
      if exists i :: 0 <= i < |s| && !p(s[i]) {
        var i :| 0 <= i < |s| && !p(s[i]);
        if i > 0 {
          assert !p(s[1..][i - 1]);
        }
      }
    }
  }

  /** Filtering by `p` and then by `q` is filtering once by their conjunction `r`. */
  lemma {:induction false} FilterAnd<T>(s: seq<T>, p: T -> bool, q: T -> bool, r: T -> bool)
    requires forall x :: r(x) == (p(x) && q(x))
    ensures Filter(Filter(s, p), q) == Filter(s, r)
    decreases |s|
  {
    if |s| > 0 {
      FilterAnd(s[1..], p, q, r);
    }
  }

  /** Filtering by two predicates that agree everywhere gives the same result. */
  lemma {:induction false} FilterSame<T>(s: seq<T>, p: T -> bool, q: T -> bool)
    requires forall x :: p(x) == q(x)
    ensures Filter(s, p) == Filter(s, q)
    decreases |s|
  {
    if |s| > 0 {
      FilterSame(s[1..], p, q);
    }
  }

  /** Filtering by a predicate that holds everywhere on `s` changes nothing. */
  lemma {:induction false} FilterAll<T>(s: seq<T>, p: T -> bool)
    requires forall i :: 0 <= i < |s| ==> p(s[i])
    ensures Filter(s, p) == s
    decreases |s|
  {
    if |s| > 0 {
      FilterAll(s[1..], p);
    }
  }

  /** The number of elements that satisfy `p`: `s.filter(p).length`. */
  function Count<T>(s: seq<T>, p: T -> bool): (n: nat)
    ensures n == |Filter(s, p)|
    ensures n <= |s|
    decreases |s|
  {
    if |s| == 0 then 0 else (if p(s[0]) then 1 else 0) + Count(s[1..], p)
  }

  /** Two predicates that never hold together count at most the whole sequence. */
  lemma {:induction false} CountDisjoint<T>(s: seq<T>, p: T -> bool, q: T -> bool)
    requires forall x :: x in s ==> !(p(x) && q(x))
    ensures Count(s, p) + Count(s, q) <= |s|
    decreases |s|
  {
    if |s| > 0 {
      assert s[0] in s;
      CountDisjoint(s[1..], p, q);
    }
  }

  /** `s` read back to front: what `ORDER BY id DESC` returns for a table kept in
      ascending id order. */
  function Reverse<T>(s: seq<T>): (r: seq<T>)
    ensures |r| == |s|
    ensures forall i :: 0 <= i < |s| ==> r[i] == s[|s| - 1 - i]
    decreases |s|
  {
    if |s| == 0 then [] else Reverse(s[1..]) + [s[0]]
  }

  /** The index of the first element satisfying `p`, as SQL's first matching row. */
  function FindFirst<T>(s: seq<T>, p: T -> bool): (r: Option<nat>)
    ensures r.Some? ==> (r.value < |s| && p(s[r.value])
                         && forall j :: 0 <= j < r.value ==> !p(s[j]))
    ensures r.None? ==> forall j :: 0 <= j < |s| ==> !p(s[j])
    decreases |s|
  {
    if |s| == 0 then None
    else if p(s[0]) then Some(0)
    else match FindFirst(s[1..], p)
      case None => None
      case Some(i) => Some(i + 1)
  }

  /** Appending an element that satisfies `p` to a sequence with no match makes that
      element the first match. */
  lemma {:induction false} FindFirstAppend<T>(s: seq<T>, x: T, p: T -> bool)
    requires FindFirst(s, p).None? && p(x)
    ensures FindFirst(s + [x], p) == Some(|s|)
    decreases |s|
  {
    if |s| > 0 {
      assert (s + [x])[1..] == s[1..] + [x];
      FindFirstAppend(s[1..], x, p);
    }
  }

  /** The elements' keys strictly increase along the sequence. */
  predicate IncreasingBy<T>(s: seq<T>, key: T -> int) {
    forall i, j :: 0 <= i < j < |s| ==> key(s[i]) < key(s[j])
  }

  /** Filtering keeps a strictly increasing order. */
  lemma {:induction false} FilterIncreasing<T>(s: seq<T>, p: T -> bool, key: T -> int)
    requires IncreasingBy(s, key)
    ensures IncreasingBy(Filter(s, p), key)
    decreases |s|
  {
    if |s| > 0 {
      FilterIncreasing(s[1..], p, key);
      var r := Filter(s[1..], p);
      if p(s[0]) {
        forall j | 0 < j < |r| + 1 ensures key(s[0]) < key(([s[0]] + r)[j]) {
          assert r[j - 1] in s[1..];
        }
      }
    }
  }
}
