/** Small definitions shared by the models: optional values, Python's `int()` truncation
    and its negative-index slices, filters, and sorted logs of instants. */
module Prelude {

  datatype Option<+T> = None | Some(value: T)

  function Max(x: int, y: int): int {
    if x > y then x else y
  }

  function Min(x: int, y: int): int {
    if x < y then x else y
  }

  /** Python's `int(x)` on a float: truncation toward zero. */
  function Truncate(x: real): int {
    if x >= 0.0 then x.Floor else -((-x).Floor)
  }

  /** The integer part: what is cut off is less than one and has the sign of the number. */
  lemma TruncateIsIntegerPart(x: real)
    ensures x >= 0.0 ==> 0.0 <= x - Truncate(x) as real < 1.0 && Truncate(x) >= 0
    ensures x <= 0.0 ==> -1.0 < x - Truncate(x) as real <= 0.0 && Truncate(x) <= 0
  {
  }

  /** Python's `s[i:]`, for any sign of `i`. */
  function SliceFrom<T>(s: seq<T>, i: int): seq<T> {
    if i >= 0 then s[Min(i, |s|)..] else s[Max(0, |s| + i)..]
  }

  /** Python's `s[:i]`, for any sign of `i`. */
  function SliceTo<T>(s: seq<T>, i: int): seq<T> {
    if i >= 0 then s[..Min(i, |s|)] else s[..Max(0, |s| + i)]
  }

  /** The last `n` elements of `s`, or all of `s` when it is shorter. */
  function LastN<T>(s: seq<T>, n: nat): seq<T> {
    if n >= |s| then s else s[|s| - n..]
  }

  function Filter<T>(keep: T -> bool, s: seq<T>): seq<T> {
    if s == [] then []
    else Filter(keep, s[..|s| - 1]) + (if keep(s[|s| - 1]) then [s[|s| - 1]] else [])
  }

  lemma {:induction false} FilterAppend<T>(keep: T -> bool, s: seq<T>, t: seq<T>)
    ensures Filter(keep, s + t) == Filter(keep, s) + Filter(keep, t)
  {
    if t == [] {
      assert s + t == s;
    } else {
      assert (s + t)[..|s + t| - 1] == s + t[..|t| - 1];
      FilterAppend(keep, s, t[..|t| - 1]);
    }
  }

  ghost predicate Sorted(s: seq<real>) {
    forall i, j :: 0 <= i < j < |s| ==> s[i] <= s[j]
  }

  /** Membership tests for intervals of instants, as named predicates for `Filter`. */
  function Within(lo: real, hi: real): real -> bool {
    x => lo <= x <= hi
  }

  function After(lo: real): real -> bool {
    x => x > lo
  }

  function AfterUpTo(lo: real, hi: real): real -> bool {
    x => lo < x <= hi
  }

  /** If any two positions that satisfy `keep` are fewer than n apart, at most n do. */
  lemma {:induction false} SparseFilter<T>(keep: T -> bool, s: seq<T>, n: nat)
    requires forall i, j :: 0 <= i <= j < |s| && keep(s[i]) && keep(s[j]) ==> j - i < n
    ensures |Filter(keep, s)| <= n
  {
    if s != [] {
      if keep(s[|s| - 1]) {
        FilterFrom(keep, s, if |s| > n then |s| - n else 0);
      } else {
        SparseFilter(keep, s[..|s| - 1], n);
      }
    }
  }

  lemma {:induction false} FilterFrom<T>(keep: T -> bool, s: seq<T>, k: nat)
    requires k <= |s| && forall i :: 0 <= i < k ==> !keep(s[i])
    ensures |Filter(keep, s)| <= |s| - k
  {
    if k < |s| {
      FilterFrom(keep, s[..|s| - 1], k);
    } else if s != [] {
      FilterFrom(keep, s[..|s| - 1], k - 1);
    }
  }

  lemma {:induction false} FilterAll<T>(keep: T -> bool, s: seq<T>)
    requires forall i :: 0 <= i < |s| ==> keep(s[i])
    ensures Filter(keep, s) == s
  {
    if s != [] {
      FilterAll(keep, s[..|s| - 1]);
    }
  }

  lemma {:induction false} FilterNone<T>(keep: T -> bool, s: seq<T>)
    requires forall i :: 0 <= i < |s| ==> !keep(s[i])
    ensures Filter(keep, s) == []
  {
    if s != [] {
      FilterNone(keep, s[..|s| - 1]);
    }
  }

  lemma {:induction false} FilterMember<T>(keep: T -> bool, s: seq<T>, x: T)
    ensures x in Filter(keep, s) <==> x in s && keep(x)
  {
    if s != [] {
      FilterMember(keep, s[..|s| - 1], x);
    }
  }

  /** Two predicates that agree on `s` select the same subsequence. */
  lemma {:induction false} FilterSame<T>(keep: T -> bool, also: T -> bool, s: seq<T>)
    requires forall i :: 0 <= i < |s| ==> keep(s[i]) == also(s[i])
    ensures Filter(keep, s) == Filter(also, s)
  {
    if s != [] {
      FilterSame(keep, also, s[..|s| - 1]);
    }
  }

  /** Filtering by a weaker predicate first changes nothing. */
  lemma {:induction false} FilterTwice<T>(weak: T -> bool, strong: T -> bool, s: seq<T>)
    requires forall x :: strong(x) ==> weak(x)
    ensures Filter(strong, Filter(weak, s)) == Filter(strong, s)
  {
    if s != [] {
      var p, x := s[..|s| - 1], s[|s| - 1];
      FilterTwice(weak, strong, p);
      FilterAppend(strong, Filter(weak, p), if weak(x) then [x] else []);
    }
  }
}
