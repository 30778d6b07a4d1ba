/**
 * Small building blocks shared by the model of every service: an Option
 * type, sums and means of real sequences, Python's negative-index slice
 * `s[-n:]`, a sort on reals, Python's `round(x, d)` and Python's
 * lexicographic string order.
 */
module Common {

  datatype Option<T> = None | Some(value: T) {
    /** Python's `d.get(key, default)` once the lookup has produced an Option. */
    function GetOr(default: T): T {
      if Some? then value else default
    }
  }

  /** The outcome of a Python call that either returns or raises. */
  datatype Result<T, E> = Success(value: T) | Failure(error: E)

  // ---------------------------------------------------------------------
  // Sums, means, extrema
  // ---------------------------------------------------------------------

  /** Sum of the sequence, peeled from the end so that a left-to-right
      accumulation loop keeps `acc == Sum(s[..i])`. */
  function Sum(s: seq<real>): real {
    if |s| == 0 then 0.0 else Sum(s[..|s| - 1]) + s[|s| - 1]
  }

  lemma {:induction false} SumAppend(a: seq<real>, b: seq<real>)
    ensures Sum(a + b) == Sum(a) + Sum(b)
    decreases |b|
  {
    if |b| == 0 {
      assert a + b == a;
    } else {
      assert (a + b)[..|a + b| - 1] == a + b[..|b| - 1];
      SumAppend(a, b[..|b| - 1]);
    }
  }

  /** Sum of a prefix extended by one element: the step of an accumulation loop. */
  lemma {:induction false} SumPrefixStep(s: seq<real>, i: nat)
    requires i < |s|
    ensures Sum(s[..i + 1]) == Sum(s[..i]) + s[i]
  {
    assert s[..i + 1][..i] == s[..i];
  }

  /** A sequence that holds one value c everywhere sums to |s| * c. */
  lemma {:induction false} SumConstant(s: seq<real>, c: real)
    requires forall i :: 0 <= i < |s| ==> s[i] == c
    ensures Sum(s) == |s| as real * c
  {
    if |s| > 0 {
      SumConstant(s[..|s| - 1], c);
    }
  }

  /** Sum of a non-empty sequence split after its first element. */
  lemma {:induction false} SumCons(s: seq<real>)
    requires 0 < |s|
    ensures Sum(s) == s[0] + Sum(s[1..])
  {
    assert s == [s[0]] + s[1..];
    SumAppend([s[0]], s[1..]);
    assert [s[0]][..0] == [];
  }

  lemma {:induction false} SumBounds(s: seq<real>, lo: real, hi: real)
    requires forall i :: 0 <= i < |s| ==> lo <= s[i] <= hi
    ensures |s| as real * lo <= Sum(s) <= |s| as real * hi
  {
    if |s| > 0 {
      SumBounds(s[..|s| - 1], lo, hi);
    }
  }

  lemma {:induction false} SumNonNegative(s: seq<real>)
    requires forall i :: 0 <= i < |s| ==> 0.0 <= s[i]
    ensures 0.0 <= Sum(s)
  {
    if |s| > 0 {
      SumNonNegative(s[..|s| - 1]);
    }
  }

  /** numpy's `np.mean` of a non-empty list. */
  function Mean(s: seq<real>): real
    requires |s| > 0
  {
    Sum(s) / |s| as real
  }

  /** A mean lies between any common lower and upper bound of its inputs. */
  lemma {:induction false} MeanBounds(s: seq<real>, lo: real, hi: real)
    requires |s| > 0
    requires forall i :: 0 <= i < |s| ==> lo <= s[i] <= hi
    ensures lo <= Mean(s) <= hi
  {
    SumBounds(s, lo, hi);
    var n := |s| as real;
    assert n * lo <= Sum(s) <= n * hi;
    assert Sum(s) / n >= lo by {
      assert Sum(s) >= n * lo;
    }
    assert Sum(s) / n <= hi by {
      assert Sum(s) <= n * hi;
    }
  }

  function MinOf(s: seq<real>): (m: real)
    requires |s| > 0
    ensures m in s
    ensures forall i :: 0 <= i < |s| ==> m <= s[i]
  {
    if |s| == 1 then s[0]
    else
      var rest := MinOf(s[1..]);
      assert forall i :: 1 <= i < |s| ==> s[i] == s[1..][i - 1];
      if s[0] <= rest then s[0] else rest
  }

  function MaxOf(s: seq<real>): (m: real)
    requires |s| > 0
    ensures m in s
    ensures forall i :: 0 <= i < |s| ==> s[i] <= m
  {
    if |s| == 1 then s[0]
    else
      var rest := MaxOf(s[1..]);
      assert forall i :: 1 <= i < |s| ==> s[i] == s[1..][i - 1];
      if s[0] >= rest then s[0] else rest
  }

  /** Python's `min(a, b)` on numbers. */
  function Min(a: real, b: real): real {
    if a <= b then a else b
  }

  /** Python's `max(lo, min(hi, v))`: clip v into [lo, hi]. */
  function Clip(v: real, lo: real, hi: real): (r: real)
    requires lo <= hi
    ensures lo <= r <= hi
    ensures lo <= v <= hi ==> r == v
  {
    var capped := if hi < v then hi else v;
    if capped < lo then lo else capped
  }

  // ---------------------------------------------------------------------
  // Python slicing with a negative start
  // ---------------------------------------------------------------------

  /** Python's `s[-n:]` for any int n. Because `-0 == 0`, n == 0 keeps the
      whole list; a negative n drops the first -n elements. */
  function PyTail<T>(s: seq<T>, n: int): (r: seq<T>)
    ensures |r| <= |s| && r == s[|s| - |r|..]
    ensures n > 0 ==> |r| == (if n < |s| then n else |s|)
    ensures n == 0 ==> r == s
    ensures n < 0 ==> |r| == (if -n >= |s| then 0 else |s| + n)
  {
    if n > 0 then (if n >= |s| then s else s[|s| - n..])
    else if n == 0 then s
    else if -n >= |s| then []
    else s[-n..]
  }

  /** Python's `s[:m]` for any int m: the first m elements (all of them when
      m reaches |s|), and for a negative m all but the last -m. */
  function PyHead<T>(s: seq<T>, m: int): (r: seq<T>)
    ensures |r| <= |s| && r == s[..|r|]
    ensures 0 <= m ==> |r| == (if m < |s| then m else |s|)
    ensures m < 0 ==> |r| == (if -m >= |s| then 0 else |s| + m)
  {
    if 0 <= m then (if m < |s| then s[..m] else s)
    else if -m >= |s| then []
    else s[..|s| + m]
  }

  /** Python's `s[start:stop]` for non-negative bounds (both are clamped to |s|). */
  function PySlice<T>(s: seq<T>, start: nat, stop: nat): (r: seq<T>)
    ensures start <= stop <= |s| ==> r == s[start..stop]
    ensures stop <= start ==> r == []
  {
    var hi := if stop < |s| then stop else |s|;
    if start >= hi then [] else s[start..hi]
  }

  // ---------------------------------------------------------------------
  // Sorting reals (numpy's np.sort / torch.sort along the client axis)
  // ---------------------------------------------------------------------

  predicate Sorted(s: seq<real>) {
    forall i, j :: 0 <= i < j < |s| ==> s[i] <= s[j]
  }

  function Insert(x: real, s: seq<real>): (r: seq<real>)
    requires Sorted(s)
    ensures Sorted(r)
    ensures multiset(r) == multiset(s) + multiset{x}
    ensures |r| == |s| + 1
  {
    if |s| == 0 then [x]
    else if x <= s[0] then [x] + s
    else
      assert s == [s[0]] + s[1..];
      var tail := Insert(x, s[1..]);
      InsertKeepsLowerBound(s[0], x, s[1..], tail);
      [s[0]] + tail
  }

  /** An element below x and below every element of s is below every element of s with x inserted. */
  lemma {:induction false} InsertKeepsLowerBound(lo: real, x: real, s: seq<real>, r: seq<real>)
    requires lo <= x && forall k :: 0 <= k < |s| ==> lo <= s[k]
    requires multiset(r) == multiset(s) + multiset{x}
    ensures forall k :: 0 <= k < |r| ==> lo <= r[k]
  {
    forall k | 0 <= k < |r|
      ensures lo <= r[k]
    {
      assert r[k] in multiset(r);
      assert r[k] == x || r[k] in multiset(s);
      if r[k] != x {
        assert r[k] in s;
      }
    }
  }

  /** Ascending sort: a sorted permutation of the input. */
  function Sort(s: seq<real>): (r: seq<real>)
    ensures Sorted(r)
    ensures multiset(r) == multiset(s)
    ensures |r| == |s|
  {
    if |s| == 0 then []
    else
      assert s == [s[0]] + s[1..];
      Insert(s[0], Sort(s[1..]))
  }

  lemma {:induction false} SumSingleton(x: real)
    ensures Sum([x]) == x
  {
    assert [x][..0] == [];
  }

  lemma {:induction false} SumSplit(b: seq<real>, p: nat)
    requires p <= |b|
    ensures Sum(b) == Sum(b[..p]) + Sum(b[p..])
  {
    assert b == b[..p] + b[p..];
    SumAppend(b[..p], b[p..]);
  }

  /** Taking one element out of a sequence takes it out of the sum. */
  lemma {:induction false} SumRemoveAt(b: seq<real>, p: nat)
    requires p < |b|
    ensures Sum(b) == Sum(b[..p] + b[p + 1..]) + b[p]
  {
    SumSplit(b, p);
    SumCons(b[p..]);
    assert b[p..][1..] == b[p + 1..];
    SumAppend(b[..p], b[p + 1..]);
  }

  /** Taking one element out of a sequence takes it out of its multiset. */
  lemma {:induction false} MultisetRemoveAt(b: seq<real>, p: nat)
    requires p < |b|
    ensures multiset(b[..p] + b[p + 1..]) == multiset(b) - multiset{b[p]}
  {
    assert b == b[..p] + [b[p]] + b[p + 1..];
    assert multiset(b) == multiset(b[..p]) + multiset{b[p]} + multiset(b[p + 1..]);
  }

  /** Reordering does not change a sum. */
  lemma {:induction false} SumPermutation(a: seq<real>, b: seq<real>)
    requires multiset(a) == multiset(b)
    ensures Sum(a) == Sum(b)
    decreases |a|
  {
    if |a| > 0 {
      var x := a[|a| - 1];
      var rest := a[..|a| - 1];
      assert a == rest + [x];
      assert multiset(rest) == multiset(a) - multiset{x};
      assert x in multiset(b);
      var p :| 0 <= p < |b| && b[p] == x;
      MultisetRemoveAt(b, p);
      SumPermutation(rest, b[..p] + b[p + 1..]);
      SumRemoveAt(b, p);
    }
  }

  /** Every element of a permutation of s lies between s's minimum and maximum. */
  lemma {:induction false} PermutationBounds(s: seq<real>, r: seq<real>, k: nat)
    requires |s| > 0 && multiset(r) == multiset(s) && k < |r|
    ensures MinOf(s) <= r[k] <= MaxOf(s)
  {
    assert r[k] in multiset(r);
    assert r[k] in multiset(s);
    assert r[k] in s;
  }

  // ---------------------------------------------------------------------
  // Python's round(x, d): nearest multiple of 10^-d, ties to even
  // ---------------------------------------------------------------------

  function Pow10(d: nat): (p: real)
    ensures p >= 1.0
  {
    if d == 0 then 1.0 else 10.0 * Pow10(d - 1)
  }

  /** Nearest integer, ties broken towards the even neighbour. */
  function RoundHalfEven(x: real): (n: int)
    ensures x - 0.5 <= n as real <= x + 0.5
    ensures x == x.Floor as real ==> n == x.Floor
  {
    var f := x.Floor;
    var frac := x - f as real;
    if frac < 0.5 then f
    else if frac > 0.5 then f + 1
    else if f % 2 == 0 then f
    else f + 1
  }

  /** `round(x, d)`: never further than half a unit in the last place. */
  function RoundTo(x: real, d: nat): (r: real)
    ensures x - 0.5 / Pow10(d) <= r <= x + 0.5 / Pow10(d)
  {
    var p := Pow10(d);
    var n := RoundHalfEven(x * p);
    assert x * p - 0.5 <= n as real <= x * p + 0.5;
    assert (x * p - 0.5) / p == x - 0.5 / p;
    assert (x * p + 0.5) / p == x + 0.5 / p;
    DivMonotone(x * p - 0.5, n as real, p);
    DivMonotone(n as real, x * p + 0.5, p);
    n as real / p
  }

  lemma {:induction false} DivMonotone(a: real, b: real, p: real)
    requires p > 0.0 && a <= b
    ensures a / p <= b / p
  {
  }

  /** A share of a positive whole lies in [0, 1]. */
  lemma {:induction false} UnitRatio(a: real, b: real)
    requires 0.0 <= a <= b && 0.0 < b
    ensures 0.0 <= a / b <= 1.0
  {
    DivMonotone(0.0, a, b);
    DivMonotone(a, b, b);
    assert b / b == 1.0;
  }

  // ---------------------------------------------------------------------
  // Python's string comparison (lexicographic by code point)
  // ---------------------------------------------------------------------

  /** Python's `a < b` on str. (Dafny's own `<` on sequences means proper prefix.) */
  predicate LexLess(a: string, b: string)
    decreases |a|
  {
    if |b| == 0 then false
    else if |a| == 0 then true
    else if a[0] != b[0] then a[0] < b[0]
    else LexLess(a[1..], b[1..])
  }

  lemma {:induction false} LexLessIrreflexive(a: string)
    ensures !LexLess(a, a)
    decreases |a|
  {
    if |a| > 0 {
      LexLessIrreflexive(a[1..]);
    }
  }

  lemma {:induction false} LexLessTransitive(a: string, b: string, c: string)
    requires LexLess(a, b) && LexLess(b, c)
    ensures LexLess(a, c)
    decreases |a|
  {
    if |a| > 0 && a[0] == b[0] && b[0] == c[0] {
      LexLessTransitive(a[1..], b[1..], c[1..]);
    }
  }
}
