/** Optional values: a JavaScript field or result that may be absent (`undefined`/`null`). */
module Wrappers {
  datatype Option<+T> = None | Some(value: T) {
    /** The value, or `default` when absent: the JavaScript idiom `x || default`
        for values whose falsy cases coincide with absence in this model. */
    function GetOr(default: T): T {
      match this
      case Some(v) => v
      case None => default
    }
  }
}

/** Left folds over sequences: the `reduce((sum, x) => sum + f(x), 0)`,
    `filter(p)` and `filter(p).length` idioms used throughout the application. */
module Folds {

  /** `s.reduce((sum, x) => sum + f(x), 0)`, folded from the left. */
  function Sum<T>(s: seq<T>, f: T -> real): real
  {
    if s == [] then 0.0 else Sum(s[..|s| - 1], f) + f(s[|s| - 1])
  }

  /** `s.filter(p)`: the elements satisfying `p`, in their original order. */
  function Filter<T>(s: seq<T>, p: T -> bool): (r: seq<T>)
    ensures |r| <= |s|
    ensures forall x :: x in r ==> x in s && p(x)
  {
    if s == [] then [] else Filter(s[..|s| - 1], p) + (if p(s[|s| - 1]) then [s[|s| - 1]] else [])
  }

  /** An element is kept by the filter exactly when it is in the sequence and satisfies the predicate. */
  lemma {:induction false} FilterMembership<T>(s: seq<T>, p: T -> bool, x: T)
    ensures x in Filter(s, p) <==> x in s && p(x)
  {
    if s != [] {
      var init := s[..|s| - 1];
      FilterMembership(init, p, x);
      assert s == init + [s[|s| - 1]];
    }
  }

  /** A filter that every element passes keeps the whole sequence. */
  lemma {:induction false} FilterKeepsAll<T>(s: seq<T>, p: T -> bool)
    requires forall x :: x in s ==> p(x)
    ensures Filter(s, p) == s
  {
    if s != [] {
      var init := s[..|s| - 1];
      FilterKeepsAll(init, p);
      assert s == init + [s[|s| - 1]];
    }
  }

  /** A filter that no element passes keeps nothing. */
  lemma {:induction false} FilterNone<T>(s: seq<T>, p: T -> bool)
    requires forall x :: x in s ==> !p(x)
    ensures Filter(s, p) == []
  {
    if s != [] {
      FilterNone(s[..|s| - 1], p);
    }
  }

  /** `s.filter(p).length`. */
  function Count<T>(s: seq<T>, p: T -> bool): nat
  {
    |Filter(s, p)|
  }

  /** Two predicates no element satisfies together count at most the whole sequence. */
  lemma {:induction false} CountDisjoint<T>(s: seq<T>, p: T -> bool, q: T -> bool)
    requires forall x :: !(p(x) && q(x))
    ensures Count(s, p) + Count(s, q) <= |s|
  {
    if s != [] {
      CountDisjoint(s[..|s| - 1], p, q);
    }
  }

  lemma {:induction false} SumAppend<T>(a: seq<T>, b: seq<T>, f: T -> real)
    ensures Sum(a + b, f) == Sum(a, f) + Sum(b, f)
  {
    if b == [] {
      assert a + b == a;
    } else {
      assert (a + b)[..|a + b| - 1] == a + b[..|b| - 1];
      SumAppend(a, b[..|b| - 1], f);
    }
  }

  lemma {:induction false} FilterAppend<T>(a: seq<T>, b: seq<T>, p: T -> bool)
    ensures Filter(a + b, p) == Filter(a, p) + Filter(b, p)
  {
    if b == [] {
      assert a + b == a;
    } else {
      assert (a + b)[..|a + b| - 1] == a + b[..|b| - 1];
      FilterAppend(a, b[..|b| - 1], p);
    }
  }

  /** Summing over a filtered sequence is summing with the filtered-out elements counted as zero. */
  lemma {:induction false} SumFilter<T>(s: seq<T>, p: T -> bool, f: T -> real, g: T -> real)
    requires forall x :: g(x) == if p(x) then f(x) else 0.0
    ensures Sum(Filter(s, p), f) == Sum(s, g)
  {
    if s != [] {
      var init, last := s[..|s| - 1], s[|s| - 1];
      SumFilter(init, p, f, g);
      SumAppend(Filter(init, p), if p(last) then [last] else [], f);
      if p(last) {
        assert Sum([last], f) == f(last) by { assert [last][..0] == []; }
      }
    }
  }

  lemma {:induction false} SumNonNegative<T>(s: seq<T>, f: T -> real)
    requires forall x :: x in s ==> f(x) >= 0.0
    ensures Sum(s, f) >= 0.0
  {
    if s != [] {
      SumNonNegative(s[..|s| - 1], f);
    }
  }

  /** A pointwise smaller summand gives a smaller sum. */
  lemma {:induction false} SumMonotone<T>(s: seq<T>, f: T -> real, g: T -> real)
    requires forall x :: x in s ==> f(x) <= g(x)
    ensures Sum(s, f) <= Sum(s, g)
  {
    if s != [] {
      SumMonotone(s[..|s| - 1], f, g);
    }
  }

  /** With non-negative summands, a filtered sum never exceeds the full sum. */
  lemma FilteredSumAtMostTotal<T>(s: seq<T>, p: T -> bool, f: T -> real)
    requires forall x :: x in s ==> f(x) >= 0.0
    ensures 0.0 <= Sum(Filter(s, p), f) <= Sum(s, f)
  {
    var g := x => if p(x) then f(x) else 0.0;
    SumFilter(s, p, f, g);
    SumMonotone(s, g, f);
    SumNonNegative(s, g);
  }

  /** Replacing one element changes the sum by the difference of the two summands. */
  lemma {:induction false} SumUpdate<T>(s: seq<T>, k: nat, v: T, f: T -> real)
    requires k < |s|
    ensures Sum(s[k := v], f) == Sum(s, f) - f(s[k]) + f(v)
  {
    var n := |s| - 1;
    if k < n {
      assert s[k := v][..n] == s[..n][k := v];
      SumUpdate(s[..n], k, v, f);
    } else {
      assert s[k := v][..n] == s[..n];
    }
  }

  /** Replacing one element changes the count by whether the old and the new element satisfy the predicate. */
  lemma {:induction false} CountUpdate<T>(s: seq<T>, k: nat, v: T, p: T -> bool)
    requires k < |s|
    ensures Count(s[k := v], p) == Count(s, p) - (if p(s[k]) then 1 else 0) + (if p(v) then 1 else 0)
  {
    var n := |s| - 1;
    if k < n {
      assert s[k := v][..n] == s[..n][k := v];
      CountUpdate(s[..n], k, v, p);
    } else {
      assert s[k := v][..n] == s[..n];
    }
  }

  /** Summands that agree on every element give the same sum. */
  lemma {:induction false} SumCongruent<T>(s: seq<T>, f: T -> real, g: T -> real)
    requires forall x :: x in s ==> f(x) == g(x)
    ensures Sum(s, f) == Sum(s, g)
  {
    if s != [] {
      SumCongruent(s[..|s| - 1], f, g);
    }
  }

  /** A constant factor can be taken out of a sum. */
  lemma {:induction false} SumScale<T>(s: seq<T>, f: T -> real, g: T -> real, c: real)
    requires forall x :: g(x) == f(x) * c
    ensures Sum(s, g) == Sum(s, f) * c
  {
    if s != [] {
      SumScale(s[..|s| - 1], f, g, c);
    }
  }

  /** `s.map(m)`. */
  function Map<A, B>(s: seq<A>, m: A -> B): (r: seq<B>)
    ensures |r| == |s|
    ensures forall i :: 0 <= i < |s| ==> r[i] == m(s[i])
  {
    if s == [] then [] else Map(s[..|s| - 1], m) + [m(s[|s| - 1])]
  }

  /** Summing over a mapped sequence is summing the composed summand over the original. */
  lemma {:induction false} SumMap<A, B>(s: seq<A>, m: A -> B, f: B -> real, g: A -> real)
    requires forall x :: g(x) == f(m(x))
    ensures Sum(Map(s, m), f) == Sum(s, g)
  {
    if s != [] {
      SumMap(s[..|s| - 1], m, f, g);
    }
  }

  /** Summands that are all zero give a zero sum, and non-negative summands with a zero sum are all zero. */
  lemma {:induction false} SumZeroMeansAllZero<T>(s: seq<T>, f: T -> real)
    requires forall x :: x in s ==> f(x) >= 0.0
    requires Sum(s, f) == 0.0
    ensures forall x :: x in s ==> f(x) == 0.0
  {
    if s != [] {
      var init := s[..|s| - 1];
      SumNonNegative(init, f);
      SumZeroMeansAllZero(init, f);
      forall x | x in s ensures f(x) == 0.0 {
        if x != s[|s| - 1] {
          assert x in init;
        }
      }
    }
  }
}

/** The numeric primitives of JavaScript that the application relies on, over exact reals. */
module Numeric {
  function Max(a: real, b: real): (r: real)
    ensures r >= a && r >= b && (r == a || r == b)
  {
    if a >= b then a else b
  }

  function Min(a: real, b: real): (r: real)
    ensures r <= a && r <= b && (r == a || r == b)
  {
    if a <= b then a else b
  }

  /** A non-negative number divided by a larger positive one is a fraction. */
  lemma FractionBounds(x: real, y: real)
    requires 0.0 <= x <= y && y > 0.0
    ensures 0.0 <= x / y <= 1.0
  {
    assert x / y * y == x;
  }

  /** `Math.round(x)`: the nearest integer, halves rounded towards positive infinity. */
  function Round(x: real): (r: int)
    ensures x - 0.5 < r as real <= x + 0.5
  {
    (x + 0.5).Floor
  }
}

/** The string operations of JavaScript that the application relies on. */
module Text {

  /** `toLowerCase` on one character; only the ASCII letters A-Z are mapped. */
  function LowerChar(c: char): char
  {
    if 'A' <= c <= 'Z' then (c as int + 32) as char else c
  }

  /** `s.toLowerCase()`. */
  function ToLower(s: string): (r: string)
    ensures |r| == |s|
    ensures forall i :: 0 <= i < |s| ==> r[i] == LowerChar(s[i])
  {
    seq(|s|, i requires 0 <= i < |s| => LowerChar(s[i]))
  }

  lemma ToLowerIdempotent(s: string)
    ensures ToLower(ToLower(s)) == ToLower(s)
  {
  }

  /** `s.includes(sub)`: `sub` occurs in `s` at some position. */
  predicate Contains(s: string, sub: string)
  {
    exists i | 0 <= i <= |s| - |sub| :: OccursAt(s, sub, i)
  }

  /** `sub` occurs in `s` starting at index `i`. */
  predicate OccursAt(s: string, sub: string, i: int)
  {
    0 <= i <= |s| - |sub| && s[i..i + |sub|] == sub
  }

  lemma ContainsEmpty(s: string)
    ensures Contains(s, "")
  {
    assert OccursAt(s, "", 0);
  }

  /** The characters that `String.prototype.trim` removes, restricted to the common ones. */
  predicate IsSpace(c: char)
  {
    c == ' ' || c == '\t' || c == '\n' || c == '\r' || c == '\U{000B}' || c == '\U{000C}'
    || c == '\U{00A0}' || c == '\U{FEFF}' || c == '\U{2028}' || c == '\U{2029}'
  }

  /** `!s.trim()`: the string is empty or consists of whitespace only. */
  predicate IsBlank(s: string)
  {
    forall i :: 0 <= i < |s| ==> IsSpace(s[i])
  }
}
