/**
 * Python list slicing (`s[:n]`, `s[n:]`, where `n` may be negative) and
 * list concatenation (`np.concatenate` over a list of arrays).
 */
module Slices {

  function Min(a: int, b: int): int { if a <= b then a else b }

  function Max(a: int, b: int): int { if a >= b then a else b }

  /** `s[:n]` with Python's rules: a negative `n` counts from the end, and
      an `n` past either end is clamped. */
  function Take<T>(s: seq<T>, n: int): (r: seq<T>)
    ensures r <= s
    ensures n >= 0 ==> |r| == Min(n, |s|)
    ensures n < 0 ==> |r| == Max(0, |s| + n)
  {
    if n >= 0 then (if n <= |s| then s[..n] else s)
    else if |s| + n >= 0 then s[..|s| + n]
    else []
  }

  /** `s[n:]` for a non-negative `n`, empty when `n` is past the end. */
  function Drop<T>(s: seq<T>, n: nat): (r: seq<T>)
    ensures |r| == Max(0, |s| - n)
    ensures forall i :: 0 <= i < |r| ==> r[i] == s[n + i]
  {
    if n <= |s| then s[n..] else []
  }

  /** The concatenation of a list of arrays, first array first. */
  function Concat<T>(xss: seq<seq<T>>): seq<T>
  {
    if xss == [] then [] else Concat(xss[..|xss| - 1]) + xss[|xss| - 1]
  }

  function SumLengths<T>(xss: seq<seq<T>>): nat
  {
    if xss == [] then 0 else SumLengths(xss[..|xss| - 1]) + |xss[|xss| - 1]|
  }

  /** Concatenating two lists of arrays concatenates their concatenations. */
  lemma {:induction false} ConcatAppend<T>(a: seq<seq<T>>, b: seq<seq<T>>)
    ensures Concat(a + b) == Concat(a) + Concat(b)
    decreases |b|
  {
    if b == [] {
      assert a + b == a;
    } else {
      var b' := b[..|b| - 1];
      assert (a + b)[..|a + b| - 1] == a + b';
      ConcatAppend(a, b');
    }
  }

  /** The concatenation holds exactly as many elements as all arrays together. */
  lemma {:induction false} ConcatLength<T>(xss: seq<seq<T>>)
    ensures |Concat(xss)| == SumLengths(xss)
  {
    if xss != [] {
      ConcatLength(xss[..|xss| - 1]);
    }
  }

  /** Array `i` sits, whole and contiguous, right after the arrays before it. */
  lemma ConcatBlock<T>(xss: seq<seq<T>>, i: nat)
    requires i < |xss|
    ensures |Concat(xss[..i])| + |xss[i]| <= |Concat(xss)|
    ensures Concat(xss)[|Concat(xss[..i])|..|Concat(xss[..i])| + |xss[i]|] == xss[i]
  {
    assert xss == (xss[..i] + [xss[i]]) + xss[i + 1..];
    ConcatAppend(xss[..i] + [xss[i]], xss[i + 1..]);
    ConcatAppend(xss[..i], [xss[i]]);
    assert Concat([xss[i]]) == xss[i] by {
      assert [xss[i]][..0] == [];
    }
  }
}
