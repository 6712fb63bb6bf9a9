/**
 * Arithmetic over finite sequences of exact real numbers, with the integer
 * minimum and maximum used for their bounds: the sum, the
 * arithmetic mean (the role numpy's `mean` plays in the dashboard), the
 * minimum and maximum, and the reversal of a sequence.
 */
module SeqMath {

  function Min(a: int, b: int): int
  {
    if a <= b then a else b
  }

  function Max(a: int, b: int): int
  {
    if a >= b then a else b
  }

  /** The sum of the elements of `s`, taken from the front. */
  function Sum(s: seq<real>): real
  {
    if |s| == 0 then 0.0 else s[0] + Sum(s[1..])
  }

  /** The arithmetic mean of a non-empty sequence: its sum divided by its length. */
  function Mean(w: seq<real>): real
    requires |w| > 0
  {
    Sum(w) / (|w| as real)
  }

  /** `s` read from the back to the front. */
  function Reversed(s: seq<real>): (r: seq<real>)
    ensures |r| == |s|
  {
    if |s| == 0 then [] else Reversed(s[1..]) + [s[0]]
  }

  /** The smallest element of a non-empty sequence. */
  function SeqMin(s: seq<real>): (m: real)
    requires |s| > 0
    ensures m in s
    ensures forall j :: 0 <= j < |s| ==> m <= s[j]
  {
    if |s| == 1 then s[0]
    else
      var rest := SeqMin(s[1..]);
      if s[0] <= rest then s[0] else rest
  }

  /** The largest element of a non-empty sequence. */
  function SeqMax(s: seq<real>): (m: real)
    requires |s| > 0
    ensures m in s
    ensures forall j :: 0 <= j < |s| ==> s[j] <= m
  {
    if |s| == 1 then s[0]
    else
      var rest := SeqMax(s[1..]);
      if s[0] >= rest then s[0] else rest
  }

  /** Summing distributes over concatenation. */
  lemma {:induction false} SumConcat(a: seq<real>, b: seq<real>)
    ensures Sum(a + b) == Sum(a) + Sum(b)
  {
    if |a| > 0 {
      assert (a + b)[1..] == a[1..] + b;
      SumConcat(a[1..], b);
    } else {
      assert a + b == b;
    }
  }

  /** The sum of a row's window splits into its three parts. */
  lemma SumOfThree(a: seq<real>, x: real, b: seq<real>)
    ensures Sum(a + [x] + b) == Sum(a) + x + Sum(b)
  {
    SumConcat(a + [x], b);
    SumConcat(a, [x]);
    assert Sum([x]) == x;
  }

  /** The order of the summands does not matter: reversing keeps the sum. */
  lemma {:induction false} SumReversed(s: seq<real>)
    ensures Sum(Reversed(s)) == Sum(s)
  {
    if |s| > 0 {
      SumReversed(s[1..]);
      SumConcat(Reversed(s[1..]), [s[0]]);
      assert Sum([s[0]]) == s[0];
    }
  }

  /** A sum of `|s|` terms, each between `lo` and `hi`, lies between `|s| * lo` and `|s| * hi`. */
  lemma {:induction false} SumBounds(s: seq<real>, lo: real, hi: real)
    requires forall j :: 0 <= j < |s| ==> lo <= s[j] <= hi
    ensures (|s| as real) * lo <= Sum(s) <= (|s| as real) * hi
  {
    if |s| > 0 {
      SumBounds(s[1..], lo, hi);
      assert (|s| as real) * lo == ((|s| - 1) as real) * lo + lo;
      assert (|s| as real) * hi == ((|s| - 1) as real) * hi + hi;
    }
  }

  /** A mean lies between any lower and upper bound of the values averaged. */
  lemma MeanWithinBounds(w: seq<real>, lo: real, hi: real)
    requires |w| > 0
    requires forall j :: 0 <= j < |w| ==> lo <= w[j] <= hi
    ensures lo <= Mean(w) <= hi
  {
    var n := |w| as real;
    SumBounds(w, lo, hi);
    assert n * lo <= Sum(w) <= n * hi;
    assert Sum(w) / n >= lo by {
      assert Sum(w) >= lo * n;
    }
    assert Sum(w) / n <= hi by {
      assert Sum(w) <= hi * n;
    }
  }

  /** A mean lies between the smallest and the largest value averaged. */
  lemma MeanBetweenMinAndMax(w: seq<real>)
    requires |w| > 0
    ensures SeqMin(w) <= Mean(w) <= SeqMax(w)
  {
    MeanWithinBounds(w, SeqMin(w), SeqMax(w));
  }
}
