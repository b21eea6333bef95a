/** Small shared vocabulary: an optional value, and the outcome of a
    floating-point computation that may leave the finite numbers. */
module Common {

  /** A value that may be missing. `None` also stands for a property read
      that throws (an exited process, a denied access). */
  datatype Option<+T> = None | Some(value: T) {
    /** The value, or `default` when there is none. */
    function GetOr(default: T): T {
      if Some? then value else default
    }
  }

  /** A C# `float`/`double` value. The finite values are modelled as exact
      reals (rounding is not modelled); the three special values arise when
      a delta is divided by a zero elapsed time. */
  datatype Float = Finite(r: real) | PositiveInfinity | NegativeInfinity | NaN

  /** IEEE 754 division of two finite values: a zero divisor gives an
      infinity of the dividend's sign, or NaN for 0/0. */
  function Divide(x: real, y: real): (q: Float)
    ensures y != 0.0 ==> q == Finite(x / y)
    ensures y == 0.0 ==> (q.PositiveInfinity? <==> x > 0.0)
    ensures y == 0.0 ==> (q.NegativeInfinity? <==> x < 0.0)
    ensures y == 0.0 ==> (q.NaN? <==> x == 0.0)
  {
    if y != 0.0 then Finite(x / y)
    else if x > 0.0 then PositiveInfinity
    else if x < 0.0 then NegativeInfinity
    else NaN
  }

  /** Multiplication of a float by a positive constant: the special values
      are kept as they are. */
  function ScaleBy(f: Float, k: real): (g: Float)
    requires k > 0.0
    ensures f.Finite? <==> g.Finite?
    ensures f.Finite? ==> g.r == f.r * k
    ensures !f.Finite? ==> g == f
  {
    match f
    case Finite(v) => Finite(v * k)
    case _ => f
  }

  /** Sliding a full window by one: dropping the oldest of the last `c`
      elements and appending `v` gives the last `c` elements of the longer
      sequence. */
  lemma SlideWindow<T>(init: seq<T>, v: T, c: nat)
    requires 1 <= c <= |init|
    ensures init[|init| - c..][1..] + [v] == (init + [v])[|init| + 1 - c..]
  {
    var w := init[|init| - c..][1..] + [v];
    var u := (init + [v])[|init| + 1 - c..];
    assert |w| == c == |u|;
    forall k | 0 <= k < c
      ensures w[k] == u[k]
    {
      if k < c - 1 {
        assert w[k] == init[|init| - c + 1 + k];
      }
    }
  }
}
