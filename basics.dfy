/** Shared vocabulary: optional values, results carrying the Python exception
    the source would raise, Python's int() of a float, and numpy's average. */
module Basics {

  datatype Option<+T> = None | Some(value: T)

  datatype Result<+T, +E> = Ok(value: T) | Err(error: E)

  /** The exceptions (or non-terminating draws) the modelled code can end in. */
  datatype PyError =
    | NegativeDimensions   // numpy: "negative dimensions are not allowed"
    | NegativeScale        // numpy: normal() with scale < 0
    | NegativeSleepLength  // time.sleep() with a negative argument
    | DrawsExhausted       // the given draw stream ran out: the source would still be drawing
    | UnboundHeader        // UnboundLocalError: `header` never assigned
    | MissingKey(key: string)  // KeyError on a dict lookup
    | UndefinedName(name: string)  // NameError: a name used but never imported

  /** Python's int() applied to a float: truncation toward zero. */
  function Trunc(x: real): (r: int)
    ensures 0.0 <= x ==> 0 <= r && r as real <= x < r as real + 1.0
    ensures x < 0.0 ==> r <= 0 && r as real - 1.0 < x <= r as real
  {
    if x >= 0.0 then x.Floor else -((-x).Floor)
  }

  function Max(a: real, b: real): real
  {
    if a >= b then a else b
  }

  function Sum(xs: seq<real>): real
    decreases |xs|
  {
    if xs == [] then 0.0 else Sum(xs[..|xs| - 1]) + xs[|xs| - 1]
  }

  /** np.average of a non-empty list without weights. */
  function Mean(xs: seq<real>): real
    requires |xs| > 0
  {
    Sum(xs) / |xs| as real
  }

  lemma {:induction false} SumNonNegative(xs: seq<real>)
    requires forall i :: 0 <= i < |xs| ==> 0.0 <= xs[i]
    ensures 0.0 <= Sum(xs)
  {
    if xs != [] {
      SumNonNegative(xs[..|xs| - 1]);
    }
  }

  /** The average of non-negative measurements is non-negative. */
  lemma MeanNonNegative(xs: seq<real>)
    requires |xs| > 0
    requires forall i :: 0 <= i < |xs| ==> 0.0 <= xs[i]
    ensures 0.0 <= Mean(xs)
  {
    SumNonNegative(xs);
  }

  lemma AppendAssoc<T>(a: seq<T>, b: seq<T>, c: seq<T>)
    ensures a + b + c == a + (b + c)
  {
  }
}
