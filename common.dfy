/** Shared vocabulary of the model: optional values, results with an error
    path, and the values drawn from the browser's random number generator. */
module Common {

  datatype Option<+T> = None | Some(value: T)

  datatype Result<+T, +E> = Ok(value: T) | Err(error: E)

  /** One value returned by `Math.random()`: a real number in [0, 1).
      The generator itself is left out; every draw is supplied by the caller. */
  type Draw = r: real | 0.0 <= r < 1.0

  /** `Math.floor(Math.random() * n)` for a positive count `n`: an index
      into a list of `n` elements. */
  function RandomIndex(r: Draw, n: nat): (i: nat)
    requires n > 0
    ensures i < n
  {
    var scaled := r * (n as real);
    assert scaled < n as real;
    scaled.Floor
  }

  /** Every index of a list of `n` elements can be drawn: the draw `i / n`
      selects index `i`. */
  lemma RandomIndexReaches(i: nat, n: nat)
    requires i < n
    ensures 0.0 <= (i as real) / (n as real) < 1.0
    ensures RandomIndex((i as real) / (n as real), n) == i
  {
    var r := (i as real) / (n as real);
    assert r * (n as real) == i as real;
  }

  /** `Math.random() < 0.05`: the 5% coin used by the progression generator. */
  predicate FivePercent(r: Draw)
  {
    r < 0.05
  }
}
