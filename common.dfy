/** Small value types shared by every module. */
module Common {
  datatype Option<T> = None | Some(value: T)

  datatype Result<T, E> = Success(value: T) | Failure(error: E)

  /** A value of `Math.random()`: a real in [0, 1). */
  type Unit = r: real | 0.0 <= r < 1.0

  /** An oracle for the sequence of `Math.random()` results: the n-th call returns draws(n). */
  type Draws = nat -> Unit

  function Min(a: real, b: real): (m: real)
    ensures m <= a && m <= b && (m == a || m == b)
  {
    if a <= b then a else b
  }

  /**
   * JavaScript's `config.v || fallback` for a number: an absent value (None) and 0 are falsy and
   * give the fallback, any other number is kept.
   */
  function OrReal(v: Option<real>, fallback: real): (r: real)
    ensures v.Some? && v.value != 0.0 ==> r == v.value
    ensures v.None? || v.value == 0.0 ==> r == fallback
  {
    if v.Some? && v.value != 0.0 then v.value else fallback
  }

  /** `config.v || fallback` for a whole number. */
  function OrInt(v: Option<int>, fallback: int): (r: int)
    ensures v.Some? && v.value != 0 ==> r == v.value
    ensures v.None? || v.value == 0 ==> r == fallback
  {
    if v.Some? && v.value != 0 then v.value else fallback
  }

  /** `config.v || fallback` for a string: the empty string is falsy. */
  function OrString(v: Option<string>, fallback: string): (r: string)
    ensures v.Some? && v.value != "" ==> r == v.value
    ensures v.None? || v.value == "" ==> r == fallback
  {
    if v.Some? && v.value != "" then v.value else fallback
  }

  /** `Math.floor(r * n)` for a random r lies in [0, n): the index idiom of the source. */
  function ScaledIndex(r: Unit, n: nat): (i: int)
    requires n > 0
    ensures 0 <= i < n
  {
    ScaledFloorBound(r, n);
    (r * n as real).Floor
  }

  lemma ScaledFloorBound(r: Unit, n: nat)
    requires n > 0
    ensures 0 <= (r * n as real).Floor < n
  {
    assert 0.0 <= r * n as real < n as real;
  }
}

/** `Math.random()` as explicit state: a fixed oracle and the number of draws taken so far. */
module Random {
  import opened Common

  class Rng {
    const draws: Draws
    var used: nat

    constructor (draws: Draws)
      ensures this.draws == draws && used == 0
    {
      this.draws := draws;
      used := 0;
    }

    /** One call of `Math.random()`. */
    method Next() returns (r: Unit)
      modifies this`used
      ensures r == draws(old(used)) && used == old(used) + 1
    {
      r := draws(used);
      used := used + 1;
    }
  }
}
