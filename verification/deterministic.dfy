/**
 * The seeded draw `deterministicNumber(seed, min, max)` of the metrics
 * generator. It normalises `|sin(17.23 s) + cos(3.7 s)|` modulo 1
 * into [0,1) with floating-point trigonometry; that hash is a parameter
 * here (`Hash`), and only its range is relied on. What is modelled exactly
 * is the scale-and-round step that turns the normalised value into an
 * integer of the requested range.
 */
module Deterministic {
  import JsMath

  /** A normalised draw: a real in [0,1). */
  type Unit = u: real | 0.0 <= u < 1.0

  /** The trigonometric hash, as a function from seed to normalised draw. */
  type Hash = int -> Unit

  /** The exact (unrounded) scaled value `min + (max - min) * u`. */
  function Scaled(u: Unit, min: int, max: int): real {
    min as real + (max - min) as real * u
  }

  /**
   * `deterministicNumber(seed, min, max)`: the integer nearest to the
   * scaled draw. It lies in [min, max] (or [max, min] when the bounds are
   * given the other way round).
   */
  function DeterministicNumber(h: Hash, seed: int, min: int, max: int): (r: int)
    ensures min <= max ==> min <= r <= max
    ensures max < min ==> max <= r <= min
    ensures Scaled(h(seed), min, max) - 0.5 < r as real <= Scaled(h(seed), min, max) + 0.5
  {
    var u := h(seed);
    ScaledBounds(u, min, max);
    JsMath.Round(Scaled(u, min, max))
  }

  /** The scaled value lies between the bounds, never reaching `max` itself. */
  lemma ScaledBounds(u: Unit, min: int, max: int)
    ensures min <= max ==> min as real <= Scaled(u, min, max) <= max as real
    ensures min < max ==> Scaled(u, min, max) < max as real
    ensures max < min ==> max as real < Scaled(u, min, max) <= min as real
  {
    var d := (max - min) as real;
    assert Scaled(u, min, max) == min as real + d * u;
    assert min as real + d == max as real;
    if d > 0.0 {
      MulBelow(d, u);
    } else if d < 0.0 {
      MulBelow(-d, u);
      assert d * u == -((-d) * u);
    }
  }

  /** Scaling a positive length by a draw stays inside [0, length). */
  lemma MulBelow(d: real, u: Unit)
    requires d > 0.0
    ensures 0.0 <= d * u < d
  {
    assert d * u < d * 1.0;
  }

  /** A zero draw yields the lower bound exactly. */
  lemma ZeroDrawGivesMin(h: Hash, seed: int, min: int, max: int)
    requires h(seed) == 0.0
    ensures DeterministicNumber(h, seed, min, max) == min
  {
    JsMath.RoundOfInteger(min);
  }

  /** A degenerate range always yields its single value, whatever the draw. */
  lemma DegenerateRange(h: Hash, seed: int, v: int)
    ensures DeterministicNumber(h, seed, v, v) == v
  {
  }

  /** A larger draw never yields a smaller number on an ascending range. */
  lemma DrawMonotone(h: Hash, s1: int, s2: int, min: int, max: int)
    requires min <= max
    requires h(s1) <= h(s2)
    ensures DeterministicNumber(h, s1, min, max) <= DeterministicNumber(h, s2, min, max)
  {
    var d := (max - min) as real;
    assert d * h(s1) <= d * h(s2);
    JsMath.RoundMonotone(Scaled(h(s1), min, max), Scaled(h(s2), min, max));
  }

  /** Only the draw at `seed` matters: hashes agreeing there give the same number. */
  lemma DependsOnlyOnSeedDraw(h1: Hash, h2: Hash, seed: int, min: int, max: int)
    requires h1(seed) == h2(seed)
    ensures DeterministicNumber(h1, seed, min, max) == DeterministicNumber(h2, seed, min, max)
  {
  }
}
