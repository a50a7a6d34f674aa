/**
 * `BehavioralBiasCard`: the long share is clamped into [0, 100] with
 * `Math.min(Math.max(x, 0), 100)`, the short share is its complement, and
 * the headline reads "Bull" from 50 % long upwards, "Bear" below.
 */
module BiasCard {

  datatype Bias = Bull | Bear

  datatype BiasView = BiasView(longPercent: real, shortPercent: real, bias: Bias)

  function Max(a: real, b: real): real {
    if a >= b then a else b
  }

  function Min(a: real, b: real): real {
    if a <= b then a else b
  }

  /** `Math.min(Math.max(biasLongPercent, 0), 100)`. */
  function ClampPercent(x: real): (r: real)
    ensures 0.0 <= r <= 100.0
    ensures 0.0 <= x <= 100.0 ==> r == x
    ensures x < 0.0 ==> r == 0.0
    ensures x > 100.0 ==> r == 100.0
  {
    Min(Max(x, 0.0), 100.0)
  }

  /** The card's numbers: both shares in [0, 100] summing to 100, and the label. */
  function View(biasLongPercent: real): (v: BiasView)
    ensures 0.0 <= v.longPercent <= 100.0 && 0.0 <= v.shortPercent <= 100.0
    ensures v.longPercent + v.shortPercent == 100.0
    ensures v.bias == Bull <==> v.longPercent >= 50.0
    ensures v.bias == Bull <==> v.longPercent >= v.shortPercent
  {
    var longPercent := ClampPercent(biasLongPercent);
    BiasView(longPercent, 100.0 - longPercent, if longPercent >= 50.0 then Bull else Bear)
  }

  /** Clamping a clamped value changes nothing. */
  lemma ClampIdempotent(x: real)
    ensures ClampPercent(ClampPercent(x)) == ClampPercent(x)
  {
  }

  /** The clamp keeps the order of its inputs. */
  lemma ClampMonotone(x: real, y: real)
    requires x <= y
    ensures ClampPercent(x) <= ClampPercent(y)
  {
  }

  /** Exactly 50 % long is a Bull reading. */
  lemma EvenSplitIsBull()
    ensures View(50.0).bias == Bull
  {
  }
}
