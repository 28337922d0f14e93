/**
Image dimensions within a pixel budget (attachment/projection.go), in exact arithmetic: the scale
is the square root of maxPixels over the area, and sides are floored or rounded to integers.
 */
module Projection {

  /** a / b rounded to the nearest integer, halves up. */
  function Round(a: nat, b: nat): (r: nat)
    requires b > 0
    ensures 2 * r * b <= 2 * a + b < 2 * r * b + 2 * b
  {
    assert (2 * a + b) / (2 * b) * (2 * b) == 2 * ((2 * a + b) / (2 * b)) * b;
    (2 * a + b) / (2 * b)
  }

  /** The other side for a scaled one: aspect-preserving, at least 1. */
  function Derived(scaled: nat, long: nat, short: nat): nat
    requires long > 0
  {
    var r := Round(scaled * short, long);
    if r < 1 then 1 else r
  }

  /** The side scaled by the square root of maxPixels / (long * short), rounded down: the largest
      p up to k with p * p * short <= long * maxPixels. */
  function ScaledDown(k: nat, long: nat, short: nat, maxPixels: nat): (p: nat)
    ensures p <= k && p * p * short <= long * maxPixels
    ensures forall q :: p < q <= k ==> q * q * short > long * maxPixels
  {
    if k == 0 || k * k * short <= long * maxPixels then k else ScaledDown(k - 1, long, short, maxPixels)
  }

  lemma DerivedFits(scaled: nat, long: nat, short: nat)
    requires 0 < short <= long && scaled <= long
    ensures 1 <= Derived(scaled, long, short) <= short
  {
    MulMonotone(scaled, long, short);
    RoundFits(scaled * short, long, short);
  }

  lemma RoundFits(a: nat, b: nat, c: nat)
    requires b > 0 && a <= b * c
    ensures Round(a, b) <= c
  {
    var r := Round(a, b);
    assert (c + 1) * b == b * c + b;
    MulAbove(c, r, b);
  }

  lemma MulAbove(c: nat, r: nat, b: nat)
    ensures r > c ==> r * b >= (c + 1) * b
  {
    if r > c { MulMonotone(c + 1, r, b); }
  }

  lemma MulMonotone(a: nat, b: nat, c: nat)
    requires a <= b
    ensures a * c <= b * c
  {
  }

  /** The derived side is within half a pixel of the exact aspect, unless it was clamped to 1. */
  ghost predicate Close(scaled: nat, derived: nat, long: nat, short: nat) {
    || (2 * scaled * short - long <= 2 * derived * long <= 2 * scaled * short + long)
    || (derived == 1 && 2 * scaled * short < long)
  }

  lemma DerivedIsClose(scaled: nat, long: nat, short: nat)
    requires long > 0
    ensures Close(scaled, Derived(scaled, long, short), long, short)
  {
    var r := Round(scaled * short, long);
    assert 2 * (scaled * short) == 2 * scaled * short;
    if r < 1 { assert 2 * r * long == 0; }
  }

  /** A width of 1 always fits. */
  lemma OneFits(long: nat, short: nat)
    requires 0 < short <= long
    ensures Derived(1, long, short) == 1
  {
    DerivedFits(1, long, short);
    var r := Round(short, long);
    if r >= 2 {
      MulMonotone(2, r, long);
      assert false;
    }
  }

  /** No side between this one and the exactly scaled one fits with its derived side. */
  ghost predicate LargestThatFits(scaled: nat, long: nat, short: nat, maxPixels: nat)
    requires long > 0
  {
    var exact := ScaledDown(long, long, short, maxPixels);
    (scaled <= 1 || scaled <= exact) && forall q :: scaled < q <= exact ==> q * Derived(q, long, short) > maxPixels
  }

  /** Shrinks the long side step by step until the product fits. */
  method Shrink(long: nat, short: nat, maxPixels: nat) returns (scaled: nat, derived: nat)
    requires 0 < short <= long && 0 < maxPixels < long * short
    ensures 1 <= scaled <= long && 1 <= derived <= short && scaled * derived <= maxPixels
    ensures derived == Derived(scaled, long, short) && Close(scaled, derived, long, short)
    ensures LargestThatFits(scaled, long, short, maxPixels)
  {
    hide Derived, Close;
    var p := ScaledDown(long, long, short, maxPixels);
    scaled := if p < 1 then 1 else p;
    derived := Derived(scaled, long, short);
    while scaled * derived > maxPixels && scaled > 1
      invariant 1 <= scaled <= long && (scaled <= 1 || scaled <= p) && derived == Derived(scaled, long, short)
      invariant forall q :: scaled < q <= p ==> q * Derived(q, long, short) > maxPixels
      decreases scaled
    {
      scaled := scaled - 1;
      derived := Derived(scaled, long, short);
    }
    DerivedFits(scaled, long, short);
    DerivedIsClose(scaled, long, short);
    OneFits(long, short);
  }

  datatype Dimensions = Dimensions(width: nat, height: nat)

  /** Aspect-preserving integer dimensions within a total-pixel budget; small images are kept. */
  method RequestImageDimensions(width: nat, height: nat, maxPixels: nat) returns (d: Dimensions)
    requires width > 0 && height > 0 && maxPixels > 0
    ensures 1 <= d.width <= width && 1 <= d.height <= height && d.width * d.height <= maxPixels
    ensures width * height <= maxPixels <==> d == Dimensions(width, height)
    ensures width * height > maxPixels ==>
      if width >= height then Close(d.width, d.height, width, height) else Close(d.height, d.width, height, width)
    ensures width * height > maxPixels ==>
      if width >= height then LargestThatFits(d.width, width, height, maxPixels) else LargestThatFits(d.height, height, width, maxPixels)
  {
    hide Close, LargestThatFits;
    if width * height <= maxPixels { return Dimensions(width, height); }
    if width >= height {
      var w, h := Shrink(width, height, maxPixels);
      return Dimensions(w, h);
    }
    assert height * width == width * height;
    var h, w := Shrink(height, width, maxPixels);
    assert w * h == h * w;
    return Dimensions(w, h);
  }
}
