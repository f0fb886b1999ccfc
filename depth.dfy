/** Per-sample depth of the parallax effect: Rec. 601 luma of an 8-bit RGB
    sample, the radial vignette mask over normalised grid coordinates, and
    the depth offset written into a vertex's z slot. All arithmetic is exact. */
module Depth {

  /** Largest depth scale: (1 - 0.5) * 1.4, the |z| of a pure white or black sample at mask 1. */
  const MaxDepthScale: real := 0.7

  function Abs(x: real): (r: real)
    ensures r >= 0.0 && (r == x || r == -x)
  {
    if x < 0.0 then -x else x
  }

  function Min(a: real, b: real): (r: real)
    ensures r <= a && r <= b && (r == a || r == b)
  {
    if a <= b then a else b
  }

  predicate IsByte(v: int) { 0 <= v <= 255 }

  /** Luma of one sample whose channels are bytes, each normalised by 255,
      weighted 0.299 / 0.587 / 0.114 as in ITU-R BT.601. */
  function Luma(r: int, g: int, b: int): (lum: real)
    ensures IsByte(r) && IsByte(g) && IsByte(b) ==> 0.0 <= lum <= 1.0
    ensures IsByte(r) && IsByte(g) && IsByte(b) ==> (lum == 1.0 <==> r == g == b == 255)
    ensures IsByte(r) && IsByte(g) && IsByte(b) ==> (lum == 0.0 <==> r == g == b == 0)
  {
    0.299 * (r as real / 255.0) + 0.587 * (g as real / 255.0) + 0.114 * (b as real / 255.0)
  }

  /** Grid index i of n samples mapped onto [-1, 1]: (i / (n - 1)) * 2 - 1. */
  function NormCoord(i: int, n: int): (c: real)
    requires n >= 2
    ensures 0 <= i < n ==> -1.0 <= c <= 1.0
    ensures c == -1.0 <==> i == 0
    ensures c == 1.0 <==> i == n - 1
  {
    DivEnds(i as real, (n - 1) as real);
    (i as real / (n - 1) as real) * 2.0 - 1.0
  }

  /** A quotient by a positive number is 1 exactly when the operands are equal and 0 exactly when the dividend is. */
  lemma DivEnds(a: real, d: real)
    requires d > 0.0
    ensures a / d == 1.0 <==> a == d
    ensures a / d == 0.0 <==> a == 0.0
  {
    assert (a / d) * d == a;
  }

  /** Radial vignette: 1 at the centre, falling to 0 on the unit circle and beyond. */
  function Mask(nx: real, ny: real): (m: real)
    ensures 0.0 <= m <= 1.0
    ensures nx == 0.0 && ny == 0.0 ==> m == 1.0
    ensures m == 0.0 <==> nx * nx + ny * ny >= 1.0
  {
    1.0 - Min(1.0, nx * nx + ny * ny)
  }

  /** Depth offset of one vertex: (lum - 0.5) * intensity * 1.4 * mask. With a
      positive intensity, samples brighter than mid-grey come towards the viewer and
      darker ones recede; mid-grey, zero intensity or a zero mask leave the vertex flat. */
  function DepthOf(lum: real, intensity: real, mask: real): (z: real)
    ensures z == 0.0 <==> lum == 0.5 || intensity == 0.0 || mask == 0.0
    ensures intensity > 0.0 && mask > 0.0 ==> (z > 0.0 <==> lum > 0.5)
  {
    (lum - 0.5) * intensity * 1.4 * mask
  }

  /** Displacement is bounded by 0.7 * |intensity| for every luma and mask in [0, 1]. */
  lemma DepthBounded(lum: real, intensity: real, mask: real)
    requires 0.0 <= lum <= 1.0 && 0.0 <= mask <= 1.0
    ensures Abs(DepthOf(lum, intensity, mask)) <= MaxDepthScale * Abs(intensity)
  {
    var d := lum - 0.5;
    assert Abs(d) <= 0.5;
    calc {
      Abs(DepthOf(lum, intensity, mask));
    ==  { AbsMul(d, intensity * 1.4 * mask); AbsMul(intensity, 1.4 * mask); }
      Abs(d) * (Abs(intensity) * (1.4 * mask));
    <=  { MulMono(Abs(d), 0.5, Abs(intensity) * (1.4 * mask)); }
      0.5 * (Abs(intensity) * (1.4 * mask));
    <=  { MulMono(1.4 * mask, 1.4, 0.5 * Abs(intensity)); }
      MaxDepthScale * Abs(intensity);
    }
  }

  lemma AbsMul(a: real, b: real)
    ensures Abs(a * b) == Abs(a) * Abs(b)
  {
  }

  lemma MulMono(a: real, b: real, c: real)
    requires a <= b && c >= 0.0
    ensures a * c <= b * c
  {
  }

  /** The mask is zero on and beyond the unit circle, so there is no displacement there. */
  lemma DepthVanishesOutsideCircle(lum: real, intensity: real, nx: real, ny: real)
    requires nx * nx + ny * ny >= 1.0
    ensures DepthOf(lum, intensity, Mask(nx, ny)) == 0.0
  {
  }

  /** A pure white sample lifts the vertex by 0.7 * intensity * mask, a pure black one lowers it by as much. */
  lemma WhiteAndBlackDepth(intensity: real, mask: real)
    ensures DepthOf(Luma(255, 255, 255), intensity, mask) == MaxDepthScale * intensity * mask
    ensures DepthOf(Luma(0, 0, 0), intensity, mask) == -MaxDepthScale * intensity * mask
  {
  }
}
