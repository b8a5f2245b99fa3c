/** Lane geometry, clamping and the padded overlap test of the playfield.
    Canvas coordinates are exact reals; the canvas width is an integer
    number of pixels. */
module Geometry {

  /** Number of lanes obstacles fall in. */
  const Lanes: nat := 4
  /** Margin left free on each side of the lane band. */
  const LaneMargin: real := 26.0
  /** Gap kept between an entity and either canvas edge. */
  const EdgeGap: real := 8.0
  /** Inward padding of the overlap test: touching edges are forgiven. */
  const HitPad: real := 6.0

  type LaneIndex = i: nat | i < 4

  function Min(a: real, b: real): (r: real)
    ensures r <= a && r <= b && (r == a || r == b)
  {
    if a <= b then a else b
  }

  function Max(a: real, b: real): (r: real)
    ensures r >= a && r >= b && (r == a || r == b)
  {
    if a >= b then a else b
  }

  /** JavaScript's Math.round: halves round up. */
  function RoundHalfUp(v: real): (n: int)
    ensures v - 0.5 < n as real <= v + 0.5
  {
    var n := (v + 0.5).Floor;
    assert n as real <= v + 0.5 < n as real + 1.0;
    n
  }

  /** Width of the band the lanes divide evenly. */
  function Usable(width: int): real {
    width as real - 2.0 * LaneMargin
  }

  /** Centre of lane `i`: the middle of the i-th of four equal segments of
      the usable band. */
  function LaneCentre(width: int, i: LaneIndex): (c: real)
    ensures Usable(width) > 0.0 ==> LaneMargin < c < width as real - LaneMargin
  {
    assert i == 0 || i == 1 || i == 2 || i == 3;
    LaneMargin + Usable(width) * (i as real + 0.5) / Lanes as real
  }

  /** Lanes are evenly spaced, a quarter of the usable band apart, and in
      increasing order once the canvas is wider than both margins. */
  lemma LaneSpacing(width: int, i: LaneIndex, j: LaneIndex)
    requires i < j
    ensures LaneCentre(width, j) - LaneCentre(width, i) == (j - i) as real * Usable(width) / 4.0
    ensures Usable(width) > 0.0 ==> LaneCentre(width, i) < LaneCentre(width, j)
  {
  }

  /** The lane centres, built by a loop that appends one centre per lane:
      four of them, lane i's at `LaneCentre(width, i)`, so evenly spaced
      and increasing by `LaneSpacing`. */
  method ComputeLanes(width: int) returns (lanes: seq<real>)
    ensures |lanes| == Lanes
    ensures forall i: LaneIndex :: lanes[i] == LaneCentre(width, i)
  {
    lanes := [];
    var i := 0;
    while i < Lanes
      invariant 0 <= i <= Lanes && |lanes| == i
      invariant forall k: LaneIndex :: k < i ==> lanes[k] == LaneCentre(width, k)
    {
      lanes := lanes + [LaneMargin + Usable(width) * (i as real + 0.5) / Lanes as real];
      i := i + 1;
    }
  }

  /** `max(8, min(v, width - w - 8))`: the left edge of a box of width `w`
      pulled inside the canvas. */
  function KeepInside(v: real, w: real, width: int): (r: real)
    ensures EdgeGap <= r
    ensures EdgeGap <= width as real - w - EdgeGap ==> r <= width as real - w - EdgeGap
    ensures EdgeGap <= v <= width as real - w - EdgeGap ==> r == v
  {
    Max(EdgeGap, Min(v, width as real - w - EdgeGap))
  }

  datatype Rect = Rect(x: real, y: real, w: real, h: real)

  /** Padded axis-aligned overlap: the boxes collide unless one lies wholly
      to one side of the other once each far edge is pulled in by the pad. */
  predicate RectIntersect(a: Rect, b: Rect) {
    !(a.x + a.w - HitPad < b.x || a.x > b.x + b.w - HitPad ||
      a.y + a.h - HitPad < b.y || a.y > b.y + b.h - HitPad)
  }

  /** The padded span of a box along one axis. */
  predicate SpansMeet(lo1: real, len1: real, lo2: real, len2: real) {
    Max(lo1, lo2) <= Min(lo1 + len1 - HitPad, lo2 + len2 - HitPad)
  }

  /** Reference reading of the test: the padded spans overlap on both axes. */
  lemma RectIntersectMeansOverlap(a: Rect, b: Rect)
    requires a.w >= HitPad && a.h >= HitPad && b.w >= HitPad && b.h >= HitPad
    ensures RectIntersect(a, b) <==> SpansMeet(a.x, a.w, b.x, b.w) && SpansMeet(a.y, a.h, b.y, b.h)
  {
  }

  /** The test does not depend on which box is the player. */
  lemma RectIntersectSymmetric(a: Rect, b: Rect)
    ensures RectIntersect(a, b) <==> RectIntersect(b, a)
  {
  }
}
