/**
 * The geometry helpers of src/utils/utils.js: linear interpolation, the
 * signed-area orientation test and the boundary-inclusive point-in-triangle test.
 */
module Geometry {

  function Min(a: real, b: real): real { if a <= b then a else b }
  function Max(a: real, b: real): real { if a <= b then b else a }

  /** `Math.max(lo, Math.min(v, hi))`, the clamp idiom the game uses for positions and the camera. */
  function Clamp(v: real, lo: real, hi: real): (r: real)
    ensures lo <= r
    ensures lo <= hi ==> r <= hi
    ensures lo <= v <= hi ==> r == v
    ensures v < lo ==> r == lo
    ensures lo <= hi < v ==> r == hi
  {
    Max(lo, Min(v, hi))
  }

  /** Linear interpolation; `t` is not clamped, so callers clamp it where they need to. */
  function Lerp(a: real, b: real, t: real): (r: real)
    ensures t == 0.0 ==> r == a
    ensures t == 1.0 ==> r == b
    ensures 0.0 <= t <= 1.0 ==> Min(a, b) <= r <= Max(a, b)
    ensures a == b ==> r == a
  {
    LerpBetween(a, b, t);
    a + (b - a) * t
  }

  lemma LerpBetween(a: real, b: real, t: real)
    ensures 0.0 <= t <= 1.0 ==> Min(a, b) <= a + (b - a) * t <= Max(a, b)
  {
    if 0.0 <= t <= 1.0 {
      var k := b - a;
      ScaleByFraction(k, t);
      assert a + k * t == a + (b - a) * t;
      if a <= b {
        assert a <= a + k * t <= b;
        assert Min(a, b) == a && Max(a, b) == b;
      } else {
        assert b <= a + k * t <= a;
        assert Min(a, b) == b && Max(a, b) == a;
      }
    }
  }

  /** Scaling by a fraction moves a value towards zero without crossing it. */
  lemma ScaleByFraction(k: real, t: real)
    requires 0.0 <= t <= 1.0
    ensures k >= 0.0 ==> 0.0 <= k * t <= k
    ensures k <= 0.0 ==> k <= k * t <= 0.0
  {
    assert k - k * t == k * (1.0 - t);
  }

  /** Twice the signed area of the triangle (p1, p2, p3): its orientation. */
  function Sign(p1x: real, p1y: real, p2x: real, p2y: real, p3x: real, p3y: real): (r: real)
    ensures (p1x == p2x && p1y == p2y) || (p2x == p3x && p2y == p3y) || (p3x == p1x && p3y == p1y) ==> r == 0.0
  {
    (p1x - p3x) * (p2y - p3y) - (p2x - p3x) * (p1y - p3y)
  }

  /** True when the point lies inside the triangle or on its boundary. */
  function IsPointInTriangle(xp: real, yp: real, xa: real, ya: real, xb: real, yb: real, xc: real, yc: real): (r: bool)
    ensures (xp == xa && yp == ya) || (xp == xb && yp == yb) || (xp == xc && yp == yc) ==> r
  {
    var s1 := Sign(xp, yp, xa, ya, xb, yb);
    var s2 := Sign(xp, yp, xb, yb, xc, yc);
    var s3 := Sign(xp, yp, xc, yc, xa, ya);
    var hasNeg := s1 < 0.0 || s2 < 0.0 || s3 < 0.0;
    var hasPos := s1 > 0.0 || s2 > 0.0 || s3 > 0.0;
    !(hasNeg && hasPos)
  }

  /** The test in words: the three orientations never disagree in sign. */
  predicate SignsAgree(s1: real, s2: real, s3: real)
  {
    (s1 >= 0.0 && s2 >= 0.0 && s3 >= 0.0) || (s1 <= 0.0 && s2 <= 0.0 && s3 <= 0.0)
  }

  lemma InTriangleIffSignsAgree(xp: real, yp: real, xa: real, ya: real, xb: real, yb: real, xc: real, yc: real)
    ensures IsPointInTriangle(xp, yp, xa, ya, xb, yb, xc, yc) <==>
            SignsAgree(Sign(xp, yp, xa, ya, xb, yb), Sign(xp, yp, xb, yb, xc, yc), Sign(xp, yp, xc, yc, xa, ya))
  {
  }

  lemma SignSwapFirstTwo(p1x: real, p1y: real, p2x: real, p2y: real, p3x: real, p3y: real)
    ensures Sign(p2x, p2y, p1x, p1y, p3x, p3y) == -Sign(p1x, p1y, p2x, p2y, p3x, p3y)
  {
  }

  lemma SignRotate(p1x: real, p1y: real, p2x: real, p2y: real, p3x: real, p3y: real)
    ensures Sign(p2x, p2y, p3x, p3y, p1x, p1y) == Sign(p1x, p1y, p2x, p2y, p3x, p3y)
  {
  }

  /** The three partial orientations around p add up to the triangle's own orientation. */
  lemma SignSum(xp: real, yp: real, xa: real, ya: real, xb: real, yb: real, xc: real, yc: real)
    ensures Sign(xp, yp, xa, ya, xb, yb) + Sign(xp, yp, xb, yb, xc, yc) + Sign(xp, yp, xc, yc, xa, ya)
            == Sign(xa, ya, xb, yb, xc, yc)
  {
  }

  lemma VerticesAreInside(xa: real, ya: real, xb: real, yb: real, xc: real, yc: real)
    ensures IsPointInTriangle(xa, ya, xa, ya, xb, yb, xc, yc)
    ensures IsPointInTriangle(xb, yb, xa, ya, xb, yb, xc, yc)
    ensures IsPointInTriangle(xc, yc, xa, ya, xb, yb, xc, yc)
  {
  }

  lemma RotationInvariant(xp: real, yp: real, xa: real, ya: real, xb: real, yb: real, xc: real, yc: real)
    ensures IsPointInTriangle(xp, yp, xa, ya, xb, yb, xc, yc) == IsPointInTriangle(xp, yp, xb, yb, xc, yc, xa, ya)
  {
  }

  lemma ReversalInvariant(xp: real, yp: real, xa: real, ya: real, xb: real, yb: real, xc: real, yc: real)
    ensures IsPointInTriangle(xp, yp, xa, ya, xb, yb, xc, yc) == IsPointInTriangle(xp, yp, xc, yc, xb, yb, xa, ya)
  {
    // Reversing the vertex order negates each of the three orientations.
    SignRotate(xp, yp, xc, yc, xb, yb);
    SignSwapFirstTwo(xb, yb, xp, yp, xc, yc);
    SignRotate(xb, yb, xp, yp, xc, yc);
    SignRotate(xp, yp, xa, ya, xc, yc);
    SignSwapFirstTwo(xc, yc, xp, yp, xa, ya);
    SignRotate(xc, yc, xp, yp, xa, ya);
    SignRotate(xp, yp, xb, yb, xa, ya);
    SignSwapFirstTwo(xa, ya, xp, yp, xb, yb);
    SignRotate(xa, ya, xp, yp, xb, yb);
  }

  lemma TranslationInvariant(xp: real, yp: real, xa: real, ya: real, xb: real, yb: real, xc: real, yc: real, dx: real, dy: real)
    ensures IsPointInTriangle(xp, yp, xa, ya, xb, yb, xc, yc)
            == IsPointInTriangle(xp + dx, yp + dy, xa + dx, ya + dy, xb + dx, yb + dy, xc + dx, yc + dy)
  {
  }

  /** Mirroring the picture left to right flips every orientation, so the test is unchanged. */
  lemma MirrorInvariant(xp: real, yp: real, xa: real, ya: real, xb: real, yb: real, xc: real, yc: real)
    ensures IsPointInTriangle(-xp, yp, -xa, ya, -xb, yb, -xc, yc) == IsPointInTriangle(xp, yp, xa, ya, xb, yb, xc, yc)
  {
    assert Sign(-xp, yp, -xa, ya, -xb, yb) == -Sign(xp, yp, xa, ya, xb, yb);
    assert Sign(-xp, yp, -xb, yb, -xc, yc) == -Sign(xp, yp, xb, yb, xc, yc);
    assert Sign(-xp, yp, -xc, yc, -xa, ya) == -Sign(xp, yp, xc, yc, xa, ya);
  }

  lemma DegenerateIsAllInside(xp: real, yp: real, xa: real, ya: real)
    ensures IsPointInTriangle(xp, yp, xa, ya, xa, ya, xa, ya)
  {
  }

  lemma CentroidIsInside(xa: real, ya: real, xb: real, yb: real, xc: real, yc: real)
    ensures IsPointInTriangle((xa + xb + xc) / 3.0, (ya + yb + yc) / 3.0, xa, ya, xb, yb, xc, yc)
  {
    var gx, gy := (xa + xb + xc) / 3.0, (ya + yb + yc) / 3.0;
    var d := Sign(xa, ya, xb, yb, xc, yc);
    assert Sign(gx, gy, xa, ya, xb, yb) == d / 3.0;
    assert Sign(gx, gy, xb, yb, xc, yc) == d / 3.0;
    assert Sign(gx, gy, xc, yc, xa, ya) == d / 3.0;
  }

  /**
   * For a counter-clockwise triangle (positive orientation) the point is a
   * convex combination of the vertices whose weights are the partial orientations.
   */
  lemma Barycentric(xp: real, yp: real, xa: real, ya: real, xb: real, yb: real, xc: real, yc: real)
    ensures xp * Sign(xa, ya, xb, yb, xc, yc)
            == Sign(xp, yp, xb, yb, xc, yc) * xa + Sign(xp, yp, xc, yc, xa, ya) * xb + Sign(xp, yp, xa, ya, xb, yb) * xc
  {
  }

  /** A point in a non-degenerate triangle is not left of its leftmost vertex. */
  lemma InsideIsRightOfLeftmostVertex(xp: real, yp: real, xa: real, ya: real, xb: real, yb: real, xc: real, yc: real)
    requires Sign(xa, ya, xb, yb, xc, yc) != 0.0
    requires IsPointInTriangle(xp, yp, xa, ya, xb, yb, xc, yc)
    ensures xp >= Min(xa, Min(xb, xc))
  {
    var s1, s2, s3 := Sign(xp, yp, xa, ya, xb, yb), Sign(xp, yp, xb, yb, xc, yc), Sign(xp, yp, xc, yc, xa, ya);
    var d := Sign(xa, ya, xb, yb, xc, yc);
    var m := Min(xa, Min(xb, xc));
    SignSum(xp, yp, xa, ya, xb, yb, xc, yc);
    Barycentric(xp, yp, xa, ya, xb, yb, xc, yc);
    // xp * d is the combination of xa, xb, xc with weights s2, s3, s1, which sum to d,
    // and the weights share the sign of d.
    if d > 0.0 {
      WeightedSumAtLeast(s2, s3, s1, xa, xb, xc, m);
      CancelPositive(xp - m, d);
    } else {
      WeightedSumAtLeast(-s2, -s3, -s1, xa, xb, xc, m);
      CancelPositive(xp - m, -d);
    }
  }

  lemma WeightedSumAtLeast(w1: real, w2: real, w3: real, x1: real, x2: real, x3: real, m: real)
    requires w1 >= 0.0 && w2 >= 0.0 && w3 >= 0.0
    requires x1 >= m && x2 >= m && x3 >= m
    ensures w1 * x1 + w2 * x2 + w3 * x3 >= (w1 + w2 + w3) * m
  {
    ScaleNonNegative(w1, x1 - m);
    ScaleNonNegative(w2, x2 - m);
    ScaleNonNegative(w3, x3 - m);
  }

  lemma ScaleNonNegative(w: real, u: real)
    requires w >= 0.0 && u >= 0.0
    ensures w * u >= 0.0
  {
  }

  lemma CancelPositive(u: real, d: real)
    requires d > 0.0 && u * d >= 0.0
    ensures u >= 0.0
  {
  }

  /** A point strictly to the left of every vertex of a non-degenerate triangle is outside. */
  lemma LeftOfTriangleIsOutside(xp: real, yp: real, xa: real, ya: real, xb: real, yb: real, xc: real, yc: real)
    requires Sign(xa, ya, xb, yb, xc, yc) != 0.0
    requires xp < xa && xp < xb && xp < xc
    ensures !IsPointInTriangle(xp, yp, xa, ya, xb, yb, xc, yc)
  {
    if IsPointInTriangle(xp, yp, xa, ya, xb, yb, xc, yc) {
      InsideIsRightOfLeftmostVertex(xp, yp, xa, ya, xb, yb, xc, yc);
    }
  }

  /** Swapping the two axes flips every orientation, so the test is unchanged. */
  lemma TransposeInvariant(xp: real, yp: real, xa: real, ya: real, xb: real, yb: real, xc: real, yc: real)
    ensures IsPointInTriangle(yp, xp, ya, xa, yb, xb, yc, xc) == IsPointInTriangle(xp, yp, xa, ya, xb, yb, xc, yc)
  {
    assert Sign(yp, xp, ya, xa, yb, xb) == -Sign(xp, yp, xa, ya, xb, yb);
    assert Sign(yp, xp, yb, xb, yc, xc) == -Sign(xp, yp, xb, yb, xc, yc);
    assert Sign(yp, xp, yc, xc, ya, xa) == -Sign(xp, yp, xc, yc, xa, ya);
  }

  /** A point strictly to the right of every vertex of a non-degenerate triangle is outside. */
  lemma RightOfTriangleIsOutside(xp: real, yp: real, xa: real, ya: real, xb: real, yb: real, xc: real, yc: real)
    requires Sign(xa, ya, xb, yb, xc, yc) != 0.0
    requires xp > xa && xp > xb && xp > xc
    ensures !IsPointInTriangle(xp, yp, xa, ya, xb, yb, xc, yc)
  {
    assert Sign(-xa, ya, -xb, yb, -xc, yc) == -Sign(xa, ya, xb, yb, xc, yc);
    LeftOfTriangleIsOutside(-xp, yp, -xa, ya, -xb, yb, -xc, yc);
    MirrorInvariant(xp, yp, xa, ya, xb, yb, xc, yc);
  }

  /** A point strictly above every vertex (smaller y) of a non-degenerate triangle is outside. */
  lemma AboveTriangleIsOutside(xp: real, yp: real, xa: real, ya: real, xb: real, yb: real, xc: real, yc: real)
    requires Sign(xa, ya, xb, yb, xc, yc) != 0.0
    requires yp < ya && yp < yb && yp < yc
    ensures !IsPointInTriangle(xp, yp, xa, ya, xb, yb, xc, yc)
  {
    assert Sign(ya, xa, yb, xb, yc, xc) == -Sign(xa, ya, xb, yb, xc, yc);
    LeftOfTriangleIsOutside(yp, xp, ya, xa, yb, xb, yc, xc);
    TransposeInvariant(xp, yp, xa, ya, xb, yb, xc, yc);
  }

  /** A point strictly below every vertex (larger y) of a non-degenerate triangle is outside. */
  lemma BelowTriangleIsOutside(xp: real, yp: real, xa: real, ya: real, xb: real, yb: real, xc: real, yc: real)
    requires Sign(xa, ya, xb, yb, xc, yc) != 0.0
    requires yp > ya && yp > yb && yp > yc
    ensures !IsPointInTriangle(xp, yp, xa, ya, xb, yb, xc, yc)
  {
    assert Sign(ya, xa, yb, xb, yc, xc) == -Sign(xa, ya, xb, yb, xc, yc);
    RightOfTriangleIsOutside(yp, xp, ya, xa, yb, xb, yc, xc);
    TransposeInvariant(xp, yp, xa, ya, xb, yb, xc, yc);
  }

  /** A point outside the bounding box of a non-degenerate triangle is outside the triangle. */
  lemma OutsideBoundingBoxIsOutside(xp: real, yp: real, xa: real, ya: real, xb: real, yb: real, xc: real, yc: real)
    requires Sign(xa, ya, xb, yb, xc, yc) != 0.0
    requires || xp < Min(xa, Min(xb, xc)) || xp > Max(xa, Max(xb, xc))
             || yp < Min(ya, Min(yb, yc)) || yp > Max(ya, Max(yb, yc))
    ensures !IsPointInTriangle(xp, yp, xa, ya, xb, yb, xc, yc)
  {
    if xp < Min(xa, Min(xb, xc)) {
      LeftOfTriangleIsOutside(xp, yp, xa, ya, xb, yb, xc, yc);
    } else if xp > Max(xa, Max(xb, xc)) {
      RightOfTriangleIsOutside(xp, yp, xa, ya, xb, yb, xc, yc);
    } else if yp < Min(ya, Min(yb, yc)) {
      AboveTriangleIsOutside(xp, yp, xa, ya, xb, yb, xc, yc);
    } else {
      BelowTriangleIsOutside(xp, yp, xa, ya, xb, yb, xc, yc);
    }
  }
}
