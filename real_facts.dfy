/** Small facts of real arithmetic used by the geometry proofs. Each is stated over
    plain variables so that a caller can pass the very terms its own goal mentions. */
module RealFacts {

  lemma MulPos(a: real, b: real)
    requires a > 0.0 && b > 0.0
    ensures a * b > 0.0
  {}

  lemma MulNonzero(a: real, b: real)
    requires a != 0.0 && b != 0.0
    ensures a * b != 0.0
  {}

  lemma MulNonneg(a: real, b: real)
    requires !(a < 0.0) && !(b < 0.0)
    ensures !(a * b < 0.0)
  {}

  /** Two non-negative numbers with the same square are equal. */
  lemma SquareRootUnique(r: real, c: real)
    requires 0.0 <= r && 0.0 <= c && r * r == c * c
    ensures r == c
  {
    if r > c {
      assert (r - c) * (r + c) == r * r - c * c;
      MulPos(r - c, r + c);
    } else if r < c {
      assert (c - r) * (c + r) == c * c - r * r;
      MulPos(c - r, c + r);
    }
  }

  /** The same, with the common square named. */
  lemma SqrtEq(r: real, c: real, s: real)
    requires 0.0 <= r && 0.0 <= c && r * r == s && c * c == s
    ensures r == c
  {
    SquareRootUnique(r, c);
  }

  /** Among non-negative numbers, a smaller square means a smaller number. */
  lemma SqrtMono(r: real, c: real, s1: real, s2: real)
    requires 0.0 <= r && 0.0 <= c && r * r == s1 && c * c == s2 && !(s1 > s2)
    ensures !(r > c)
  {
    if r > c {
      assert (r - c) * (r + c) == r * r - c * c;
      MulPos(r - c, r + c);
    }
  }

  lemma DivCancel(a: real, n: real)
    requires n != 0.0
    ensures (a / n) * n == a
  {}

  lemma DivNonneg(a: real, n: real)
    requires !(a < 0.0) && n > 0.0
    ensures !(a / n < 0.0)
  {}

  /** Scaling a unit vector: if (u, w) * n = (dx, dy) with n the length of (dx, dy),
      then (u, w) * c has squared length (m * n)^2 where m * n = c. */
  lemma ScaledUnitSquare(u: real, w: real, m: real, n: real, dx: real, dy: real, c: real)
    requires u * n == dx && w * n == dy && m * n == c && n * n == dx * dx + dy * dy
    ensures (u * c) * (u * c) + (w * c) * (w * c) == (m * n) * (m * n)
  {}

  /** ... and its dot product with (dx, dy) is c * n. */
  lemma ScaledUnitDot(u: real, w: real, m: real, n: real, dx: real, dy: real, c: real)
    requires u * n == dx && w * n == dy && m * n == c && n * n == dx * dx + dy * dy
    ensures dx * (u * c) + dy * (w * c) == c * n
  {}

  /** Pythagoras along a line: with t the projection parameter of (ux, uy) on
      (wx, wy), the squared distance from (ux, uy) to the point s of the way along
      (wx, wy) splits into the squared distance to the foot of the perpendicular plus
      the squared run from s to t. */
  lemma LineSplit(ux: real, uy: real, wx: real, wy: real, t: real, s: real)
    requires t * (wx * wx + wy * wy) == ux * wx + uy * wy
    ensures (ux - s * wx) * (ux - s * wx) + (uy - s * wy) * (uy - s * wy)
            == (ux - t * wx) * (ux - t * wx) + (uy - t * wy) * (uy - t * wy)
               + (t - s) * (t - s) * (wx * wx + wy * wy)
  {}

  /** When the projection parameter t is at most 0, no point s in [0, 1] of the way
      along (wx, wy) is nearer to (ux, uy) than the start; (lx, ly) is the offset from
      that point. */
  lemma BeforeMono(ux: real, uy: real, wx: real, wy: real, t: real, s: real, lx: real, ly: real)
    requires t * (wx * wx + wy * wy) == ux * wx + uy * wy
    requires !(t > 0.0) && !(s < 0.0) && !(wx * wx + wy * wy < 0.0)
    requires lx == ux - s * wx && ly == uy - s * wy
    ensures !(SumOfSquares(ux, uy) > SumOfSquares(lx, ly))
  {
    MulNonneg(s, s - 2.0 * t);
    MulNonneg(s * (s - 2.0 * t), wx * wx + wy * wy);
    assert lx * lx + ly * ly == ux * ux + uy * uy + s * (s - 2.0 * t) * (wx * wx + wy * wy);
  }

  /** When the projection parameter t is at least 1, no point s in [0, 1] of the way
      along (wx, wy) is nearer to (ux, uy) than the end; (ex, ey) is the offset from the
      end and (lx, ly) the offset from the point. */
  lemma AfterMono(ux: real, uy: real, wx: real, wy: real, t: real, s: real,
                  ex: real, ey: real, lx: real, ly: real)
    requires t * (wx * wx + wy * wy) == ux * wx + uy * wy
    requires !(t < 1.0) && !(s > 1.0) && !(wx * wx + wy * wy < 0.0)
    requires ex == ux - wx && ey == uy - wy && lx == ux - s * wx && ly == uy - s * wy
    ensures !(SumOfSquares(ex, ey) > SumOfSquares(lx, ly))
  {
    assert !((1.0 - s) * (2.0 * t - 1.0 - s) < 0.0) by {
      MulNonneg(1.0 - s, 2.0 * t - 1.0 - s);
    }
    MulNonneg((1.0 - s) * (2.0 * t - 1.0 - s), wx * wx + wy * wy);
    assert lx * lx + ly * ly == ex * ex + ey * ey + (1.0 - s) * (2.0 * t - 1.0 - s) * (wx * wx + wy * wy);
  }

  /** No point s of the way along (wx, wy) is nearer to (ux, uy) than the foot of the
      perpendicular at the projection parameter t, the t with t n = d where n is the
      squared length of (wx, wy) and d its dot product with (ux, uy); (fx, fy) is the
      offset from the foot and (lx, ly) the offset from the point. */
  lemma InsideMono(ux: real, uy: real, wx: real, wy: real, t: real, s: real,
                   fx: real, fy: real, lx: real, ly: real, n: real, d: real)
    requires n == wx * wx + wy * wy && d == ux * wx + uy * wy
    requires fx == ux - t * wx && fy == uy - t * wy && lx == ux - s * wx && ly == uy - s * wy
    ensures Scales(t, n, d) ==> !(SumOfSquares(fx, fy) > SumOfSquares(lx, ly))
  {
    if Scales(t, n, d) {
      SumOfSquaresNonneg(wx, wy);
      LineSplit(ux, uy, wx, wy, t, s);
      SquareTimesNonneg(t - s, n);
    }
  }

  /** t times n is d. Named, like `SumOfSquares`, so that callers can pass these
      facts along without restating the products. */
  predicate Scales(t: real, n: real, d: real)
  {
    t * n == d
  }

  /** The squared length of the vector (x, y). */
  function SumOfSquares(x: real, y: real): real
  {
    x * x + y * y
  }

  lemma SumOfSquaresNonneg(x: real, y: real)
    ensures !(x * x + y * y < 0.0)
  {}

  lemma SquareTimesNonneg(s: real, q: real)
    requires !(q < 0.0)
    ensures !(s * s * q < 0.0)
  {}
}
