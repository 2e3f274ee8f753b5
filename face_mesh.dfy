/** The landmark geometry both analysers share: normalized landmark points as the
    face-mesh detector delivers them, indexed reads that fail like Python's
    `face.landmark[i]` on a short list, and the Euclidean distance of the
    nested `dist` helpers.

    `math.sqrt` has no definition in Dafny's reals, so every distance takes the
    square root as a parameter `root`; `IsSqrt(root)` says that it returns the
    non-negative square root of every non-negative argument. */
module FaceMesh {
  import opened Wrappers

  /** One normalized landmark; the detector's depth coordinate is never read. */
  datatype Landmark = Landmark(x: real, y: real)

  /** The landmark list of one detected face, indexed by mesh vertex number. */
  type Face = seq<Landmark>

  /** Why an analysis produced no result: an `IndexError` on the landmark list,
      or a `ZeroDivisionError` from an unguarded division. */
  datatype AnalysisError = MissingLandmark(index: nat) | DivisionByZero

  /** `face.landmark[i]`. */
  function LandmarkAt(face: Face, i: nat): (r: Result<Landmark, AnalysisError>)
    ensures r.Success? <==> i < |face|
    ensures r.Success? ==> r.value == face[i]
    ensures r.Failure? ==> r.error == MissingLandmark(i)
  {
    if i < |face| then Success(face[i]) else Failure(MissingLandmark(i))
  }

  /** Python's `abs` on a float. */
  function Abs(v: real): (a: real)
    ensures 0.0 <= a
    ensures a == v || a == -v
  {
    if v < 0.0 then -v else v
  }

  /** `root` is a square root on the non-negative reals, as `math.sqrt` is.
      The quantifier fires on `RootOf` terms only, so that a proof draws on it
      where it asks for it (`SqrtFacts`) and nowhere else. */
  ghost predicate IsSqrt(root: real -> real) {
    forall v {:trigger RootOf(root, v)} :: 0.0 <= v ==> 0.0 <= RootOf(root, v) && RootOf(root, v) * RootOf(root, v) == v
  }

  /** `root(v)`, as the term the `IsSqrt` quantifier is triggered on. */
  function RootOf(root: real -> real, v: real): real
  {
    root(v)
  }

  /** What `IsSqrt` says about one argument. */
  lemma SqrtFacts(root: real -> real, v: real)
    requires IsSqrt(root) && 0.0 <= v
    ensures 0.0 <= root(v) && root(v) * root(v) == v
  {
    assert RootOf(root, v) == root(v);
  }

  /** The squared Euclidean distance, `(p1.x - p2.x) ** 2 + (p1.y - p2.y) ** 2`. */
  function SquaredDist(p: Landmark, q: Landmark): (d: real)
    ensures 0.0 <= d
  {
    Square(p.x - q.x) + Square(p.y - q.y)
  }

  /** `v ** 2`. */
  function Square(v: real): (s: real)
    ensures 0.0 <= s
  {
    ProductSelfNonNegative(v);
    v * v
  }

  /** The nested `dist` helper: the Euclidean distance of two landmarks. */
  function Dist(root: real -> real, p: Landmark, q: Landmark): (d: real)
    ensures IsSqrt(root) ==> 0.0 <= d
  {
    assert IsSqrt(root) ==> 0.0 <= root(SquaredDist(p, q)) by {
      if IsSqrt(root) {
        SqrtFacts(root, SquaredDist(p, q));
      }
    }
    root(SquaredDist(p, q))
  }

  /** `abs(p.y - q.y)`: the vertical gap between two landmarks, used as an eye height. */
  function VerticalGap(p: Landmark, q: Landmark): (g: real)
    ensures 0.0 <= g
    ensures g == p.y - q.y || g == q.y - p.y
  {
    Abs(p.y - q.y)
  }

  /** A landmark moved by (dx, dy). */
  function Translated(p: Landmark, dx: real, dy: real): Landmark
  {
    Landmark(p.x + dx, p.y + dy)
  }

  /** A landmark with both coordinates multiplied by k. */
  function Scaled(p: Landmark, k: real): Landmark
  {
    Landmark(k * p.x, k * p.y)
  }

  /** Every landmark of a face moved by (dx, dy). */
  function TranslatedFace(face: Face, dx: real, dy: real): (r: Face)
    ensures |r| == |face|
    ensures forall i :: 0 <= i < |face| ==> r[i] == Translated(face[i], dx, dy)
  {
    seq(|face|, i requires 0 <= i < |face| => Translated(face[i], dx, dy))
  }

  /** Every landmark of a face multiplied by k. */
  function ScaledFace(face: Face, k: real): (r: Face)
    ensures |r| == |face|
    ensures forall i :: 0 <= i < |face| ==> r[i] == Scaled(face[i], k)
  {
    seq(|face|, i requires 0 <= i < |face| => Scaled(face[i], k))
  }

  lemma ProductSelfNonNegative(a: real)
    ensures 0.0 <= a * a
  {
    if a < 0.0 {
      assert a * a == (-a) * (-a);
    }
  }

  /** Two non-negative reals with the same square are equal: the square root is unique. */
  lemma SqrtUnique(a: real, b: real)
    requires 0.0 <= a && 0.0 <= b
    requires a * a == b * b
    ensures a == b
  {
    if a < b {
      SquareStrictlyIncreasing(a, b);
    } else if b < a {
      SquareStrictlyIncreasing(b, a);
    }
  }

  /** Squaring is strictly increasing on the non-negative reals. */
  lemma SquareStrictlyIncreasing(x: real, y: real)
    requires 0.0 <= x < y
    ensures x * x < y * y
  {
    var d := y - x;
    assert y * y == x * x + d * (x + y);
    assert 0.0 < d * (x + y);
  }

  /** A distance is never negative. */
  lemma DistNonNegative(root: real -> real, p: Landmark, q: Landmark)
    requires IsSqrt(root)
    ensures 0.0 <= Dist(root, p, q)
  {
    SqrtFacts(root, SquaredDist(p, q));
  }

  /** Distance does not depend on the order of its arguments. */
  lemma DistSymmetric(root: real -> real, p: Landmark, q: Landmark)
    ensures Dist(root, p, q) == Dist(root, q, p)
  {
    assert Square(p.x - q.x) == Square(q.x - p.x);
    assert Square(p.y - q.y) == Square(q.y - p.y);
  }

  /** The distance from a landmark to itself is zero. */
  lemma DistSelf(root: real -> real, p: Landmark)
    requires IsSqrt(root)
    ensures Dist(root, p, p) == 0.0
  {
    var z := root(SquaredDist(p, p));
    SqrtFacts(root, SquaredDist(p, p));
    assert SquaredDist(p, p) == 0.0 && z * z == 0.0 * 0.0;
    SqrtUnique(z, 0.0);
  }

  /** Moving both landmarks by the same offset keeps their distance. */
  lemma DistTranslated(root: real -> real, p: Landmark, q: Landmark, dx: real, dy: real)
    ensures Dist(root, Translated(p, dx, dy), Translated(q, dx, dy)) == Dist(root, p, q)
  {
    assert (p.x + dx) - (q.x + dx) == p.x - q.x;
    assert (p.y + dy) - (q.y + dy) == p.y - q.y;
    assert SquaredDist(Translated(p, dx, dy), Translated(q, dx, dy)) == SquaredDist(p, q);
  }

  lemma SquareScaled(v: real, k: real)
    ensures Square(k * v) == k * k * Square(v)
  {
    assert (k * v) * (k * v) == k * k * (v * v);
  }

  lemma SquaredDistScaled(p: Landmark, q: Landmark, k: real)
    ensures SquaredDist(Scaled(p, k), Scaled(q, k)) == k * k * SquaredDist(p, q)
  {
    assert k * p.x - k * q.x == k * (p.x - q.x);
    assert k * p.y - k * q.y == k * (p.y - q.y);
    SquareScaled(p.x - q.x, k);
    SquareScaled(p.y - q.y, k);
  }

  lemma SqrtScaled(root: real -> real, d: real, k: real)
    requires IsSqrt(root)
    requires 0.0 <= d && 0.0 <= k
    ensures root(k * k * d) == k * root(d)
  {
    var a, b := root(k * k * d), k * root(d);
    assert 0.0 <= k * k;
    SqrtFacts(root, d);
    SqrtFacts(root, k * k * d);
    assert a * a == k * k * d;
    assert b * b == k * k * (root(d) * root(d));
    SqrtUnique(a, b);
  }

  /** Multiplying both landmarks by k >= 0 multiplies their distance by k. */
  lemma DistScaled(root: real -> real, p: Landmark, q: Landmark, k: real)
    requires IsSqrt(root)
    requires 0.0 <= k
    ensures Dist(root, Scaled(p, k), Scaled(q, k)) == k * Dist(root, p, q)
  {
    SquaredDistScaled(p, q, k);
    SqrtScaled(root, SquaredDist(p, q), k);
  }

  /** Moving both landmarks by the same offset keeps their vertical gap. */
  lemma VerticalGapTranslated(p: Landmark, q: Landmark, dx: real, dy: real)
    ensures VerticalGap(Translated(p, dx, dy), Translated(q, dx, dy)) == VerticalGap(p, q)
  {
    assert (p.y + dy) - (q.y + dy) == p.y - q.y;
  }

  /** Multiplying both landmarks by k >= 0 multiplies their vertical gap by k. */
  lemma VerticalGapScaled(p: Landmark, q: Landmark, k: real)
    requires 0.0 <= k
    ensures VerticalGap(Scaled(p, k), Scaled(q, k)) == k * VerticalGap(p, q)
  {
    assert k * p.y - k * q.y == k * (p.y - q.y);
    if p.y - q.y < 0.0 {
      assert k * (q.y - p.y) == -(k * (p.y - q.y));
    }
  }
}
