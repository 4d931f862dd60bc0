/**
 * Directions of vectors and the signed angle between two of them, folded
 * into the shorter of the two possible rotations, together with the sums
 * of such angles along a path of samples.
 */
module Angles {
  import opened Geometry

  /** The double-precision value of pi that the recognizer compares with. */
  const Pi: real := 3.141592653589793115997963468544185161590576171875

  /** Two-argument arctangent, known only by its range: [-Pi, Pi]. */
  type Atan2Fn = f: (real, real) -> real | forall y, x :: -Pi <= f(y, x) <= Pi
    witness (y: real, x: real) => 0.0

  /**
   * The math library's `atan2(y, x)`. Nothing is known about it beyond
   * its range; in particular no value of it is fixed.
   */
  const Atan2: Atan2Fn

  function Abs(r: real): real {
    if r < 0.0 then -r else r
  }

  /** The direction of `v`, in radians. */
  function Heading(v: Vector): (h: real)
    ensures -Pi <= h <= Pi
  {
    Atan2(v.dy, v.dx)
  }

  /** Difference of the two directions before it is folded. */
  function RawAngle(receiver: Vector, vector: Vector): real {
    Heading(receiver) - Heading(vector)
  }

  /**
   * The signed angle from `vector` to `receiver`. It is the raw
   * difference of directions shifted by a whole turn when that
   * difference lies outside [-Pi, Pi]: the result lies in [-Pi, Pi],
   * names the same direction as the raw difference, and equals it
   * exactly when the raw difference is already within [-Pi, Pi].
   * Both comparisons are strict, so a raw difference of exactly Pi or
   * exactly -Pi is kept as it is.
   */
  function AngleFromVector(receiver: Vector, vector: Vector): (angle: real)
    ensures -Pi <= angle <= Pi
    ensures angle == RawAngle(receiver, vector)
         || angle == RawAngle(receiver, vector) - 2.0 * Pi
         || angle == RawAngle(receiver, vector) + 2.0 * Pi
    ensures angle == RawAngle(receiver, vector) <==> -Pi <= RawAngle(receiver, vector) <= Pi
  {
    var angle := Atan2(receiver.dy, receiver.dx) - Atan2(vector.dy, vector.dx);
    if angle > Pi then
      angle - Pi * 2.0
    else if angle < -Pi then
      angle + Pi * 2.0
    else
      angle
  }

  /** How many whole turns `AngleFromVector` adds to the raw difference. */
  function Turn(receiver: Vector, vector: Vector): int {
    var raw := RawAngle(receiver, vector);
    if raw > Pi then -1 else if raw < -Pi then 1 else 0
  }

  /** The folded angle is the raw difference plus `Turn` whole turns. */
  lemma AngleIsRawPlusTurns(receiver: Vector, vector: Vector)
    ensures AngleFromVector(receiver, vector)
         == RawAngle(receiver, vector) + 2.0 * Pi * Turn(receiver, vector) as real
    ensures -1 <= Turn(receiver, vector) <= 1
  {
  }

  /** A vector measured against itself has turned by nothing. */
  lemma AngleFromSelf(v: Vector)
    ensures AngleFromVector(v, v) == 0.0
  {
  }

  /** Measuring in the opposite order negates the angle, even at +-Pi. */
  lemma AngleAntisymmetric(a: Vector, b: Vector)
    ensures AngleFromVector(b, a) == -AngleFromVector(a, b)
  {
  }

  /**
   * The acute-angle property: of all the rotations that lead to the same
   * direction as the raw difference, the folded angle is a shortest one.
   */
  lemma AngleIsShortest(receiver: Vector, vector: Vector, k: int)
    ensures Abs(AngleFromVector(receiver, vector))
         <= Abs(RawAngle(receiver, vector) + 2.0 * Pi * k as real)
  {
  }

  /**
   * If `receiver` lies at angle `theta` from `vector`, up to whole turns,
   * with `theta` in [-Pi, Pi], then `theta` is what is measured; at the
   * two ends, where -Pi and Pi name the same direction, the measured
   * value may be the other end.
   */
  lemma AngleRecoversRotation(receiver: Vector, vector: Vector, theta: real, k: int)
    requires -Pi <= theta <= Pi
    requires RawAngle(receiver, vector) == theta + 2.0 * Pi * k as real
    ensures AngleFromVector(receiver, vector) == theta
         || (theta == Pi && AngleFromVector(receiver, vector) == -Pi)
         || (theta == -Pi && AngleFromVector(receiver, vector) == Pi)
  {
  }

  /**
   * A quarter turn that crosses the direction where headings jump from Pi
   * to -Pi is measured as a quarter turn, not as three quarters the other
   * way.
   */
  lemma QuarterTurnAcrossCut(receiver: Vector, vector: Vector)
    requires Heading(vector) == 3.0 * Pi / 4.0 && Heading(receiver) == -3.0 * Pi / 4.0
    ensures AngleFromVector(receiver, vector) == Pi / 2.0
    ensures AngleFromVector(vector, receiver) == -Pi / 2.0
  {
  }

  /** Sum of a sequence of angles. */
  function Sum(s: seq<real>): real {
    if s == [] then 0.0 else s[0] + Sum(s[1..])
  }

  /** Every angle of `s` is at most half a turn in either direction. */
  predicate WithinHalfTurn(s: seq<real>) {
    forall i :: 0 <= i < |s| ==> -Pi <= s[i] <= Pi
  }

  /** Appending an angle adds it to the sum. */
  lemma {:induction false} SumAppend(s: seq<real>, d: real)
    ensures Sum(s + [d]) == Sum(s) + d
  {
    if s == [] {
      assert [] + [d] == [d];
    } else {
      assert (s + [d])[1..] == s[1..] + [d];
      SumAppend(s[1..], d);
    }
  }

  /** n angles of at most half a turn add up to at most n half turns. */
  lemma {:induction false} SumBound(s: seq<real>)
    requires WithinHalfTurn(s)
    ensures -(|s| as real) * Pi <= Sum(s) <= (|s| as real) * Pi
  {
    if s != [] {
      assert WithinHalfTurn(s[1..]) by {
        forall i | 0 <= i < |s[1..]| ensures -Pi <= s[1..][i] <= Pi {
          assert s[1..][i] == s[i + 1];
        }
      }
      SumBound(s[1..]);
      assert (|s| as real) * Pi == Pi + (|s[1..]| as real) * Pi;
    }
  }

  /** The angles measured between successive vectors of a path starting at `start`. */
  function PathAngles(start: Vector, path: seq<Vector>): (angles: seq<real>)
    ensures |angles| == |path|
    ensures WithinHalfTurn(angles)
    decreases path
  {
    if path == [] then []
    else [AngleFromVector(path[0], start)] + PathAngles(path[0], path[1..])
  }

  /** The vector a path ends at. */
  function PathEnd(start: Vector, path: seq<Vector>): Vector {
    if path == [] then start else path[|path| - 1]
  }

  /** Extending a path by one vector adds the angle measured from its old end. */
  lemma {:induction false} PathAnglesAppend(start: Vector, path: seq<Vector>, v: Vector)
    ensures PathAngles(start, path + [v])
         == PathAngles(start, path) + [AngleFromVector(v, PathEnd(start, path))]
    ensures PathEnd(start, path + [v]) == v
    decreases path
  {
    if path != [] {
      assert (path + [v])[1..] == path[1..] + [v];
      PathAnglesAppend(path[0], path[1..], v);
    }
  }

  /** Whole turns added along a path. */
  function PathTurns(start: Vector, path: seq<Vector>): int
    decreases path
  {
    if path == [] then 0 else Turn(path[0], start) + PathTurns(path[0], path[1..])
  }

  /**
   * Accumulating the measured angles along a path gives the change of
   * direction from its first vector to its last, up to whole turns: the
   * accumulated rotation is continuous where the directions jump at +-Pi.
   */
  lemma {:induction false} PathRotationWinds(start: Vector, path: seq<Vector>)
    ensures Sum(PathAngles(start, path))
         == Heading(PathEnd(start, path)) - Heading(start) + 2.0 * Pi * PathTurns(start, path) as real
    decreases path
  {
    if path != [] {
      PathRotationWinds(path[0], path[1..]);
      AngleIsRawPlusTurns(path[0], start);
      assert PathEnd(path[0], path[1..]) == PathEnd(start, path);
      var t := Turn(path[0], start);
      var rest := PathTurns(path[0], path[1..]);
      assert 2.0 * Pi * (t + rest) as real == 2.0 * Pi * t as real + 2.0 * Pi * rest as real;
    }
  }
}
