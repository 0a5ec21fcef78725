/**
 * The parts of Python's `math` module the camera code uses. `tan`, `atan`, `hypot` and `pi`
 * have no closed form over the reals, so they are parameters: a `Math` value bundles them and
 * `Valid` states the few facts about them that the proofs rely on. `radians`, `degrees` and
 * `max` are defined outright.
 */
module MathLib {

  datatype Math = Math(pi: real, tan: real -> real, atan: real -> real, hypot: (real, real) -> real)

  /** The axioms: all of them hold of the real trigonometric functions and of `hypot`. */
  ghost predicate Valid(m: Math) {
    && m.pi > 0.0
    && (forall x :: 0.0 < x < m.pi / 2.0 ==> m.tan(x) > 0.0)
    && (forall x :: m.tan(m.atan(x)) == x)
    && (forall x :: x > 0.0 ==> 0.0 < m.atan(x) < m.pi / 2.0)
    && (forall a, b :: m.hypot(a, b) >= 0.0 && m.hypot(a, b) * m.hypot(a, b) == a * a + b * b)
  }

  /** `math.radians`: degrees times pi/180. */
  function Radians(m: Math, deg: real): real {
    deg * (m.pi / 180.0)
  }

  /** `math.degrees`: radians times 180/pi. */
  function Degrees(m: Math, rad: real): real
    requires m.pi != 0.0
  {
    rad * (180.0 / m.pi)
  }

  /** Python's two-argument `max`: the first argument unless the second is strictly larger. */
  function Max(a: real, b: real): (r: real)
    ensures r >= a && r >= b
    ensures r == a || r == b
  {
    if b > a then b else a
  }

  /** `hypot(a, b)` is at least the absolute value of each argument. */
  lemma HypotBounds(m: Math, a: real, b: real)
    requires Valid(m)
    ensures m.hypot(a, b) >= a && m.hypot(a, b) >= -a
    ensures m.hypot(a, b) >= b && m.hypot(a, b) >= -b
  {
    var r := m.hypot(a, b);
    assert r >= 0.0 && r * r == a * a + b * b;
    SquareMonotone(r, a);
    SquareMonotone(r, -a);
    SquareMonotone(r, b);
    SquareMonotone(r, -b);
  }

  /** A non-negative number whose square is at least `c * c` is at least `c`. */
  lemma SquareMonotone(r: real, c: real)
    requires r >= 0.0 && r * r >= c * c
    ensures r >= c
  {
    if c > 0.0 {
      assert (r - c) * (r + c) == r * r - c * c;
      assert r + c > 0.0;
    }
  }

  /** `hypot(0, 0)` is zero. */
  lemma HypotZero(m: Math)
    requires Valid(m)
    ensures m.hypot(0.0, 0.0) == 0.0
  {
    var r := m.hypot(0.0, 0.0);
    assert r >= 0.0 && r * r == 0.0;
    SquareMonotone(0.0, r);
  }

  /** For an angle in degrees strictly between 0 and 180, half of it in radians lies in (0, pi/2). */
  lemma HalfAngleInRange(m: Math, deg: real)
    requires Valid(m)
    requires 0.0 < deg < 180.0
    ensures 0.0 < 0.5 * Radians(m, deg) < m.pi / 2.0
    ensures 0.0 < Radians(m, deg * 0.5) < m.pi / 2.0
    ensures m.tan(0.5 * Radians(m, deg)) > 0.0 && m.tan(Radians(m, deg * 0.5)) > 0.0
  {
    var k := m.pi / 180.0;
    assert k > 0.0;
    assert deg * k < 180.0 * k by {
      assert (180.0 - deg) * k > 0.0;
    }
    assert 0.5 * Radians(m, deg) == Radians(m, deg * 0.5) == (deg * 0.5) * k;
  }
}
