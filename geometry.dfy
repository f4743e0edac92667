/**
 * Points, angles and the two numeric oracles both apps rely on.
 *
 * The apps call Math.atan2, Math.cos, Math.sin, Math.hypot and Math.sqrt.
 * None of these is computed here: an angle is carried as its cosine and
 * sine (a Turn), and a caller supplies the values, which the predicates
 * below tie exactly to the coordinates they were computed from.
 */
module Geometry {

  datatype Point2 = Point2(x: real, y: real)

  datatype Point3 = Point3(x: real, y: real, z: real)

  /** An angle, given by its cosine and sine. */
  datatype Turn = Turn(cos: real, sin: real)

  /** The angle 0. */
  const Level: Turn := Turn(1.0, 0.0)

  predicate IsUnit(t: Turn) {
    t.cos * t.cos + t.sin * t.sin == 1.0
  }

  /**
   * `h` is what Math.hypot(dx, dy), or Math.sqrt(dx * dx + dy * dy),
   * returns: the non-negative square root of dx² + dy².
   */
  predicate IsHypot(dx: real, dy: real, h: real) {
    0.0 <= h && h * h == dx * dx + dy * dy
  }

  /**
   * `t` is the angle Math.atan2(dy, dx) returns: a unit turn such that
   * (dx, dy) is r·(cos, sin) for a length r >= 0, and the angle 0 when
   * dx = dy = 0.  The length r is the projection of (dx, dy) on the turn.
   */
  predicate IsDirectionOf(dx: real, dy: real, t: Turn) {
    var r := dx * t.cos + dy * t.sin;
    && IsUnit(t)
    && 0.0 <= r && t.cos * r == dx && t.sin * r == dy
    && (dx == 0.0 && dy == 0.0 ==> t == Level)
  }

  /** The angle -a, for a = t. */
  function Negate(t: Turn): (r: Turn)
    ensures r.cos == t.cos && r.sin + t.sin == 0.0
  {
    Turn(t.cos, -t.sin)
  }

  /** The opposite of an angle is an angle, and only an angle has one. */
  lemma NegateUnit(t: Turn)
    ensures IsUnit(t) <==> IsUnit(Negate(t))
  {
    assert Negate(t).sin * Negate(t).sin == t.sin * t.sin;
  }

  /** A product with a non-zero factor vanishes only when the other factor does. */
  lemma ZeroProduct(p: real, q: real)
    requires q != 0.0 && p * q == 0.0
    ensures p == 0.0
  {
    assert p == (p * q) / q;
  }

  /** A product of positive factors is positive. */
  lemma PositiveProduct(p: real, q: real)
    requires 0.0 < p && 0.0 < q
    ensures 0.0 < p * q
  {
  }

  /** The hypotenuse of a horizontal vector pointing right is its length. */
  lemma LevelHypot(dx: real, h: real)
    requires 0.0 < dx && IsHypot(dx, 0.0, h)
    ensures h == dx
  {
    ZeroProduct(h - dx, h + dx);
  }

  /** A level pair, the first point to the right of the second, gives the angle 0. */
  lemma LevelDirection(dx: real, dy: real, t: Turn)
    requires 0.0 < dx && dy == 0.0 && IsDirectionOf(dx, dy, t)
    ensures t == Level
  {
    var r := dx * t.cos;
    assert r != 0.0 by {
      assert t.cos * r == dx;
    }
    assert t.sin == 0.0 by {
      ZeroProduct(t.sin, r);
    }
    assert 0.0 < t.cos by {
      assert t.cos == r / dx;
    }
    ZeroProduct(t.cos - 1.0, t.cos + 1.0);
  }

  /** The angle of a horizontal vector pointing left: atan2(0, negative) is pi. */
  const HalfTurn := Turn(-1.0, 0.0)

  /** A level pair, the first point to the left of the second, gives the angle pi. */
  lemma HalfTurnDirection(dx: real, dy: real, t: Turn)
    requires dx < 0.0 && dy == 0.0 && IsDirectionOf(dx, dy, t)
    ensures t == HalfTurn
  {
    var r := dx * t.cos;
    assert r != 0.0 by {
      assert t.cos * r == dx;
    }
    assert t.sin == 0.0 by {
      ZeroProduct(t.sin, r);
    }
    assert t.cos < 0.0 by {
      assert t.cos == dx / r;
    }
    ZeroProduct(t.cos + 1.0, t.cos - 1.0);
  }

}
