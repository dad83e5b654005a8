/** Drawable circles and the rotation generators (`RotCircle`) whose group
    actions the orbit searches explore. */
module Circles {
  import opened Points

  // ---------------------------------------------------------------
  // Circle: a renderable disk with a colour
  // ---------------------------------------------------------------

  /** `[f32; 2]`. */
  datatype Vec2 = Vec2(x: real, y: real)

  /** `[f32; 4]` colour. */
  datatype Rgba = Rgba(r: real, g: real, b: real, a: real)

  /** `Circle`: centre and radius in the Euclidean plane of the screen. */
  datatype Circle = Circle(centre: Vec2, radius: real, col: Rgba)

  /** `CircleInstance`: one instance of the unit-disk quad the GPU draws,
      translated to `centre` and stretched by `scale` on each axis. */
  datatype CircleInstance = CircleInstance(col: Rgba, centre: Vec2, scale: Vec2)

  /** Where an instance puts the point `(u, v)` of the unit disk. */
  function InstancePoint(inst: CircleInstance, u: real, v: real): Vec2
  {
    Vec2(inst.centre.x + inst.scale.x * u, inst.centre.y + inst.scale.y * v)
  }

  /** `get_instance`: the GPU instance for `c` under the per-axis screen
      scale `scale`. The instance keeps the circle's colour, and drawing its
      unit disk lands every point exactly where the circle's own point
      `centre + radius * (u, v)` lands once the screen scale is applied. */
  function GetInstance(c: Circle, scale: Vec2): (inst: CircleInstance)
    ensures inst.col == c.col
    ensures forall u: real, v: real {:trigger InstancePoint(inst, u, v)} ::
      InstancePoint(inst, u, v)
        == Vec2(scale.x * (c.centre.x + c.radius * u), scale.y * (c.centre.y + c.radius * v))
  {
    CircleInstance(c.col, Vec2(c.centre.x * scale.x, c.centre.y * scale.y),
                   Vec2(scale.x * c.radius, scale.y * c.radius))
  }

  // ---------------------------------------------------------------
  // RotCircle: a rotation generator
  // ---------------------------------------------------------------

  /** `RotCircle`: rotation by `TAU / step` about `cen`; its region is the
      open disk of radius `rad`, or the complement when `inverted`. */
  datatype RotCircle = RotCircle(cen: Pos, rad: real, step: nat, inverted: bool)

  /** `RotCircle::new`. */
  function New(cen: Pos, rad: real, step: nat, inverted: bool): (g: RotCircle)
    ensures g.cen == cen && g.rad == rad && g.step == step && g.inverted == inverted
  {
    RotCircle(cen, rad, step, inverted)
  }

  /** The cosine and sine of the rotation angle `TAU / step`. Trigonometry
      is not modelled: the pair is supplied by the caller. */
  datatype Turn = Turn(cos: real, sin: real)

  /** A pair that can be a true cosine and sine: `cos^2 + sin^2 == 1`. */
  predicate IsUnit(t: Turn)
  {
    t.cos * t.cos + t.sin * t.sin == 1.0
  }

  /** The turn by the opposite angle. */
  function Reverse(t: Turn): (r: Turn)
    ensures IsUnit(t) ==> IsUnit(r)
  {
    Turn(t.cos, -t.sin)
  }

  /** `rotate_point`: translate the generator's centre to the origin, apply
      `(x, y) -> (cos x + sin y, cos y - sin x)`, translate back. */
  function RotatePoint(g: RotCircle, t: Turn, p: Pos): Pos
  {
    var x := p.x - g.cen.x;
    var y := p.y - g.cen.y;
    Pos((t.cos * x + t.sin * y) + g.cen.x, (t.cos * y - t.sin * x) + g.cen.y)
  }

  /** A rotation keeps every point at its distance from the centre. */
  lemma RotateKeepsRadius(g: RotCircle, t: Turn, p: Pos)
    requires IsUnit(t)
    ensures DistSq(g.cen, RotatePoint(g, t, p)) == DistSq(g.cen, p)
  {
    RotationKeepsRadius(g.cen.x, g.cen.y, p.x, p.y, t.cos, t.sin);
  }

  lemma RotationKeepsRadius(cx: real, cy: real, px: real, py: real, c: real, s: real)
    requires c * c + s * s == 1.0
    ensures DistSq(Pos(cx, cy), Pos((c * (px - cx) + s * (py - cy)) + cx, (c * (py - cy) - s * (px - cx)) + cy))
         == DistSq(Pos(cx, cy), Pos(px, py))
  {
    var x, y := px - cx, py - cy;
    assert (c * x + s * y) * (c * x + s * y) + (c * y - s * x) * (c * y - s * x)
        == (c * c + s * s) * (x * x + y * y);
  }

  /** The centre of a generator is a fixed point of its rotation. */
  lemma CentreFixed(g: RotCircle, t: Turn)
    ensures RotatePoint(g, t, g.cen) == g.cen
  {
  }

  /** A rotation moves every pair of points to a pair the same distance apart. */
  lemma RotateIsometry(g: RotCircle, t: Turn, p: Pos, q: Pos)
    requires IsUnit(t)
    ensures DistSq(RotatePoint(g, t, p), RotatePoint(g, t, q)) == DistSq(p, q)
  {
    var P, Q := RotatePoint(g, t, p), RotatePoint(g, t, q);
    RotatedDifference(g, t, p, q);
    PlaneRotationKeepsNorm(t.cos, t.sin, p.x - q.x, p.y - q.y, P.x - Q.x, P.y - Q.y);
  }

  /** The difference of two rotated points is the rotated difference. */
  lemma RotatedDifference(g: RotCircle, t: Turn, p: Pos, q: Pos)
    ensures RotatePoint(g, t, p).x - RotatePoint(g, t, q).x == t.cos * (p.x - q.x) + t.sin * (p.y - q.y)
    ensures RotatePoint(g, t, p).y - RotatePoint(g, t, q).y == t.cos * (p.y - q.y) - t.sin * (p.x - q.x)
  {
  }

  /** A plane rotation `(u, v)` of `(x, y)` keeps the squared norm. */
  lemma PlaneRotationKeepsNorm(c: real, s: real, x: real, y: real, u: real, v: real)
    requires c * c + s * s == 1.0
    requires u == c * x + s * y && v == c * y - s * x
    ensures u * u + v * v == x * x + y * y
  {
    assert u * u + v * v == (c * c + s * s) * (x * x + y * y);
  }

  /** Turning by the opposite angle undoes a rotation. */
  lemma RotateUndo(g: RotCircle, t: Turn, p: Pos)
    requires IsUnit(t)
    ensures RotatePoint(g, Reverse(t), RotatePoint(g, t, p)) == p
  {
    TurnBack(t.cos, t.sin, g.cen.x, g.cen.y, p.x, p.y);
  }

  lemma TurnBack(c: real, s: real, cx: real, cy: real, px: real, py: real)
    requires c * c + s * s == 1.0
    ensures var x2, y2 := (c * (px - cx) + s * (py - cy)) + cx, (c * (py - cy) - s * (px - cx)) + cy;
      (c * (x2 - cx) + (-s) * (y2 - cy)) + cx == px &&
      (c * (y2 - cy) - (-s) * (x2 - cx)) + cy == py
  {
    var x, y := px - cx, py - cy;
    assert c * (c * x + s * y) + (-s) * (c * y - s * x) == (c * c + s * s) * x;
    assert c * (c * y - s * x) - (-s) * (c * x + s * y) == (c * c + s * s) * y;
  }

  /** `contains`: strictly inside the radius, flipped when `inverted`. */
  predicate Contains(g: RotCircle, p: Pos)
  {
    (DistSq(g.cen, p) < g.rad * g.rad) != g.inverted
  }

  /** A generator's region is invariant under its own rotation. */
  lemma ContainsRotated(g: RotCircle, t: Turn, p: Pos)
    requires IsUnit(t)
    ensures Contains(g, RotatePoint(g, t, p)) <==> Contains(g, p)
  {
    RotateKeepsRadius(g, t, p);
  }

  /** Flipping `inverted` complements the region. */
  lemma InvertedComplement(g: RotCircle, p: Pos)
    ensures Contains(g.(inverted := !g.inverted), p) <==> !Contains(g, p)
  {
  }

  /** The test is strict: a point exactly on the circle belongs to the region
      only of an inverted generator. */
  lemma OnBoundary(g: RotCircle, p: Pos)
    requires DistSq(g.cen, p) == g.rad * g.rad
    ensures Contains(g, p) <==> g.inverted
  {
  }

  /** `rotate_circle`: a copy of `other` whose centre is moved by `g`'s
      rotation; radius, order and orientation are kept. */
  function RotateCircle(g: RotCircle, t: Turn, other: RotCircle): (r: RotCircle)
    ensures r.cen == RotatePoint(g, t, other.cen)
    ensures r.rad == other.rad && r.step == other.step && r.inverted == other.inverted
  {
    other.(cen := RotatePoint(g, t, other.cen))
  }

  /** Rotating a generator through its own action leaves it unchanged. */
  lemma RotateCircleSelf(g: RotCircle, t: Turn)
    ensures RotateCircle(g, t, g) == g
  {
    CentreFixed(g, t);
  }

  /** Rotating a generator and a point together keeps the point on the same
      side of the generator's circle. */
  lemma RotateCircleContains(g: RotCircle, t: Turn, h: RotCircle, p: Pos)
    requires IsUnit(t)
    ensures Contains(RotateCircle(g, t, h), RotatePoint(g, t, p)) <==> Contains(h, p)
  {
    var r := RotateCircle(g, t, h);
    RotateIsometry(g, t, h.cen, p);
    SameDistanceSameSide(r, RotatePoint(g, t, p), h, p);
  }

  lemma SameDistanceSameSide(g1: RotCircle, p1: Pos, g2: RotCircle, p2: Pos)
    requires g1.rad == g2.rad && g1.inverted == g2.inverted
    requires DistSq(g1.cen, p1) == DistSq(g2.cen, p2)
    ensures Contains(g1, p1) <==> Contains(g2, p2)
  {
  }

  /** The approximate-hash key of a generator. */
  datatype CircleKey = CircleKey(cen: seq<int>, rad: int, step: nat)

  /** `approx_hash` of a `RotCircle`: the centre's key, the bucket of the
      radius and the exact order. `inverted` is not part of the key. */
  function RotCircleHash(g: RotCircle, h: real -> int): (k: CircleKey)
    ensures |k.cen| == 2 && k.step == g.step
  {
    CircleKey(PosHash(g.cen, h), h(g.rad), g.step)
  }

  /** Two generators share a key exactly when their centre coordinates and
      radii fall into the same buckets and their orders are equal. */
  lemma RotCircleHashEq(g1: RotCircle, g2: RotCircle, h: real -> int)
    ensures RotCircleHash(g1, h) == RotCircleHash(g2, h) <==>
      h(g1.cen.x) == h(g2.cen.x) && h(g1.cen.y) == h(g2.cen.y) &&
      h(g1.rad) == h(g2.rad) && g1.step == g2.step
  {
    PosHashEq(g1.cen, g2.cen, h);
  }

  /** Generators that differ only in orientation share a key. */
  lemma HashIgnoresInverted(g: RotCircle, h: real -> int)
    ensures RotCircleHash(g.(inverted := !g.inverted), h) == RotCircleHash(g, h)
  {
  }
}
