/**
 * A particle: a body with position, velocity, friction, gravity, bounce,
 * radius and mass, pulled by springs towards anchor points and by gravitation
 * towards peer particles.  The two collections are edited in place with
 * replace-by-identity semantics; `Update` is one fixed-order integration step.
 */
module Particles {
  import opened Wrappers
  import opened Numerics
  import opened Shapes
  import opened Lists

  /** A spring attached to `point`, with stiffness `k` and rest length `length`. */
  datatype Spring = Spring(point: Point, k: real, length: real)

  /** The anchor points of a spring list, in order. */
  function Points(springs: seq<Spring>): (r: seq<Point>)
    ensures |r| == |springs|
    ensures forall i :: 0 <= i < |springs| ==> r[i] == springs[i].point
  {
    seq(|springs|, i requires 0 <= i < |springs| => springs[i].point)
  }

  /** The list `removeSpring(point)` leaves behind: its first spring on `point` is spliced out. */
  function RemoveSpringTo(springs: seq<Spring>, point: Point): (r: seq<Spring>)
    ensures Points(r) == RemoveFirst(Points(springs), point)
    ensures point !in Points(springs) ==> r == springs
  {
    match IndexOf(Points(springs), point)
    case None => springs
    case Some(i) =>
      assert Points(RemoveAt(springs, i)) == RemoveAt(Points(springs), i);
      RemoveAt(springs, i)
  }

  lemma RemoveSpringToKeepsOthers(springs: seq<Spring>, point: Point)
    requires Distinct(Points(springs))
    ensures Distinct(Points(RemoveSpringTo(springs, point)))
    ensures Points(RemoveSpringTo(springs, point)) == Without(Points(springs), point)
  {
    RemoveFirstOfDistinct(Points(springs), point);
  }

  /** The list `addSpring(point, k, length)` leaves behind. */
  function AddSpringTo(springs: seq<Spring>, point: Point, k: real, length: real): (r: seq<Spring>)
    ensures |r| >= 1 && r[|r| - 1] == Spring(point, k, length)
  {
    RemoveSpringTo(springs, point) + [Spring(point, k, length)]
  }

  /**
   * After `addSpring(point, k, length)` exactly one spring is attached to
   * `point`: the new one, last; the other springs keep their order.
   */
  lemma AddSpringToReplaces(springs: seq<Spring>, point: Point, k: real, length: real)
    requires Distinct(Points(springs))
    ensures var r := AddSpringTo(springs, point, k, length);
      && Distinct(Points(r))
      && multiset(Points(r))[point] == 1
      && r[..|r| - 1] == RemoveSpringTo(springs, point)
      && Points(r[..|r| - 1]) == Without(Points(springs), point)
  {
    var rest := RemoveSpringTo(springs, point);
    var r := rest + [Spring(point, k, length)];
    RemoveSpringToKeepsOthers(springs, point);
    ReplaceByIdentity(Points(springs), point);
    PointsAppend(rest, Spring(point, k, length));
    assert r[..|r| - 1] == rest;
  }

  lemma PointsAppend(springs: seq<Spring>, s: Spring)
    ensures Points(springs + [s]) == Points(springs) + [s.point]
  {
  }

  /** The list `addGravitation(particle)` leaves behind. */
  function AddPeer(peers: seq<Particle>, particle: Particle): (r: seq<Particle>)
    ensures |r| >= 1 && r[|r| - 1] == particle
  {
    RemoveFirst(peers, particle) + [particle]
  }

  /** After `addGravitation(particle)` the peer occurs exactly once, last; the others keep their order. */
  lemma AddPeerReplaces(peers: seq<Particle>, particle: Particle)
    requires Distinct(peers)
    ensures var r := AddPeer(peers, particle);
      && Distinct(r)
      && multiset(r)[particle] == 1
      && r[..|r| - 1] == Without(peers, particle)
  {
    ReplaceByIdentity(peers, particle);
  }

  // ---------------------------------------------------------------------
  // The force model, on values.

  datatype Velocity = Velocity(vx: real, vy: real)

  /** The position and velocity `Update` advances. */
  datatype Motion = Motion(x: real, y: real, vx: real, vy: real)

  /** What one spring contributes: where its point is, its stiffness and its rest length. */
  datatype Anchor = Anchor(x: real, y: real, k: real, length: real)

  /** What one gravitation peer contributes: its position and mass. */
  datatype Body = Body(x: real, y: real, mass: real)

  /** The anchors of a spring list, read from the current positions of its points. */
  ghost function Anchors(springs: seq<Spring>): (r: seq<Anchor>)
    reads Points(springs)
    ensures |r| == |springs|
    ensures forall i :: 0 <= i < |springs| ==>
      r[i] == Anchor(springs[i].point.x, springs[i].point.y, springs[i].k, springs[i].length)
    decreases |springs|
  {
    if springs == [] then []
    else
      var s := springs[0];
      [Anchor(s.point.x, s.point.y, s.k, s.length)] + Anchors(springs[1..])
  }

  /** The bodies of a peer list, read from the peers' current state. */
  ghost function Bodies(peers: seq<Particle>): (r: seq<Body>)
    reads peers
    ensures |r| == |peers|
    ensures forall i :: 0 <= i < |peers| ==> r[i] == Body(peers[i].x, peers[i].y, peers[i].mass)
    decreases |peers|
  {
    if peers == [] then []
    else [Body(peers[0].x, peers[0].y, peers[0].mass)] + Bodies(peers[1..])
  }

  /** The squared length of the displacement (dx, dy). */
  function DistanceSquared(dx: real, dy: real): (r: real)
    ensures r >= 0.0
    ensures dx == 0.0 && dy == 0.0 ==> r == 0.0
  {
    dx * dx + dy * dy
  }

  /** A spring force can be computed: the distance it divides by is not zero. */
  predicate SpringDefined(m: MathLib, x: real, y: real, a: Anchor)
  {
    m.sqrt(DistanceSquared(a.x - x, a.y - y)) != 0.0
  }

  /** A gravitation force can be computed: neither the squared distance nor the distance is zero. */
  predicate GravityDefined(m: MathLib, x: real, y: real, b: Body)
  {
    var dsq := DistanceSquared(b.x - x, b.y - y);
    dsq != 0.0 && m.sqrt(dsq) != 0.0
  }

  /**
   * The velocity change a spring gives a particle at (x, y): Hooke's law,
   * (distance - length) * k, along the unit vector towards the anchor.
   */
  function SpringAccel(m: MathLib, x: real, y: real, a: Anchor): (r: Velocity)
    requires SpringDefined(m, x, y, a)
    ensures m.sqrt(DistanceSquared(a.x - x, a.y - y)) == a.length ==> r == Velocity(0.0, 0.0)
    ensures a.k == 0.0 ==> r == Velocity(0.0, 0.0)
  {
    var dx := a.x - x;
    var dy := a.y - y;
    var distance := m.sqrt(DistanceSquared(dx, dy));
    var springForce := (distance - a.length) * a.k;
    Velocity((dx / distance) * springForce, (dy / distance) * springForce)
  }

  /** The velocity change a peer gives a particle at (x, y): mass over squared distance, towards the peer. */
  function GravityAccel(m: MathLib, x: real, y: real, b: Body): (r: Velocity)
    requires GravityDefined(m, x, y, b)
    ensures b.mass == 0.0 ==> r == Velocity(0.0, 0.0)
  {
    var dx := b.x - x;
    var dy := b.y - y;
    var distanceSquared := DistanceSquared(dx, dy);
    var distance := m.sqrt(distanceSquared);
    var force := b.mass / distanceSquared;
    Velocity((dx / distance) * force, (dy / distance) * force)
  }

  ghost predicate SpringsDefined(m: MathLib, x: real, y: real, anchors: seq<Anchor>)
  {
    forall i :: 0 <= i < |anchors| ==> SpringDefined(m, x, y, anchors[i])
  }

  ghost predicate GravitationsDefined(m: MathLib, x: real, y: real, bodies: seq<Body>)
  {
    forall i :: 0 <= i < |bodies| ==> GravityDefined(m, x, y, bodies[i])
  }

  /** The velocity after the springs act one after another, in list order: the first spring acts first. */
  ghost function ApplySprings(m: MathLib, x: real, y: real, v: Velocity, anchors: seq<Anchor>): (r: Velocity)
    requires SpringsDefined(m, x, y, anchors)
    decreases |anchors|
  {
    if anchors == [] then v
    else
      var acc := SpringAccel(m, x, y, anchors[0]);
      ApplySprings(m, x, y, Velocity(v.vx + acc.vx, v.vy + acc.vy), anchors[1..])
  }

  /** The velocity after the peers act one after another, in list order: the first peer acts first. */
  ghost function ApplyGravitations(m: MathLib, x: real, y: real, v: Velocity, bodies: seq<Body>): (r: Velocity)
    requires GravitationsDefined(m, x, y, bodies)
    decreases |bodies|
  {
    if bodies == [] then v
    else
      var acc := GravityAccel(m, x, y, bodies[0]);
      ApplyGravitations(m, x, y, Velocity(v.vx + acc.vx, v.vy + acc.vy), bodies[1..])
  }

  /**
   * One more peer of the fold: if the peers from `i` on, acting on `v`,
   * give what all of them give acting on `v0`, then so do the peers from
   * `i + 1` on, acting on `v` after peer `i`.
   */
  lemma ApplyGravitationsNext(m: MathLib, x: real, y: real, v: Velocity, v0: Velocity, bodies: seq<Body>, i: nat)
    requires i < |bodies| && GravitationsDefined(m, x, y, bodies)
    requires ApplyGravitations(m, x, y, v, bodies[i..]) == ApplyGravitations(m, x, y, v0, bodies)
    ensures var acc := GravityAccel(m, x, y, bodies[i]);
      ApplyGravitations(m, x, y, Velocity(v.vx + acc.vx, v.vy + acc.vy), bodies[i + 1..]) == ApplyGravitations(m, x, y, v0, bodies)
  {
    assert bodies[i..][1..] == bodies[i + 1..];
  }

  /**
   * One integration step: springs, then gravitations, then friction on both
   * components, then gravity on the vertical one, then the position moves by
   * the new velocity.
   */
  ghost function Step(m: MathLib, s: Motion, friction: real, gravity: real,
                      anchors: seq<Anchor>, bodies: seq<Body>): (r: Motion)
    requires SpringsDefined(m, s.x, s.y, anchors)
    requires GravitationsDefined(m, s.x, s.y, bodies)
    ensures r.x == s.x + r.vx && r.y == s.y + r.vy
    ensures anchors == [] && bodies == [] ==> r == Integrate(s.x, s.y, Velocity(s.vx, s.vy), friction, gravity)
  {
    var v1 := ApplySprings(m, s.x, s.y, Velocity(s.vx, s.vy), anchors);
    var v2 := ApplyGravitations(m, s.x, s.y, v1, bodies);
    Integrate(s.x, s.y, v2, friction, gravity)
  }

  /** The last part of a step: friction on the velocity `v`, gravity on its vertical part, then the position moves. */
  function Integrate(x: real, y: real, v: Velocity, friction: real, gravity: real): (r: Motion)
    ensures r.x == x + r.vx && r.y == y + r.vy
    ensures friction == 0.0 ==> r.vx == 0.0 && r.vy == gravity
    ensures friction == 1.0 && gravity == 0.0 ==> r.vx == v.vx && r.vy == v.vy
  {
    var vx := v.vx * friction;
    var vy := v.vy * friction + gravity;
    Motion(x + vx, y + vy, vx, vy)
  }

  /** The position and velocity of a particle along one axis. */
  datatype Axis = Axis(pos: real, v: real)

  /** The far-edge rule of one axis: touching or past `limit` puts the particle back and reflects it. */
  function BounceFar(a: Axis, radius: real, limit: real, bounce: real): (r: Axis)
    ensures r.pos + radius <= limit
    ensures a.pos + radius < limit ==> r == a
    ensures a.pos + radius >= limit ==> r.pos + radius == limit && r.v == a.v * bounce
  {
    if a.pos + radius >= limit then Axis(limit - radius, a.v * bounce) else a
  }

  /** The near-edge rule of one axis: touching or past 0 puts the particle back and reflects it. */
  function BounceNear(a: Axis, radius: real, bounce: real): (r: Axis)
    ensures r.pos - radius >= 0.0
    ensures a.pos - radius > 0.0 ==> r == a
    ensures a.pos - radius <= 0.0 ==> r.pos - radius == 0.0 && r.v == a.v * bounce
  {
    if a.pos - radius <= 0.0 then Axis(radius, a.v * bounce) else a
  }

  /** One axis of `boundaryBounce`: the far-edge rule, then the near-edge rule. */
  function BounceAxis(pos: real, v: real, radius: real, limit: real, bounce: real): (r: Axis)
    ensures r.pos == pos || r.pos == limit - radius || r.pos == radius
  {
    BounceNear(BounceFar(Axis(pos, v), radius, limit, bounce), radius, bounce)
  }

  // ---------------------------------------------------------------------
  // Properties of the force model.

  /** With no springs and no peers, a step is friction, then gravity, then motion. */
  lemma StepWithoutForces(m: MathLib, s: Motion, friction: real, gravity: real)
    ensures var r := Step(m, s, friction, gravity, [], []);
      && r.vx == s.vx * friction
      && r.vy == s.vy * friction + gravity
      && r.x == s.x + r.vx
      && r.y == s.y + r.vy
  {
  }

  /** Without friction loss or gravity, a free particle moves by exactly its velocity. */
  lemma FreeLinearMotion(m: MathLib, s: Motion)
    ensures Step(m, s, 1.0, 0.0, [], []) == Motion(s.x + s.vx, s.y + s.vy, s.vx, s.vy)
  {
  }

  /** Gravity is added after friction: even full friction (0) leaves the vertical velocity at `gravity`. */
  lemma GravityIsNotDamped(m: MathLib, s: Motion, gravity: real, anchors: seq<Anchor>, bodies: seq<Body>)
    requires SpringsDefined(m, s.x, s.y, anchors)
    requires GravitationsDefined(m, s.x, s.y, bodies)
    ensures var r := Step(m, s, 0.0, gravity, anchors, bodies);
      r.vx == 0.0 && r.vy == gravity && r.x == s.x && r.y == s.y + gravity
  {
  }

  /** A spring left at its rest length pulls with zero force. */
  predicate AtRest(m: MathLib, x: real, y: real, a: Anchor)
  {
    m.sqrt(DistanceSquared(a.x - x, a.y - y)) == a.length
  }

  /** Springs that are all at rest leave the velocity as it was. */
  lemma {:induction false} SpringsAtRestKeepVelocity(m: MathLib, x: real, y: real, v: Velocity, anchors: seq<Anchor>)
    requires SpringsDefined(m, x, y, anchors)
    requires forall i :: 0 <= i < |anchors| ==> AtRest(m, x, y, anchors[i])
    ensures ApplySprings(m, x, y, v, anchors) == v
    decreases |anchors|
  {
    if anchors != [] {
      var rest := anchors[1..];
      assert SpringsDefined(m, x, y, rest);
      SpringsAtRestKeepVelocity(m, x, y, v, rest);
    }
  }

  /** Springs with no stiffness leave the velocity as it was. */
  lemma {:induction false} SlackSpringsKeepVelocity(m: MathLib, x: real, y: real, v: Velocity, anchors: seq<Anchor>)
    requires SpringsDefined(m, x, y, anchors)
    requires forall i :: 0 <= i < |anchors| ==> anchors[i].k == 0.0
    ensures ApplySprings(m, x, y, v, anchors) == v
    decreases |anchors|
  {
    if anchors != [] {
      var rest := anchors[1..];
      assert SpringsDefined(m, x, y, rest);
      SlackSpringsKeepVelocity(m, x, y, v, rest);
    }
  }

  /** Peers that all have no mass leave the velocity as it was. */
  lemma {:induction false} MasslessPeersKeepVelocity(m: MathLib, x: real, y: real, v: Velocity, bodies: seq<Body>)
    requires GravitationsDefined(m, x, y, bodies)
    requires forall i :: 0 <= i < |bodies| ==> bodies[i].mass == 0.0
    ensures ApplyGravitations(m, x, y, v, bodies) == v
    decreases |bodies|
  {
    if bodies != [] {
      var rest := bodies[1..];
      assert GravitationsDefined(m, x, y, rest);
      MasslessPeersKeepVelocity(m, x, y, v, rest);
    }
  }

  /** (u / d) * f, summed over both axes against (dx, dy), is the force times the distance. */
  lemma ProjectOnto(dx: real, dy: real, d: real, f: real)
    requires d > 0.0 && d * d == dx * dx + dy * dy
    ensures ((dx / d) * f) * dx + ((dy / d) * f) * dy == f * d
  {
    calc {
      ((dx / d) * f) * dx + ((dy / d) * f) * dy;
      == (dx * dx + dy * dy) / d * f;
      == (d * d) / d * f;
      == { MulDivCancel(d, d); }
      d * f;
    }
  }

  /** Multiplying by a positive number keeps the sign. */
  lemma PositiveFactor(a: real, k: real)
    requires k > 0.0
    ensures a * k > 0.0 <==> a > 0.0
    ensures a * k < 0.0 <==> a < 0.0
  {
  }

  /** A pull of strength `f` along (dx, dy) / d points towards (dx, dy) exactly when `f` is positive. */
  lemma PullAlong(dx: real, dy: real, d: real, f: real, p: Velocity)
    requires d > 0.0 && d * d == DistanceSquared(dx, dy)
    requires p == Velocity((dx / d) * f, (dy / d) * f)
    ensures p.vx * dx + p.vy * dy > 0.0 <==> f > 0.0
    ensures p.vx * dx + p.vy * dy < 0.0 <==> f < 0.0
  {
    ProjectOnto(dx, dy, d, f);
    PositiveFactor(f, d);
  }

  /**
   * Hooke's law: a stiff spring pulls the particle towards its point when
   * stretched past its rest length and pushes it away when compressed.
   */
  lemma SpringPullsTowardsPoint(m: MathLib, x: real, y: real, a: Anchor)
    requires m.SqrtSound()
    requires DistanceSquared(a.x - x, a.y - y) > 0.0
    requires a.k > 0.0
    ensures SpringDefined(m, x, y, a)
    ensures var acc := SpringAccel(m, x, y, a);
      var distance := m.sqrt(DistanceSquared(a.x - x, a.y - y));
      && (acc.vx * (a.x - x) + acc.vy * (a.y - y) > 0.0 <==> distance > a.length)
      && (acc.vx * (a.x - x) + acc.vy * (a.y - y) < 0.0 <==> distance < a.length)
  {
    var dx, dy := a.x - x, a.y - y;
    var d := m.sqrt(DistanceSquared(dx, dy));
    var f := (d - a.length) * a.k;
    PullAlong(dx, dy, d, f, SpringAccel(m, x, y, a));
    PositiveFactor(d - a.length, a.k);
  }

  /** A peer with positive mass always pulls the particle towards itself. */
  lemma GravityPullsTowardsPeer(m: MathLib, x: real, y: real, b: Body)
    requires m.SqrtSound()
    requires DistanceSquared(b.x - x, b.y - y) > 0.0
    requires b.mass > 0.0
    ensures GravityDefined(m, x, y, b)
    ensures var acc := GravityAccel(m, x, y, b);
      acc.vx * (b.x - x) + acc.vy * (b.y - y) > 0.0
  {
    var dx, dy := b.x - x, b.y - y;
    var dsq := DistanceSquared(dx, dy);
    var d := m.sqrt(dsq);
    var f := b.mass / dsq;
    PullAlong(dx, dy, d, f, GravityAccel(m, x, y, b));
    assert f > 0.0;
  }

  // ---------------------------------------------------------------------
  // Properties of the boundary rules.

  /** A box wider than the particle keeps it between its edges after a bounce. */
  lemma BounceKeepsInside(pos: real, v: real, radius: real, limit: real, bounce: real)
    requires 2.0 * radius < limit
    ensures var r := BounceAxis(pos, v, radius, limit, bounce);
      radius <= r.pos <= limit - radius
  {
  }

  /**
   * In a box wider than the particle, the velocity changes only when an edge
   * was reached, and then it is multiplied by `bounce` once; a particle
   * strictly inside is left as it was.
   */
  lemma BounceReflectsOnlyAtEdges(pos: real, v: real, radius: real, limit: real, bounce: real)
    requires 2.0 * radius < limit
    ensures var r := BounceAxis(pos, v, radius, limit, bounce);
      && (pos + radius >= limit ==> r == Axis(limit - radius, v * bounce))
      && (pos - radius <= 0.0 ==> r == Axis(radius, v * bounce))
      && (0.0 < pos - radius && pos + radius < limit ==> r == Axis(pos, v))
  {
  }

  /**
   * The edge tests are inclusive: a particle left touching an edge is
   * reflected again by the next bounce, without moving.
   */
  lemma BounceAtEdgeReflectsAgain(pos: real, v: real, radius: real, limit: real, bounce: real)
    requires 2.0 * radius < limit
    requires pos + radius >= limit || pos - radius <= 0.0
    ensures var r := BounceAxis(pos, v, radius, limit, bounce);
      BounceAxis(r.pos, r.v, radius, limit, bounce) == Axis(r.pos, r.v * bounce)
  {
    BounceReflectsOnlyAtEdges(pos, v, radius, limit, bounce);
  }

  /**
   * In a box no wider than the particle, reaching the far edge triggers both
   * rules: the particle ends at `radius` and its velocity is reflected twice.
   */
  lemma NarrowBoxReflectsTwice(pos: real, v: real, radius: real, limit: real, bounce: real)
    requires limit <= 2.0 * radius
    requires pos + radius >= limit
    ensures BounceAxis(pos, v, radius, limit, bounce) == Axis(radius, v * bounce * bounce)
  {
  }

  // ---------------------------------------------------------------------
  // The particle itself.

  class Particle {
    var x: real
    var y: real
    var vx: real
    var vy: real
    var gravity: real
    var mass: real
    var radius: real
    /** The speed given at construction; only the heading setter reads it, and nothing reassigns it. */
    var speed: real
    /** The cached heading: set to 0 by the constructor and never reassigned. */
    var heading: real
    var friction: real
    var springs: seq<Spring>
    var gravitations: seq<Particle>
    var bounce: real

    /** The cached heading is 0, and neither collection holds the same target twice. */
    ghost predicate Valid()
      reads this
    {
      heading == 0.0 && Distinct(Points(springs)) && Distinct(gravitations)
    }

    ghost function State(): Motion
      reads this
    {
      Motion(x, y, vx, vy)
    }

    constructor (m: MathLib, x: real := 0.0, y: real := 0.0, radius: real := 0.0, speed: real := 0.0,
                 direction: real := 0.0, gravity: real := 0.0, mass: real := 1.0)
      ensures Valid()
      ensures this.x == x && this.y == y && this.radius == radius && this.speed == speed
      ensures this.gravity == gravity && this.mass == mass
      ensures vx == m.cos(direction) * speed && vy == m.sin(direction) * speed
      ensures heading == 0.0 && friction == 1.0 && bounce == -1.0
      ensures springs == [] && gravitations == []
    {
      this.x := x;
      this.y := y;
      this.vx := m.cos(direction) * speed;
      this.vy := m.sin(direction) * speed;
      this.gravity := gravity;
      this.mass := mass;
      this.radius := radius;
      this.speed := speed;
      this.heading := 0.0;
      this.friction := 1.0;
      this.springs := [];
      this.gravitations := [];
      this.bounce := -1.0;
    }

    /** Adds `particle` as a peer, replacing an earlier entry for the same particle: it ends up last, once. */
    method AddGravitation(particle: Particle)
      requires Valid()
      modifies this`gravitations
      ensures Valid()
      ensures gravitations == AddPeer(old(gravitations), particle)
    {
      RemoveGravitation(particle);
      gravitations := gravitations + [particle];
      AddPeerReplaces(old(gravitations), particle);
    }

    /** Splices out the first entry identical to `particle`, if there is one. */
    method RemoveGravitation(particle: Particle)
      requires Valid()
      modifies this`gravitations
      ensures Valid()
      ensures gravitations == RemoveFirst(old(gravitations), particle)
      ensures gravitations == Without(old(gravitations), particle)
    {
      RemoveFirstOfDistinct(gravitations, particle);
      var i := 0;
      while i < |gravitations|
        invariant 0 <= i <= |gravitations|
        invariant gravitations == old(gravitations)
        invariant forall j :: 0 <= j < i ==> gravitations[j] != particle
      {
        if particle == gravitations[i] {
          assert IndexOf(gravitations, particle) == Some(i);
          gravitations := gravitations[..i] + gravitations[i + 1..];
          return;
        }
        i := i + 1;
      }
    }

    /** Adds a spring to `point`, replacing an earlier spring on the same point: it ends up last, once. */
    method AddSpring(point: Point, k: real, length: real := 0.0)
      requires Valid()
      modifies this`springs
      ensures Valid()
      ensures springs == AddSpringTo(old(springs), point, k, length)
    {
      RemoveSpring(point);
      springs := springs + [Spring(point, k, length)];
      AddSpringToReplaces(old(springs), point, k, length);
    }

    /** Splices out the first spring whose point is identical to `point`, if there is one. */
    method RemoveSpring(point: Point)
      requires Valid()
      modifies this`springs
      ensures Valid()
      ensures springs == RemoveSpringTo(old(springs), point)
      ensures Points(springs) == Without(Points(old(springs)), point)
    {
      RemoveSpringToKeepsOthers(springs, point);
      var i := 0;
      while i < |springs|
        invariant 0 <= i <= |springs|
        invariant springs == old(springs)
        invariant forall j :: 0 <= j < i ==> springs[j].point != point
      {
        if point == springs[i].point {
          assert IndexOf(Points(springs), point) == Some(i);
          springs := springs[..i] + springs[i + 1..];
          return;
        }
        i := i + 1;
      }
      assert point !in Points(springs);
    }

    /** The `speed` setter: the cached heading, not the current direction of travel, gives the direction. */
    method SetSpeed(m: MathLib, speed: real)
      requires Valid()
      modifies this`vx, this`vy
      ensures vx == m.cos(heading) * speed && vy == m.sin(heading) * speed
      ensures m.cos(0.0) == 1.0 && m.sin(0.0) == 0.0 ==> vx == speed && vy == 0.0
    {
      var heading := this.heading;
      vx := m.cos(heading) * speed;
      vy := m.sin(heading) * speed;
    }

    /**
     * The `heading` setter: the speed stored at construction, not the current
     * one, gives the size of the new velocity. The cached heading is not updated.
     */
    method SetHeading(m: MathLib, heading: real)
      modifies this`vx, this`vy
      ensures vx == m.cos(heading) * speed && vy == m.sin(heading) * speed
      ensures this.heading == old(this.heading)
    {
      var speed := this.speed;
      vx := m.cos(heading) * speed;
      vy := m.sin(heading) * speed;
    }

    method Accelerate(ax: real, ay: real)
      modifies this`vx, this`vy
      ensures vx == old(vx) + ax && vy == old(vy) + ay
    {
      vx := vx + ax;
      vy := vy + ay;
    }

    /** Pulls the velocity towards `point` by Hooke's law. */
    method SpringTo(m: MathLib, point: Point, k: real, length: real := 0.0)
      requires SpringDefined(m, x, y, Anchor(point.x, point.y, k, length))
      modifies this`vx, this`vy
      ensures var acc := SpringAccel(m, x, y, Anchor(point.x, point.y, k, length));
        vx == old(vx) + acc.vx && vy == old(vy) + acc.vy
    {
      var distanceX := point.x - x;
      var distanceY := point.y - y;
      var distance := m.sqrt(DistanceSquared(distanceX, distanceY));
      var springForce := (distance - length) * k;
      vx := vx + (distanceX / distance) * springForce;
      vy := vy + (distanceY / distance) * springForce;
    }

    /** Pulls the velocity towards `target` by its mass over the squared distance. */
    method GravitateTo(m: MathLib, target: Particle)
      requires GravityDefined(m, x, y, Body(target.x, target.y, target.mass))
      modifies this`vx, this`vy
      ensures var acc := GravityAccel(m, old(x), old(y), old(Body(target.x, target.y, target.mass)));
        vx == old(vx) + acc.vx && vy == old(vy) + acc.vy
    {
      var distanceX := target.x - x;
      var distanceY := target.y - y;
      var distanceSquared := DistanceSquared(distanceX, distanceY);
      var distance := m.sqrt(distanceSquared);
      var force := target.mass / distanceSquared;
      var ax := (distanceX / distance) * force;
      var ay := (distanceY / distance) * force;
      vx := vx + ax;
      vy := vy + ay;
    }

    /** Applies every spring, in list order. */
    method HandleSprings(m: MathLib)
      requires SpringsDefined(m, x, y, Anchors(springs))
      modifies this`vx, this`vy
      ensures Velocity(vx, vy) == ApplySprings(m, x, y, old(Velocity(vx, vy)), old(Anchors(springs)))
    {
      ghost var anchors := Anchors(springs);
      ghost var v0 := Velocity(vx, vy);
      for i := 0 to |springs|
        invariant Anchors(springs) == anchors
        invariant ApplySprings(m, x, y, Velocity(vx, vy), anchors[i..]) == ApplySprings(m, x, y, v0, anchors)
      {
        var spring := springs[i];
        assert anchors[i] == Anchor(spring.point.x, spring.point.y, spring.k, spring.length);
        assert anchors[i..][1..] == anchors[i + 1..];
        ghost var acc := SpringAccel(m, x, y, anchors[i]);
        ghost var next := Velocity(vx + acc.vx, vy + acc.vy);
        assert ApplySprings(m, x, y, Velocity(vx, vy), anchors[i..]) == ApplySprings(m, x, y, next, anchors[i + 1..]);
        SpringTo(m, spring.point, spring.k, spring.length);
        assert Velocity(vx, vy) == next;
      }
    }

    /** Applies every gravitation peer, in list order. */
    method HandleGravitations(m: MathLib)
      requires GravitationsDefined(m, x, y, Bodies(gravitations))
      modifies this`vx, this`vy
      ensures Velocity(vx, vy) == ApplyGravitations(m, x, y, old(Velocity(vx, vy)), old(Bodies(gravitations)))
    {
      ghost var bodies := Bodies(gravitations);
      ghost var v0 := Velocity(vx, vy);
      for i := 0 to |gravitations|
        invariant forall j :: 0 <= j < |gravitations| ==>
          bodies[j] == Body(gravitations[j].x, gravitations[j].y, gravitations[j].mass)
        invariant ApplyGravitations(m, x, y, Velocity(vx, vy), bodies[i..]) == ApplyGravitations(m, x, y, v0, bodies)
      {
        var gravitation := gravitations[i];
        ApplyGravitationsNext(m, x, y, Velocity(vx, vy), v0, bodies, i);
        GravitateTo(m, gravitation);
      }
    }

    /** One frame: springs, gravitations, friction, gravity, then the position. */
    method Update(m: MathLib)
      requires SpringsDefined(m, x, y, Anchors(springs))
      requires GravitationsDefined(m, x, y, Bodies(gravitations))
      modifies this`x, this`y, this`vx, this`vy
      ensures State() == Step(m, old(State()), friction, gravity, old(Anchors(springs)), old(Bodies(gravitations)))
    {
      ghost var bodies := Bodies(gravitations);
      HandleSprings(m);
      assert Bodies(gravitations) == bodies by {
        forall i | 0 <= i < |bodies|
          ensures Bodies(gravitations)[i] == bodies[i]
        {
        }
      }
      HandleGravitations(m);
      Move();
    }

    /** The tail of `update`: friction on both components, gravity on the vertical one, then the position moves. */
    method Move()
      modifies this`x, this`y, this`vx, this`vy
      ensures State() == Integrate(old(x), old(y), old(Velocity(vx, vy)), friction, gravity)
    {
      vx := vx * friction;
      vy := vy * friction;
      vy := vy + gravity;
      x := x + vx;
      y := y + vy;
    }

    /** Keeps the particle inside a width-by-height box, reflecting the velocity at each edge it reaches. */
    method BoundaryBounce(width: real, height: real)
      modifies this`x, this`y, this`vx, this`vy
      ensures var a := BounceAxis(old(x), old(vx), radius, width, bounce); x == a.pos && vx == a.v
      ensures var a := BounceAxis(old(y), old(vy), radius, height, bounce); y == a.pos && vy == a.v
    {
      ghost var far := BounceFar(Axis(x, vx), radius, width, bounce);
      if x + radius >= width {
        x := width - radius;
        vx := vx * bounce;
      }
      assert x == far.pos && vx == far.v;
      ghost var near := BounceNear(far, radius, bounce);
      if x - radius <= 0.0 {
        x := radius;
        vx := vx * bounce;
      }
      assert x == near.pos && vx == near.v;
      far := BounceFar(Axis(y, vy), radius, height, bounce);
      if y + radius >= height {
        y := height - radius;
        vy := vy * bounce;
      }
      assert y == far.pos && vy == far.v;
      near := BounceNear(far, radius, bounce);
      if y - radius <= 0.0 {
        y := radius;
        vy := vy * bounce;
      }
      assert y == near.pos && vy == near.v;
    }
  }
}
