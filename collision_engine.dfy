/** The gravity simulation with elastic ball collisions (collisionEngine/main.cpp).

    Every frame each ball gets gravity, is integrated by semi-implicit Euler to a tentative
    position, and that position goes through a strict floor / right wall / left wall / free
    flight chain. Then the ball meets every later ball in the vector: touching pairs are
    pushed apart along the line of centres and their normal velocity components exchanged,
    then divided by each ball's mass.

    The program keeps its balls in a vector of structs and updates them through references
    to the elements; here the vector is an array of `Ball` values, each step method writes
    its element back, and the pure functions say what each step does to a value. Floats are
    exact reals. `sqrt`, `atan2`, `cos` and `sin` are not modelled: the `Numerics`
    parameter supplies the square root and the cosine and sine of the angle of a vector. */
module CollisionEngine {
  import opened Walls
  import opened UpdateOrder

  const ScreenWidth: int := 1920
  const ScreenHeight: int := 1080

  /** Frame time `1.0f / fps` with `fps = 144`. */
  const DeltaTime: real := 1.0 / 144.0

  /** Pixels per metre, `SCREEN_HEIGHT_PIXELS / SCREEN_HEIGHT_M` = 1080 / 0.3. */
  const MetresToPixels: real := 1080.0 / 0.3

  /** Downward acceleration set by gravity, `9.81 * M_TO_PIXELS`. */
  const Gravity: real := 9.81 * MetresToPixels

  const Friction: real := 0.9
  const MousePowerX: int := 2
  const MousePowerY: int := 8

  /** The value of one ball. */
  datatype Ball = Ball(
    x: real, y: real,
    vx: real, vy: real,
    ax: real, ay: real,
    elasticity: real,
    mass: int, radius: int,
    r: int, g: int, b: int)

  /** Cosine and sine of an angle. */
  datatype Direction = Direction(cos: real, sin: real)

  /** The transcendental functions the program calls: `sqrt`, and for a vector (dx, dy) the
      cosine and sine of `atan2(dy, dx)`. */
  datatype Numerics = Numerics(sqrt: real -> real, angleOf: (real, real) -> Direction)

  /** The fields no step ever writes: mass, radius, elasticity and colour. */
  predicate SameBody(s: Ball, t: Ball)
  {
    s.mass == t.mass && s.radius == t.radius && s.elasticity == t.elasticity
    && s.r == t.r && s.g == t.g && s.b == t.b
  }

  // ---------------------------------------------------------------------------------------
  // One ball: gravity, integration, boundaries

  /** `applyGravity`: the vertical acceleration becomes the gravity constant, whatever it
      was; nothing else changes. */
  function WithGravity(s: Ball): (t: Ball)
    ensures t.ay == Gravity && t.(ay := s.ay) == s
  {
    s.(ay := Gravity)
  }

  method ApplyGravity(balls: array<Ball>, i: nat)
    requires i < balls.Length
    modifies balls
    ensures balls[..] == old(balls[..])[i := WithGravity(old(balls[i]))]
  {
    balls[i] := balls[i].(ay := 9.81 * MetresToPixels);
  }

  /** The four outcomes of the boundary chain, in priority order. */
  datatype Boundary = Floor | RightWall | LeftWall | FreeFlight

  /** Which branch of `checkNextFrameCollision` runs for tentative position (nextX, nextY):
      the floor test first, the right wall only when the floor test fails, the left wall
      only when both fail. The ceiling is never tested. */
  function BoundaryOf(s: Ball, nextX: real, nextY: real): Boundary
  {
    if nextY + s.radius as real >= ScreenHeight as real then Floor
    else if nextX + s.radius as real >= ScreenWidth as real then RightWall
    else if nextX - s.radius as real <= 0.0 then LeftWall
    else FreeFlight
  }

  /** `checkNextFrameCollision`, given the tentative position explicitly. The floor branch
      lifts the old y by the penetration depth, reflects vy scaled by elasticity / mass,
      damps vx by friction (or stops it below 0.01) and commits the tentative x. A wall
      branch shifts the old x by the penetration depth, reflects vx scaled by elasticity /
      mass, clears ax and commits the tentative y. Free flight commits both coordinates. */
  function Resolved(s: Ball, nextX: real, nextY: real): (t: Ball)
    requires s.mass > 0
    ensures SameBody(s, t)
  {
    var radius := s.radius as real;
    var mass := s.mass as real;
    match BoundaryOf(s, nextX, nextY)
    case Floor =>
      var penetration := nextY + radius - ScreenHeight as real;
      s.(y := s.y - penetration,
         vy := (-s.vy * s.elasticity) / mass,
         vx := if Abs(s.vx) < 0.01 then 0.0 else s.vx * Friction,
         x := nextX)
    case RightWall =>
      var penetration := nextX + radius - ScreenWidth as real;
      s.(x := s.x - penetration, vx := (-s.vx * s.elasticity) / mass, ax := 0.0, y := nextY)
    case LeftWall =>
      var penetration := 0.0 - nextX + radius;
      s.(x := s.x + penetration, vx := (-s.vx * s.elasticity) / mass, ax := 0.0, y := nextY)
    case FreeFlight =>
      s.(x := nextX, y := nextY)
  }

  method CheckNextFrameCollision(balls: array<Ball>, i: nat, nextX: real, nextY: real)
    requires i < balls.Length && balls[i].mass > 0
    modifies balls
    ensures balls[..] == old(balls[..])[i := Resolved(old(balls[i]), nextX, nextY)]
  {
    var obj := balls[i];
    ghost var s := obj;
    ghost var boundary := BoundaryOf(obj, nextX, nextY);
    if nextY + obj.radius as real >= ScreenHeight as real {
      var penetrationDepthY := nextY + obj.radius as real - ScreenHeight as real;
      obj := obj.(y := obj.y - penetrationDepthY);
      obj := obj.(vy := (-obj.vy * obj.elasticity) / obj.mass as real);
      obj := obj.(ay := obj.ay + 0.0);
      if Abs(obj.vx) < 0.01 {
        obj := obj.(vx := 0.0);
      } else {
        obj := obj.(vx := obj.vx * Friction);
      }
      obj := obj.(x := nextX);
      assert boundary == Floor;
    } else {
      if nextX + obj.radius as real >= ScreenWidth as real {
        var penetrationDepthX := nextX + obj.radius as real - ScreenWidth as real;
        obj := obj.(x := obj.x - penetrationDepthX);
        obj := obj.(vx := (-obj.vx * obj.elasticity) / obj.mass as real);
        obj := obj.(ax := 0.0);
        obj := obj.(y := nextY);
        assert boundary == RightWall;
      } else {
        if nextX - obj.radius as real <= 0.0 {
          var penetrationDepthX := 0.0 - nextX + obj.radius as real;
          obj := obj.(x := obj.x + penetrationDepthX);
          obj := obj.(vx := (-obj.vx * obj.elasticity) / obj.mass as real);
          obj := obj.(ax := 0.0);
          obj := obj.(y := nextY);
          assert boundary == LeftWall;
        } else {
          obj := obj.(x := nextX);
          obj := obj.(y := nextY);
          assert boundary == FreeFlight;
        }
      }
    }
    assert obj == Resolved(s, nextX, nextY);
    balls[i] := obj;
  }

  /** The velocity after the acceleration of one frame, the first half of `updatePosition`. */
  function Accelerated(s: Ball): (t: Ball)
    ensures t.(vx := s.vx, vy := s.vy) == s
  {
    s.(vx := s.vx + s.ax * DeltaTime, vy := s.vy + s.ay * DeltaTime)
  }

  /** `updatePosition`: semi-implicit Euler. The velocity is updated first and the
      tentative position is formed from the NEW velocity, then resolved against the walls. */
  function Integrated(s: Ball): (t: Ball)
    requires s.mass > 0
    ensures SameBody(s, t)
  {
    var a := Accelerated(s);
    Resolved(a, a.x + a.vx * DeltaTime, a.y + a.vy * DeltaTime)
  }

  method UpdatePosition(balls: array<Ball>, i: nat)
    requires i < balls.Length && balls[i].mass > 0
    modifies balls
    ensures balls[..] == old(balls[..])[i := Integrated(old(balls[i]))]
  {
    balls[i] := balls[i].(vx := balls[i].vx + balls[i].ax * DeltaTime);
    balls[i] := balls[i].(vy := balls[i].vy + balls[i].ay * DeltaTime);
    var nextPosX := balls[i].x + balls[i].vx * DeltaTime;
    var nextPosY := balls[i].y + balls[i].vy * DeltaTime;
    CheckNextFrameCollision(balls, i, nextPosX, nextPosY);
  }

  /** What a ball's own part of a frame does: gravity, then integration. */
  function Advanced(s: Ball): (t: Ball)
    requires s.mass > 0
    ensures SameBody(s, t)
  {
    Integrated(WithGravity(s))
  }

  // Properties of the boundary chain

  /** The floor branch wins whenever the tentative position reaches the floor, even when it
      is also past a side wall: x then takes the tentative value unchecked. */
  lemma FloorHasPriority(s: Ball, nextX: real, nextY: real)
    requires s.mass > 0
    requires nextY + s.radius as real >= ScreenHeight as real
    ensures BoundaryOf(s, nextX, nextY) == Floor
    ensures var t := Resolved(s, nextX, nextY);
      && t.x == nextX
      && t.y == s.y - (nextY + s.radius as real - ScreenHeight as real)
      && t.vy == (-s.vy * s.elasticity) / s.mass as real
      && (Abs(s.vx) < 0.01 ==> t.vx == 0.0)
      && (Abs(s.vx) >= 0.01 ==> t.vx == s.vx * Friction)
      && t.ax == s.ax && t.ay == s.ay
  {
  }

  /** A side-wall branch shifts x by the penetration depth, reflects and scales vx, clears
      ax, commits the tentative y and leaves vy and ay alone. */
  lemma WallBranches(s: Ball, nextX: real, nextY: real)
    requires s.mass > 0
    requires BoundaryOf(s, nextX, nextY) in {RightWall, LeftWall}
    ensures var t := Resolved(s, nextX, nextY);
      && t.y == nextY && t.vy == s.vy && t.ay == s.ay && t.ax == 0.0
      && t.vx == (-s.vx * s.elasticity) / s.mass as real
      && (BoundaryOf(s, nextX, nextY) == RightWall ==>
            t.x == s.x - (nextX + s.radius as real - ScreenWidth as real))
      && (BoundaryOf(s, nextX, nextY) == LeftWall ==>
            t.x == s.x + (s.radius as real - nextX))
  {
  }

  /** Free flight commits the tentative position and changes nothing else. */
  lemma FreeFlightCommits(s: Ball, nextX: real, nextY: real)
    requires s.mass > 0
    requires BoundaryOf(s, nextX, nextY) == FreeFlight
    ensures Resolved(s, nextX, nextY) == s.(x := nextX, y := nextY)
  {
  }

  /** A ball away from every wall and with no acceleration moves by exactly its velocity
      times the frame time, and no other field changes. */
  lemma FreeFlightStep(s: Ball)
    requires s.mass > 0 && s.ax == 0.0 && s.ay == 0.0
    requires var nextX, nextY := s.x + s.vx * DeltaTime, s.y + s.vy * DeltaTime;
      && nextY + s.radius as real < ScreenHeight as real
      && s.radius as real < nextX < (ScreenWidth - s.radius) as real
    ensures Integrated(s) == s.(x := s.x + s.vx * DeltaTime, y := s.y + s.vy * DeltaTime)
  {
  }

  /** The tentative position uses the updated velocity: it is x + (vx + ax dt) dt, not the
      explicit-Euler x + vx dt. */
  lemma SemiImplicitTentative(s: Ball)
    requires s.mass > 0
    requires BoundaryOf(Accelerated(s), s.x + (s.vx + s.ax * DeltaTime) * DeltaTime,
                        s.y + (s.vy + s.ay * DeltaTime) * DeltaTime) == FreeFlight
    ensures Integrated(s).x == s.x + (s.vx + s.ax * DeltaTime) * DeltaTime
    ensures Integrated(s).y == s.y + (s.vy + s.ay * DeltaTime) * DeltaTime
  {
  }

  /** Resting above the floor is an invariant of a ball's own step: if the ball starts with
      its bottom at or above the floor, it ends so, whichever branch runs. In the floor branch
      the tentative position reached the floor, so the updated vertical velocity points
      down, and the old y lifted by the penetration is the floor minus that motion. */
  lemma StaysAboveFloor(s: Ball)
    requires s.mass > 0
    requires s.y + s.radius as real <= ScreenHeight as real
    ensures Integrated(s).y + s.radius as real <= ScreenHeight as real
  {
  }

  /** The priority is observable: a ball touching the floor and the right wall that keeps
      moving right is bounced off the floor only and ends past the right wall. */
  lemma FloorBounceCanLeaveRightWall()
    ensures var s := Ball((ScreenWidth - 20) as real, (ScreenHeight - 20) as real, 144.0, 0.0, 0.0, 0.0,
                           0.4, 1, 20, 255, 255, 255);
      && s.x + s.radius as real <= ScreenWidth as real
      && s.y + s.radius as real <= ScreenHeight as real
      && Integrated(s).x + s.radius as real > ScreenWidth as real
  {
  }

  // ---------------------------------------------------------------------------------------
  // Two balls: overlap resolution and velocity exchange

  datatype Pair = Pair(first: Ball, second: Ball)

  /** The overlap test of both `checkBallCollision` and `resolveBallOverlap`: the distance
      between the centres is at most the sum of the radii. */
  predicate Touching(s1: Ball, s2: Ball, distance: real)
  {
    distance <= (s1.radius + s2.radius) as real
  }

  /** How far each ball moves along one axis: the cosine or sine `component` of the
      direction times half the overlap. */
  function HalfOverlap(component: real, overlapDistance: real): real
  {
    component * overlapDistance * 0.5
  }

  /** `resolveBallOverlap`, with the cosine and sine of the angle of the vector from the
      first centre to the second given as `dir`. When the balls touch, each is pushed away
      from the other by half the overlap along that direction: the two offsets are equal
      and opposite, so the sum of the two positions is kept. Otherwise nothing changes. */
  function OverlapResolved(s1: Ball, s2: Ball, distance: real, dir: Direction): (p: Pair)
    ensures SameBody(s1, p.first) && SameBody(s2, p.second)
    ensures p.first.x + p.second.x == s1.x + s2.x && p.first.y + p.second.y == s1.y + s2.y
    ensures p.first.(x := s1.x, y := s1.y) == s1 && p.second.(x := s2.x, y := s2.y) == s2
    ensures !Touching(s1, s2, distance) ==> p == Pair(s1, s2)
  {
    if Touching(s1, s2, distance) then
      var overlapDistance := (s1.radius + s2.radius) as real - distance;
      var offsetX := HalfOverlap(dir.cos, overlapDistance);
      var offsetY := HalfOverlap(dir.sin, overlapDistance);
      Pair(s1.(x := s1.x - offsetX, y := s1.y - offsetY), s2.(x := s2.x + offsetX, y := s2.y + offsetY))
    else
      Pair(s1, s2)
  }

  /** When `distance` and `dir` are the true length and direction of the vector between the
      centres, resolving an overlap leaves the centres exactly the sum of the radii apart,
      along the same direction. */
  lemma OverlapRestoresContact(s1: Ball, s2: Ball, distance: real, dir: Direction)
    requires Touching(s1, s2, distance)
    requires s2.x - s1.x == distance * dir.cos && s2.y - s1.y == distance * dir.sin
    requires dir.cos * dir.cos + dir.sin * dir.sin == 1.0
    ensures var p := OverlapResolved(s1, s2, distance, dir);
      var reach := (s1.radius + s2.radius) as real;
      && p.second.x - p.first.x == reach * dir.cos
      && p.second.y - p.first.y == reach * dir.sin
      && (p.second.x - p.first.x) * (p.second.x - p.first.x)
         + (p.second.y - p.first.y) * (p.second.y - p.first.y) == reach * reach
  {
  }

  /** The velocity part of `checkBallCollision`. Both velocities are rotated into the frame
      of `dir`, their components along `dir` are exchanged, they are rotated back, and each
      result is divided by that ball's mass. Only the velocities change. */
  function Exchanged(s1: Ball, s2: Ball, dir: Direction): (p: Pair)
    requires s1.mass > 0 && s2.mass > 0
    ensures SameBody(s1, p.first) && SameBody(s2, p.second)
    ensures p.first.(vx := s1.vx, vy := s1.vy) == s1 && p.second.(vx := s2.vx, vy := s2.vy) == s2
  {
    var c, sn := dir.cos, dir.sin;
    var v1x := s1.vx * c + s1.vy * sn;
    var v1y := s1.vy * c - s1.vx * sn;
    var v2x := s2.vx * c + s2.vy * sn;
    var v2y := s2.vy * c - s2.vx * sn;
    // v1x and v2x trade places before rotating back
    Pair(s1.(vx := (v2x * c - v1y * sn) / s1.mass as real, vy := (v1y * c + v2x * sn) / s1.mass as real),
         s2.(vx := (v1x * c - v2y * sn) / s2.mass as real, vy := (v2y * c + v1x * sn) / s2.mass as real))
  }

  /** `Exchanged` in terms of the four rotated components, as `checkBallCollision` names
      them before the swap. */
  lemma ExchangedFrom(s1: Ball, s2: Ball, dir: Direction, v1x: real, v1y: real, v2x: real, v2y: real)
    requires s1.mass > 0 && s2.mass > 0
    requires v1x == s1.vx * dir.cos + s1.vy * dir.sin && v1y == s1.vy * dir.cos - s1.vx * dir.sin
    requires v2x == s2.vx * dir.cos + s2.vy * dir.sin && v2y == s2.vy * dir.cos - s2.vx * dir.sin
    ensures var c, sn, m1, m2 := dir.cos, dir.sin, s1.mass as real, s2.mass as real;
      Exchanged(s1, s2, dir) ==
        Pair(s1.(vx := (v2x * c - v1y * sn) / m1, vy := (v1y * c + v2x * sn) / m1),
             s2.(vx := (v1x * c - v2y * sn) / m2, vy := (v2y * c + v1x * sn) / m2))
  {
  }

  /** For two balls of equal mass m and a unit direction, the exchange divides the total
      momentum by m, because the formula divides velocities by the mass after an equal-mass
      exchange. So momentum is kept for every pair when m = 1 (every ball the program
      creates); for any other m it is kept only when the total momentum is zero. */
  lemma {:induction false} ExchangeScalesMomentum(s1: Ball, s2: Ball, dir: Direction)
    requires s1.mass > 0 && s1.mass == s2.mass
    requires dir.cos * dir.cos + dir.sin * dir.sin == 1.0
    ensures var p := Exchanged(s1, s2, dir);
      && p.first.vx + p.second.vx == (s1.vx + s2.vx) / s1.mass as real
      && p.first.vy + p.second.vy == (s1.vy + s2.vy) / s1.mass as real
  {
    var c, sn := dir.cos, dir.sin;
    var m := s1.mass as real;
    var v1x := s1.vx * c + s1.vy * sn;
    var v1y := s1.vy * c - s1.vx * sn;
    var v2x := s2.vx * c + s2.vy * sn;
    var v2y := s2.vy * c - s2.vx * sn;
    var px, py := s1.vx + s2.vx, s1.vy + s2.vy;
    var u, w := v1x + v2x, v1y + v2y;
    assert u == px * c + py * sn && w == py * c - px * sn;
    RotateBack(px, py, c, sn, u, w);
    var p := Exchanged(s1, s2, dir);
    assert (v2x * c - v1y * sn) + (v1x * c - v2y * sn) == u * c - w * sn;
    assert (v1y * c + v2x * sn) + (v2y * c + v1x * sn) == w * c + u * sn;
    SumOverMass(v2x * c - v1y * sn, v1x * c - v2y * sn, m);
    SumOverMass(v1y * c + v2x * sn, v2y * c + v1x * sn, m);
  }

  /** The exchange itself: in the frame of a unit direction, each ball comes out with the
      other ball's normal component and its own tangential component, both divided by its
      own mass (so, for unit masses, exactly exchanged and kept). */
  lemma {:induction false} ExchangeSwapsNormalComponents(s1: Ball, s2: Ball, dir: Direction)
    requires s1.mass > 0 && s2.mass > 0
    requires dir.cos * dir.cos + dir.sin * dir.sin == 1.0
    ensures var p, c, sn := Exchanged(s1, s2, dir), dir.cos, dir.sin;
      && (p.first.vx * c + p.first.vy * sn) * s1.mass as real == s2.vx * c + s2.vy * sn
      && (p.first.vy * c - p.first.vx * sn) * s1.mass as real == s1.vy * c - s1.vx * sn
      && (p.second.vx * c + p.second.vy * sn) * s2.mass as real == s1.vx * c + s1.vy * sn
      && (p.second.vy * c - p.second.vx * sn) * s2.mass as real == s2.vy * c - s2.vx * sn
  {
    var p, c, sn := Exchanged(s1, s2, dir), dir.cos, dir.sin;
    var v1x := s1.vx * c + s1.vy * sn;
    var v1y := s1.vy * c - s1.vx * sn;
    var v2x := s2.vx * c + s2.vy * sn;
    var v2y := s2.vy * c - s2.vx * sn;
    ScaledRotation(p.first.vx, p.first.vy, s1.mass as real, c, sn, v2x, v1y);
    ScaledRotation(p.second.vx, p.second.vy, s2.mass as real, c, sn, v1x, v2y);
  }

  /** A velocity that is the rotation back of (u, w) divided by a positive mass m has, in the
      frame of the unit direction, the components u / m and w / m. */
  lemma ScaledRotation(vx: real, vy: real, m: real, c: real, sn: real, u: real, w: real)
    requires m > 0.0 && c * c + sn * sn == 1.0
    requires vx == (u * c - w * sn) / m && vy == (w * c + u * sn) / m
    ensures (vx * c + vy * sn) * m == u && (vy * c - vx * sn) * m == w
  {
    var a, b := u * c - w * sn, w * c + u * sn;
    assert vx * m == a && vy * m == b;
    assert (vx * c + vy * sn) * m == a * c + b * sn;
    assert (vy * c - vx * sn) * m == b * c - a * sn;
    assert a * c + b * sn == u * (c * c + sn * sn);
    assert b * c - a * sn == w * (c * c + sn * sn);
  }

  lemma SumOverMass(a: real, b: real, m: real)
    requires m > 0.0
    ensures a / m + b / m == (a + b) / m
  {
  }

  /** Rotating a vector (px, py) by a unit direction and back gives the vector itself. */
  lemma RotateBack(px: real, py: real, c: real, sn: real, u: real, w: real)
    requires c * c + sn * sn == 1.0
    requires u == px * c + py * sn && w == py * c - px * sn
    ensures u * c - w * sn == px && w * c + u * sn == py
  {
  }

  /** The distance `checkBallCollision` computes, `sqrt(pow(dx, 2) + pow(dy, 2))`. */
  function Distance(s1: Ball, s2: Ball, num: Numerics): real
  {
    num.sqrt((s2.x - s1.x) * (s2.x - s1.x) + (s2.y - s1.y) * (s2.y - s1.y))
  }

  /** Cosine and sine of `atan2(y2 - y1, x2 - x1)`, the direction from the first centre to
      the second. */
  function DirectionOf(s1: Ball, s2: Ball, num: Numerics): Direction
  {
    num.angleOf(s2.x - s1.x, s2.y - s1.y)
  }

  /** `checkBallCollision`: when the balls touch, resolve the overlap, then exchange the
      velocities along the direction between the moved centres; otherwise change nothing.
      Positions move only by the equal and opposite overlap offsets, and mass, radius,
      elasticity, colour and acceleration are never written. */
  function Collided(s1: Ball, s2: Ball, num: Numerics): (p: Pair)
    requires s1.mass > 0 && s2.mass > 0
    ensures SameBody(s1, p.first) && SameBody(s2, p.second)
    ensures p.first.x + p.second.x == s1.x + s2.x && p.first.y + p.second.y == s1.y + s2.y
    ensures p.first.ax == s1.ax && p.first.ay == s1.ay && p.second.ax == s2.ax && p.second.ay == s2.ay
    ensures !Touching(s1, s2, Distance(s1, s2, num)) ==> p == Pair(s1, s2)
  {
    var distance := Distance(s1, s2, num);
    if Touching(s1, s2, distance) then
      var moved := OverlapResolved(s1, s2, distance, DirectionOf(s1, s2, num));
      Exchanged(moved.first, moved.second, DirectionOf(moved.first, moved.second, num))
    else
      Pair(s1, s2)
  }

  method ResolveBallOverlap(balls: array<Ball>, i: nat, j: nat, distance: real, num: Numerics)
    returns (touching: bool)
    requires i < balls.Length && j < balls.Length && i != j
    modifies balls
    ensures touching == Touching(old(balls[i]), old(balls[j]), distance)
    ensures var p := OverlapResolved(old(balls[i]), old(balls[j]), distance, DirectionOf(old(balls[i]), old(balls[j]), num));
      balls[..] == old(balls[..])[i := p.first][j := p.second]
  {
    var ball1, ball2 := balls[i], balls[j];
    if distance <= (ball1.radius + ball2.radius) as real {
      var overlapDistance := (ball1.radius + ball2.radius) as real - distance;
      var angle := DirectionOf(ball1, ball2, num);
      var offsetX := HalfOverlap(angle.cos, overlapDistance);
      var offsetY := HalfOverlap(angle.sin, overlapDistance);
      ball1 := ball1.(x := ball1.x - offsetX);
      ball1 := ball1.(y := ball1.y - offsetY);
      ball2 := ball2.(x := ball2.x + offsetX);
      ball2 := ball2.(y := ball2.y + offsetY);
      ghost var p := OverlapResolved(balls[i], balls[j], distance, angle);
      assert Pair(ball1, ball2) == p;
      balls[i], balls[j] := ball1, ball2;
      return true;
    }
    return false;
  }

  /** The velocity part of `checkBallCollision`, run once the overlap is resolved: balls i and
      j become `Exchanged` of their values along the direction between their centres. */
  method ExchangeVelocities(balls: array<Ball>, i: nat, j: nat, num: Numerics)
    requires i < balls.Length && j < balls.Length && i != j
    requires balls[i].mass > 0 && balls[j].mass > 0
    modifies balls
    ensures var p := Exchanged(old(balls[i]), old(balls[j]), DirectionOf(old(balls[i]), old(balls[j]), num));
      balls[..] == old(balls[..])[i := p.first][j := p.second]
  {
    var ball1, ball2 := balls[i], balls[j];
    var collisionAngle := DirectionOf(ball1, ball2, num);
    var c, sn := collisionAngle.cos, collisionAngle.sin;
    var v1x := ball1.vx * c + ball1.vy * sn;
    var v1y := ball1.vy * c - ball1.vx * sn;
    var v2x := ball2.vx * c + ball2.vy * sn;
    var v2y := ball2.vy * c - ball2.vx * sn;
    ghost var exchanged := Exchanged(ball1, ball2, collisionAngle);
    ExchangedFrom(ball1, ball2, collisionAngle, v1x, v1y, v2x, v2y);
    var temp := v1x;
    v1x := v2x;
    v2x := temp;
    var m1, m2 := ball1.mass as real, ball2.mass as real;
    ball1 := ball1.(vx := (v1x * c - v1y * sn) / m1);
    ball1 := ball1.(vy := (v1y * c + v1x * sn) / m1);
    ball2 := ball2.(vx := (v2x * c - v2y * sn) / m2);
    ball2 := ball2.(vy := (v2y * c + v2x * sn) / m2);
    assert Pair(ball1, ball2) == exchanged;
    balls[i], balls[j] := ball1, ball2;
  }

  method CheckBallCollision(balls: array<Ball>, i: nat, j: nat, num: Numerics) returns (collided: bool)
    requires i < balls.Length && j < balls.Length && i != j
    requires balls[i].mass > 0 && balls[j].mass > 0
    modifies balls
    ensures collided == Touching(old(balls[i]), old(balls[j]), Distance(old(balls[i]), old(balls[j]), num))
    ensures var p := Collided(old(balls[i]), old(balls[j]), num);
      balls[..] == old(balls[..])[i := p.first][j := p.second]
  {
    var distance := Distance(balls[i], balls[j], num);
    if distance <= (balls[i].radius + balls[j].radius) as real {
      var resolved := ResolveBallOverlap(balls, i, j, distance, num);
      if resolved {
        ExchangeVelocities(balls, i, j, num);
        return true;
      }
    }
    return false;
  }

  // ---------------------------------------------------------------------------------------
  // The frame: every ball, then every later ball

  predicate PositiveMasses(s: seq<Ball>)
  {
    forall k | 0 <= k < |s| :: s[k].mass > 0
  }

  /** The values of all balls after balls `i` and `j` have been checked against each other. */
  function Met(s: seq<Ball>, i: nat, j: nat, num: Numerics): (t: seq<Ball>)
    requires i < j < |s| && PositiveMasses(s)
    ensures |t| == |s| && PositiveMasses(t)
    ensures forall k | 0 <= k < |s| && k != i && k != j :: t[k] == s[k]
  {
    var p := Collided(s[i], s[j], num);
    s[i := p.first][j := p.second]
  }

  /** Ball `i` checked, in order, against balls i+1 .. j-1: the inner loop of `update`
      stopped before ball `j`. */
  function Sweep(s: seq<Ball>, i: nat, j: nat, num: Numerics): (t: seq<Ball>)
    requires i < |s| && j <= |s| && PositiveMasses(s)
    ensures |t| == |s| && PositiveMasses(t)
    decreases j
  {
    if j <= i + 1 then s
    else
      Met(Sweep(s, i, j - 1, num), i, j - 1, num)
  }

  /** Ball `i`'s turn in `update`: gravity and integration, then the sweep over every later
      ball. */
  function Turn(s: seq<Ball>, i: nat, num: Numerics): (t: seq<Ball>)
    requires i < |s| && PositiveMasses(s)
    ensures |t| == |s| && PositiveMasses(t)
  {
    Sweep(s[i := Advanced(s[i])], i, |s|, num)
  }

  /** The first `m` turns of a frame. */
  function Turns(s: seq<Ball>, m: nat, num: Numerics): (t: seq<Ball>)
    requires m <= |s| && PositiveMasses(s)
    ensures |t| == |s| && PositiveMasses(t)
    decreases m
  {
    if m == 0 then s else Turn(Turns(s, m - 1, num), m - 1, num)
  }

  /** One call of `update` on the values `s`. */
  function Frame(s: seq<Ball>, num: Numerics): (t: seq<Ball>)
    requires PositiveMasses(s)
    ensures |t| == |s| && PositiveMasses(t)
  {
    Turns(s, |s|, num)
  }

  /** Ball `i`'s sweep changes no ball before `i`, and no ball's mass, radius, elasticity
      or colour. */
  lemma {:induction false} SweepKeeps(s: seq<Ball>, i: nat, j: nat, num: Numerics)
    requires i < |s| && j <= |s| && PositiveMasses(s)
    ensures forall k | 0 <= k < i :: Sweep(s, i, j, num)[k] == s[k]
    ensures forall k | 0 <= k < |s| :: SameBody(s[k], Sweep(s, i, j, num)[k])
    decreases j
  {
    if j > i + 1 {
      SweepKeeps(s, i, j - 1, num);
    }
  }

  /** Turns change no ball's mass, radius, elasticity or colour. */
  lemma {:induction false} TurnsKeepBodies(s: seq<Ball>, m: nat, num: Numerics)
    requires m <= |s| && PositiveMasses(s)
    ensures forall k | 0 <= k < |s| :: SameBody(s[k], Turns(s, m, num)[k])
  {
    if m > 0 {
      TurnsKeepBodies(s, m - 1, num);
      var prior := Turns(s, m - 1, num);
      var advanced := prior[m - 1 := Advanced(prior[m - 1])];
      SweepKeeps(advanced, m - 1, |s|, num);
      assert forall k | 0 <= k < |s| :: SameBody(prior[k], advanced[k]);
    }
  }

  /** A frame changes no ball's mass, radius, elasticity or colour. */
  lemma FrameKeepsBodies(s: seq<Ball>, num: Numerics)
    requires PositiveMasses(s)
    ensures forall k | 0 <= k < |s| :: SameBody(s[k], Frame(s, num)[k])
  {
    TurnsKeepBodies(s, |s|, num);
  }

  /** The last turn of a frame only advances the last ball: there is no later ball to
      check it against. */
  lemma LastTurnOnlyAdvances(s: seq<Ball>, num: Numerics)
    requires 0 < |s| && PositiveMasses(s)
    ensures Turn(s, |s| - 1, num) == s[|s| - 1 := Advanced(s[|s| - 1])]
  {
  }

  lemma SweepStep(s: seq<Ball>, i: nat, j: nat, num: Numerics)
    requires i < j < |s| && PositiveMasses(s)
    ensures Sweep(s, i, j + 1, num) == Met(Sweep(s, i, j, num), i, j, num)
  {
  }

  /** The inner loop of `update`: ball `i` is checked, in order, against every later ball.
      The ghost `visits` records the pair checks made, in order. */
  method CollideWithLater(balls: array<Ball>, i: nat, num: Numerics) returns (ghost visits: seq<Event>)
    requires i < balls.Length && PositiveMasses(balls[..])
    modifies balls
    ensures balls[..] == Sweep(old(balls[..]), i, balls.Length, num)
    ensures visits == Pairs(i, balls.Length)
  {
    ghost var s := balls[..];
    visits := [];
    var j := i + 1;
    while j < balls.Length
      invariant i + 1 <= j <= balls.Length
      invariant balls[..] == Sweep(s, i, j, num)
      invariant visits == Pairs(i, j)
    {
      PairsStep(i, j);
      visits := visits + [Meet(i, j)];
      assert balls[i].mass > 0 && balls[j].mass > 0;
      ghost var before := balls[..];
      var _ := CheckBallCollision(balls, i, j, num);
      assert balls[..] == Met(before, i, j, num);
      SweepStep(s, i, j, num);
      j := j + 1;
    }
  }

  /** One pass of the outer loop of `update`: gravity and integration for ball `i`, then its
      collision checks against every later ball, recorded in order in the ghost `checks`.
      After the first `i` turns of a frame starting from `s0`, it performs turn `i`. */
  method TakeTurn(balls: array<Ball>, i: nat, num: Numerics, ghost s0: seq<Ball>) returns (ghost checks: seq<Event>)
    requires i < balls.Length == |s0| && PositiveMasses(s0)
    requires balls[..] == Turns(s0, i, num)
    modifies balls
    ensures balls[..] == Turns(s0, i + 1, num)
    ensures checks == Pairs(i, balls.Length)
  {
    ghost var t := balls[..];
    assert t[i].mass > 0;
    ApplyGravity(balls, i);
    UpdatePosition(balls, i);
    assert balls[..] == t[i := Advanced(t[i])];
    checks := CollideWithLater(balls, i, num);
  }

  /** `update`: for each ball in order, gravity and integration, then the collision check
      against every later ball. The ghost `visits` records the steps taken, in order: it is
      the schedule whose every ball step and every pair check occurs exactly once
      (`UpdateOrder.UpdateVisitsEachOnce`). */
  method Update(balls: array<Ball>, num: Numerics) returns (ghost visits: seq<Event>)
    requires PositiveMasses(balls[..])
    modifies balls
    ensures balls[..] == Frame(old(balls[..]), num)
    ensures visits == Schedule(balls.Length, balls.Length)
  {
    ghost var s0 := balls[..];
    ghost var n := |s0|;
    visits := [];
    var i := 0;
    while i < balls.Length
      invariant 0 <= i <= n && balls.Length == n
      invariant balls[..] == Turns(s0, i, num)
      invariant visits == Schedule(i, n)
    {
      ghost var checks := TakeTurn(balls, i, num, s0);
      visits := visits + [Advance(i)] + checks;
      i := i + 1;
    }
  }

  // ---------------------------------------------------------------------------------------
  // Input and start-up

  /** The click impulse: the controlled ball's velocity grows by the offset from its centre
      to the cursor, times 2 horizontally and 8 vertically; nothing else changes. */
  function Kicked(s: Ball, mouseX: int, mouseY: int): (t: Ball)
    ensures t.vx - s.vx == (mouseX as real - s.x) * MousePowerX as real
    ensures t.vy - s.vy == (mouseY as real - s.y) * MousePowerY as real
    ensures t.(vx := s.vx, vy := s.vy) == s
  {
    s.(vx := s.vx + (mouseX as real - s.x) * MousePowerX as real,
       vy := s.vy + (mouseY as real - s.y) * MousePowerY as real)
  }

  /** A ball at rest at (100, 100) clicked at (200, 100) gets velocity (200, 0). */
  lemma KickExample()
    ensures var s := Kicked(Ball(100.0, 100.0, 0.0, 0.0, 0.0, 0.0, 0.4, 1, 20, 255, 0, 0), 200, 100);
      s.vx == 200.0 && s.vy == 0.0
  {
  }

  /** A mouse-button press at (mouseX, mouseY) kicks ball 0 and only ball 0. */
  method ClickImpulse(balls: array<Ball>, mouseX: int, mouseY: int)
    requires balls.Length > 0
    modifies balls
    ensures balls[..] == old(balls[..])[0 := Kicked(old(balls[0]), mouseX, mouseY)]
  {
    balls[0] := balls[0].(vx := balls[0].vx + (mouseX as real - balls[0].x) * MousePowerX as real);
    balls[0] := balls[0].(vy := balls[0].vy + (mouseY as real - balls[0].y) * MousePowerY as real);
  }

  /** The red controlled ball and the value of each of the thirteen white balls. */
  const RedBall: Ball := Ball(100.0, 100.0, 0.0, 0.0, 0.0, 0.0, 0.4, 1, 20, 255, 0, 0)
  const WhiteBall: Ball := Ball(600.0, 100.0, 0.0, 0.0, 0.0, 0.0, 0.4, 1, 20, 255, 255, 255)

  /** The vector the program starts with: the red ball, then thirteen white balls pushed
      one by one, all of mass 1, so `Update`'s requirement holds. */
  method InitialScene() returns (scene: seq<Ball>)
    ensures |scene| == 14 && scene[0] == RedBall
    ensures forall k | 1 <= k < |scene| :: scene[k] == WhiteBall
    ensures PositiveMasses(scene)
  {
    scene := [RedBall];
    var i := 0;
    while i <= 12
      invariant 0 <= i <= 13 && |scene| == i + 1 && scene[0] == RedBall
      invariant forall k | 1 <= k < |scene| :: scene[k] == WhiteBall
    {
      scene := scene + [WhiteBall];
      i := i + 1;
    }
  }
}
