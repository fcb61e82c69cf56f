/** The two-ball bouncing program (collisionEngine/base.cpp).

    Each frame moves both balls by their velocity, reverses a velocity component when the
    moved ball sticks out of the window on that axis, and, when the two discs touch or
    overlap, exchanges the two balls' whole velocity vectors. The balls are structs updated
    through references, so they are objects here. Floats are exact reals. */
module BouncingBalls {
  import opened Walls

  const ScreenWidth: int := 800
  const ScreenHeight: int := 600

  class Ball {
    var x: real
    var y: real
    var dx: real
    var dy: real
    var radius: int

    constructor (x: real, y: real, dx: real, dy: real, radius: int)
      ensures this.x == x && this.y == y && this.dx == dx && this.dy == dy && this.radius == radius
    {
      this.x, this.y, this.dx, this.dy, this.radius := x, y, dx, dy, radius;
    }
  }

  /** One frame of motion for one ball: the position moves by exactly the old velocity, then
      each velocity component is reversed exactly when the moved ball escapes the window on
      that axis. The radius never changes and the speed on each axis is kept. */
  method UpdateBall(ball: Ball)
    modifies ball
    ensures ball.x == old(ball.x) + old(ball.dx) && ball.y == old(ball.y) + old(ball.dy)
    ensures ball.radius == old(ball.radius)
    ensures Escapes(ball.x, ball.radius, ScreenWidth) ==> ball.dx == -old(ball.dx)
    ensures !Escapes(ball.x, ball.radius, ScreenWidth) ==> ball.dx == old(ball.dx)
    ensures Escapes(ball.y, ball.radius, ScreenHeight) ==> ball.dy == -old(ball.dy)
    ensures !Escapes(ball.y, ball.radius, ScreenHeight) ==> ball.dy == old(ball.dy)
    ensures Abs(ball.dx) == Abs(old(ball.dx)) && Abs(ball.dy) == Abs(old(ball.dy))
  {
    ball.x := ball.x + ball.dx;
    ball.y := ball.y + ball.dy;
    if ball.x - ball.radius as real < 0.0 || ball.x + ball.radius as real > ScreenWidth as real {
      ball.dx := ball.dx * -1.0;
    }
    if ball.y - ball.radius as real < 0.0 || ball.y + ball.radius as real > ScreenHeight as real {
      ball.dy := ball.dy * -1.0;
    }
  }

  /** Squared distance between the two centres. */
  function SquaredDistance(ball1: Ball, ball2: Ball): real
    reads ball1, ball2
  {
    var dx := ball1.x - ball2.x;
    var dy := ball1.y - ball2.y;
    dx * dx + dy * dy
  }

  /** The overlap test `sqrt(dx*dx + dy*dy) <= r1 + r2`, without the square root: a square
      root is never negative, so the test fails for a negative sum of radii and otherwise
      compares the squares. */
  predicate CheckCollision(ball1: Ball, ball2: Ball)
    reads ball1, ball2
  {
    var reach := ball1.radius + ball2.radius;
    0 <= reach && SquaredDistance(ball1, ball2) <= (reach * reach) as real
  }

  /** For the true distance `distance` between the centres (the non-negative root of the
      squared distance), `CheckCollision` is exactly the source's test `distance <= r1 + r2`. */
  lemma CheckCollisionIsDistanceTest(ball1: Ball, ball2: Ball, distance: real)
    requires 0.0 <= distance && distance * distance == SquaredDistance(ball1, ball2)
    ensures CheckCollision(ball1, ball2) <==> distance <= (ball1.radius + ball2.radius) as real
  {
    var sum := ball1.radius + ball2.radius;
    var reach := sum as real;
    assert (sum * sum) as real == reach * reach;
    if distance <= reach {
      SquareMonotone(distance, reach);
    } else if 0.0 <= reach {
      SquareMonotone(reach, distance);
    }
  }

  /** Squaring is monotone on the non-negative reals, strictly so for strictly ordered values. */
  lemma SquareMonotone(a: real, b: real)
    requires 0.0 <= a <= b
    ensures a * a <= b * b
    ensures a < b ==> a * a < b * b
  {
    var aa, ab, bb := a * a, a * b, b * b;
    assert aa <= ab <= bb;
    if a < b {
      assert ab < bb;
    }
  }

  /** The overlap test does not depend on the order of its arguments. */
  lemma CheckCollisionSymmetric(ball1: Ball, ball2: Ball)
    ensures CheckCollision(ball1, ball2) == CheckCollision(ball2, ball1)
  {
  }

  /** When the two balls collide their whole velocity vectors are exchanged, otherwise
      nothing changes; positions and radii are never touched, so whether they collide is the
      same afterwards. */
  method HandleCollisions(ball1: Ball, ball2: Ball)
    modifies ball1, ball2
    ensures old(CheckCollision(ball1, ball2)) ==>
      && ball1.dx == old(ball2.dx) && ball1.dy == old(ball2.dy)
      && ball2.dx == old(ball1.dx) && ball2.dy == old(ball1.dy)
    ensures !old(CheckCollision(ball1, ball2)) ==>
      && ball1.dx == old(ball1.dx) && ball1.dy == old(ball1.dy)
      && ball2.dx == old(ball2.dx) && ball2.dy == old(ball2.dy)
    ensures ball1.x == old(ball1.x) && ball1.y == old(ball1.y) && ball1.radius == old(ball1.radius)
    ensures ball2.x == old(ball2.x) && ball2.y == old(ball2.y) && ball2.radius == old(ball2.radius)
    ensures CheckCollision(ball1, ball2) == old(CheckCollision(ball1, ball2))
  {
    if CheckCollision(ball1, ball2) {
      var tempDx := ball1.dx;
      var tempDy := ball1.dy;
      ball1.dx := ball2.dx;
      ball1.dy := ball2.dy;
      ball2.dx := tempDx;
      ball2.dy := tempDy;
    }
  }

  /** Handling the same pair twice restores both velocities: the exchange is its own
      inverse, and the first call leaves the collision status as it found it. */
  method HandleCollisionsTwice(ball1: Ball, ball2: Ball)
    modifies ball1, ball2
    ensures ball1.dx == old(ball1.dx) && ball1.dy == old(ball1.dy)
    ensures ball2.dx == old(ball2.dx) && ball2.dy == old(ball2.dy)
  {
    HandleCollisions(ball1, ball2);
    HandleCollisions(ball1, ball2);
  }

  /** The two balls the program starts with; they are sqrt(130000), about 360.6, pixels apart, so they do not yet
      collide. */
  method InitialBalls() returns (ball1: Ball, ball2: Ball)
    ensures fresh(ball1) && fresh(ball2)
    ensures ball1.x == 100.0 && ball1.y == 100.0 && ball1.dx == 4.0 && ball1.dy == 3.0 && ball1.radius == 20
    ensures ball2.x == 400.0 && ball2.y == 300.0 && ball2.dx == -3.0 && ball2.dy == -4.0 && ball2.radius == 20
    ensures !CheckCollision(ball1, ball2)
  {
    ball1 := new Ball(100.0, 100.0, 4.0, 3.0, 20);
    ball2 := new Ball(400.0, 300.0, -3.0, -4.0, 20);
  }

  /** The program's two starting velocities, (4, 3) and (-3, -4), on two touching balls come
      out exchanged: (-3, -4) and (4, 3). */
  method ExchangeOfInitialVelocities() returns (v1: (real, real), v2: (real, real))
    ensures v1 == (-3.0, -4.0) && v2 == (4.0, 3.0)
  {
    var ball1 := new Ball(100.0, 100.0, 4.0, 3.0, 20);
    var ball2 := new Ball(130.0, 100.0, -3.0, -4.0, 20);
    HandleCollisions(ball1, ball2);
    v1, v2 := (ball1.dx, ball1.dy), (ball2.dx, ball2.dy);
  }
}
