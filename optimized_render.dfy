/** The hundred-ball particle display (Optimized_render_sdl/main.cpp).

    Balls are plain structs stored by value in a vector; `Solve` updates each one in place
    with the same move-then-bounce rule as the two-ball program. Every ball is drawn from one
    pre-built texture whose pixel buffer holds a filled disc. Floats are exact reals. */
module OptimizedRender {
  import opened Walls

  const ScreenWidth: int := 800
  const ScreenHeight: int := 600
  const NumBalls: int := 100

  /** An 8-bit colour channel. */
  type Channel = c: int | 0 <= c < 256

  datatype Color = Color(r: Channel, g: Channel, b: Channel, a: Channel)

  datatype Ball = Ball(x: real, y: real, vx: real, vy: real, radius: int, color: Color)

  /** A 32-bit pixel value (`Uint32`). */
  type Pixel = p: int | 0 <= p < 0x1_0000_0000

  /** The per-ball rule of `Solve`: move by the velocity, then reverse each velocity
      component whose wall test fails for the moved ball. */
  function Advanced(b: Ball): (r: Ball)
    ensures r.x == b.x + b.vx && r.y == b.y + b.vy
    ensures r.radius == b.radius && r.color == b.color
    ensures Abs(r.vx) == Abs(b.vx) && Abs(r.vy) == Abs(b.vy)
  {
    var x := b.x + b.vx;
    var y := b.y + b.vy;
    var vx := if Escapes(x, b.radius, ScreenWidth) then b.vx * -1.0 else b.vx;
    var vy := if Escapes(y, b.radius, ScreenHeight) then b.vy * -1.0 else b.vy;
    Ball(x, y, vx, vy, b.radius, b.color)
  }

  /** The velocity of an advanced ball is reversed on an axis exactly when the moved ball
      escapes the window on that axis, and kept otherwise. */
  lemma AdvancedBounces(b: Ball)
    ensures Escapes(b.x + b.vx, b.radius, ScreenWidth) ==> Advanced(b).vx == -b.vx
    ensures !Escapes(b.x + b.vx, b.radius, ScreenWidth) ==> Advanced(b).vx == b.vx
    ensures Escapes(b.y + b.vy, b.radius, ScreenHeight) ==> Advanced(b).vy == -b.vy
    ensures !Escapes(b.y + b.vy, b.radius, ScreenHeight) ==> Advanced(b).vy == b.vy
  {
  }

  /** One frame: the first `NumBalls` balls are advanced in place, in index order. The loop
      indexes up to `NumBalls - 1` without looking at the vector's size, so the vector must
      hold at least that many balls; balls past that index are not touched. */
  method Solve(balls: array<Ball>)
    requires balls.Length >= NumBalls
    modifies balls
    ensures forall i :: 0 <= i < NumBalls ==> balls[i] == Advanced(old(balls[i]))
    ensures forall i :: NumBalls <= i < balls.Length ==> balls[i] == old(balls[i])
  {
    var i := 0;
    while i < NumBalls
      invariant 0 <= i <= NumBalls
      invariant forall k :: 0 <= k < i ==> balls[k] == Advanced(old(balls[k]))
      invariant forall k :: i <= k < balls.Length ==> balls[k] == old(balls[k])
    {
      balls[i] := balls[i].(x := balls[i].x + balls[i].vx);
      balls[i] := balls[i].(y := balls[i].y + balls[i].vy);
      if balls[i].x - balls[i].radius as real < 0.0 || balls[i].x + balls[i].radius as real > ScreenWidth as real {
        balls[i] := balls[i].(vx := balls[i].vx * -1.0);
      }
      if balls[i].y - balls[i].radius as real < 0.0 || balls[i].y + balls[i].radius as real > ScreenHeight as real {
        balls[i] := balls[i].(vy := balls[i].vy * -1.0);
      }
      i := i + 1;
    }
  }

  /** The ball built from four `rand()` results (position x, position y, vx, vy, drawn in that
      order) and a colour: the centre lies at least 20 pixels inside the window and each
      velocity component is an integer between -2 and 2. */
  function Spawned(randX: nat, randY: nat, randVx: nat, randVy: nat, color: Color): (b: Ball)
    ensures 20.0 <= b.x <= (ScreenWidth - 21) as real
    ensures 20.0 <= b.y <= (ScreenHeight - 21) as real
    ensures -2.0 <= b.vx <= 2.0 && -2.0 <= b.vy <= 2.0
    ensures b.vx == b.vx.Floor as real && b.vy == b.vy.Floor as real
    ensures b.radius == 10 && b.color == color
  {
    Ball((20 + randX % (ScreenWidth - 2 * 20)) as real,
         (20 + randY % (ScreenHeight - 2 * 20)) as real,
         (randVx % 5 - 2) as real,
         (randVy % 5 - 2) as real,
         10, color)
  }

  /** The start-up loop: `NumBalls` balls, ball `i` built from the `rand()` results
      `rands[4 * i .. 4 * i + 4]` and the colour `colors[i]`. */
  method SpawnBalls(rands: seq<nat>, colors: seq<Color>) returns (balls: array<Ball>)
    requires |rands| == 4 * NumBalls && |colors| == NumBalls
    ensures fresh(balls) && balls.Length == NumBalls
    ensures forall i :: 0 <= i < NumBalls ==>
      balls[i] == Spawned(rands[4 * i], rands[4 * i + 1], rands[4 * i + 2], rands[4 * i + 3], colors[i])
  {
    balls := new Ball[NumBalls](_ => Ball(0.0, 0.0, 0.0, 0.0, 0, Color(0, 0, 0, 0)));
    var i := 0;
    while i < NumBalls
      invariant 0 <= i <= NumBalls
      invariant forall k :: 0 <= k < i ==>
        balls[k] == Spawned(rands[4 * k], rands[4 * k + 1], rands[4 * k + 2], rands[4 * k + 3], colors[k])
    {
      balls[i] := balls[i].(x := (20 + rands[4 * i] % (ScreenWidth - 2 * 20)) as real);
      balls[i] := balls[i].(y := (20 + rands[4 * i + 1] % (ScreenHeight - 2 * 20)) as real);
      balls[i] := balls[i].(vx := ((rands[4 * i + 2] % 5) as int - 2) as real);
      balls[i] := balls[i].(vy := ((rands[4 * i + 3] % 5) as int - 2) as real);
      balls[i] := balls[i].(radius := 10);
      balls[i] := balls[i].(color := colors[i]);
      i := i + 1;
    }
  }

  // ---------------------------------------------------------------------------------------
  // The disc texture

  /** Whether texel (x, y) of a texture of side `2 * radius` belongs to the disc: its offset
      from the point (radius, radius) has squared length at most `radius * radius`. */
  predicate InDisc(radius: int, x: int, y: int)
  {
    var dx := x - radius;
    var dy := y - radius;
    dx * dx + dy * dy <= radius * radius
  }

  /** Number of `Uint32` elements allocated for a texture of the given radius:
      `diameter * diameter * 4`. */
  function TextureSize(radius: nat): nat
  {
    (2 * radius) * (2 * radius) * 4
  }

  /** The row-major index of texel (x, y) in a texture of side `diameter`: it lies inside the
      `diameter * diameter` texels, hence inside the allocated buffer, and it gives back the
      texel's row and column. */
  function TexelIndex(x: nat, y: nat, diameter: nat): (index: nat)
    requires x < diameter && y < diameter
    ensures index < diameter * diameter <= diameter * diameter * 4
    ensures index / diameter == y && index % diameter == x
  {
    RowBound(x, y, diameter);
    y * diameter + x
  }

  lemma RowBound(x: nat, y: nat, diameter: nat)
    requires x < diameter && y < diameter
    ensures y * diameter + x < diameter * diameter
    ensures (y * diameter + x) / diameter == y && (y * diameter + x) % diameter == x
  {
    var n := y * diameter + x;
    assert (y + 1) * diameter == y * diameter + diameter;
    MulMonotone(y + 1, diameter, diameter);
    DivisionIsUnique(n, diameter, y, x);
  }

  lemma MulMonotone(a: nat, b: nat, c: nat)
    requires a <= b
    ensures a * c <= b * c
  {
  }

  /** The quotient and remainder of a division by a positive number are the only pair that
      rebuilds the dividend with a remainder in range. */
  lemma DivisionIsUnique(n: int, d: int, q: int, r: int)
    requires 0 < d && n == q * d + r && 0 <= r < d
    ensures n / d == q && n % d == r
  {
    var q', r' := n / d, n % d;
    assert n == q' * d + r';
    var k := q - q';
    assert k * d == q * d - q' * d;
    assert k * d == r' - r;
    if k > 0 {
      MulMonotone(1, k, d);
    }
  }

  /** The nested loops of texture creation: a texel is written, with the colour, exactly
      when it belongs to the disc; every other element of the buffer keeps what it held. */
  method PaintDisc(pixels: array<Pixel>, radius: nat, color: Pixel)
    requires pixels.Length == TextureSize(radius)
    modifies pixels
    ensures forall x, y | 0 <= x < 2 * radius && 0 <= y < 2 * radius ::
      pixels[TexelIndex(x, y, 2 * radius)] ==
        if InDisc(radius, x, y) then color else old(pixels[TexelIndex(x, y, 2 * radius)])
    ensures forall i | (2 * radius) * (2 * radius) <= i < pixels.Length :: pixels[i] == old(pixels[i])
  {
    var diameter := radius * 2;
    var y := 0;
    while y < diameter
      invariant 0 <= y <= diameter
      invariant forall x', y' | 0 <= x' < diameter && 0 <= y' < y ::
        pixels[TexelIndex(x', y', diameter)] ==
          if InDisc(radius, x', y') then color else old(pixels[TexelIndex(x', y', diameter)])
      invariant forall x', y' | 0 <= x' < diameter && y <= y' < diameter ::
        pixels[TexelIndex(x', y', diameter)] == old(pixels[TexelIndex(x', y', diameter)])
      invariant forall i | diameter * diameter <= i < pixels.Length :: pixels[i] == old(pixels[i])
    {
      var x := 0;
      while x < diameter
        invariant 0 <= x <= diameter
        invariant forall x', y' | 0 <= x' < diameter && 0 <= y' < diameter && (y' < y || (y' == y && x' < x)) ::
          pixels[TexelIndex(x', y', diameter)] ==
            if InDisc(radius, x', y') then color else old(pixels[TexelIndex(x', y', diameter)])
        invariant forall x', y' | 0 <= x' < diameter && 0 <= y' < diameter && (y' > y || (y' == y && x' >= x)) ::
          pixels[TexelIndex(x', y', diameter)] == old(pixels[TexelIndex(x', y', diameter)])
        invariant forall i | diameter * diameter <= i < pixels.Length :: pixels[i] == old(pixels[i])
      {
        var dx := x - radius;
        var dy := y - radius;
        var index := TexelIndex(x, y, diameter);
        if dx * dx + dy * dy <= radius * radius {
          pixels[index] := color;
        }
        x := x + 1;
      }
      y := y + 1;
    }
  }

  /** Texture creation as written: the buffer comes from `new Uint32[textureSize]`, which
      leaves its elements indeterminate; `indeterminate` stands for whatever they hold. The
      disc is painted and every texel outside it keeps that indeterminate value. */
  method CreateTexturePixels(radius: nat, color: Pixel, indeterminate: seq<Pixel>) returns (pixels: array<Pixel>)
    requires |indeterminate| == TextureSize(radius)
    ensures fresh(pixels) && pixels.Length == TextureSize(radius)
    ensures forall x, y | 0 <= x < 2 * radius && 0 <= y < 2 * radius ::
      pixels[TexelIndex(x, y, 2 * radius)] ==
        if InDisc(radius, x, y) then color else indeterminate[TexelIndex(x, y, 2 * radius)]
  {
    pixels := new Pixel[TextureSize(radius)](i requires 0 <= i < |indeterminate| => indeterminate[i]);
    PaintDisc(pixels, radius, color);
  }

  /** The corner texel (0, 0) of the radius-15 texture the program builds is first in the
      buffer and outside the disc, so it is never written: the surface handed to SDL shows
      whatever the allocation held there. */
  lemma CornerTexelIsNeverWritten()
    ensures TexelIndex(0, 0, 2 * 15) == 0 && !InDisc(15, 0, 0)
  {
  }

  /** Texture creation with the buffer cleared first (`new Uint32[textureSize]()`): the disc
      has the colour and every other element is 0, a fully transparent pixel. */
  method CreateClearedTexturePixels(radius: nat, color: Pixel) returns (pixels: array<Pixel>)
    ensures fresh(pixels) && pixels.Length == TextureSize(radius)
    ensures forall x, y | 0 <= x < 2 * radius && 0 <= y < 2 * radius ::
      pixels[TexelIndex(x, y, 2 * radius)] == if InDisc(radius, x, y) then color else 0
    ensures forall i | (2 * radius) * (2 * radius) <= i < pixels.Length :: pixels[i] == 0
  {
    pixels := new Pixel[TextureSize(radius)](_ => 0);
    PaintDisc(pixels, radius, color);
  }
}
