/** Arithmetic shared by the ball programs: the wall test that collisionEngine/base.cpp and
    Optimized_render_sdl/main.cpp apply on each axis, and the absolute value that
    collisionEngine/main.cpp calls and that the contracts of all three use. Floats are
    modelled as exact reals. */
module Walls {

  /** Absolute value of a real, as `std::abs` on a float. */
  function Abs(r: real): (a: real)
    ensures a >= 0.0
    ensures a == r || a == -r
  {
    if r < 0.0 then -r else r
  }

  /** The wall test of one axis: a ball with centre coordinate `c` and radius `radius`
      sticks out of the span [0, extent], past its low or its high edge. */
  predicate Escapes(c: real, radius: int, extent: int)
  {
    c - radius as real < 0.0 || c + radius as real > extent as real
  }
}
