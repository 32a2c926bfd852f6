/** The two macroquad value types the actors are built from, over `real`. */
module Geometry {

  /** macroquad's `Vec2`: a point or displacement in screen space. */
  datatype Vec2 = Vec2(x: real, y: real)

  const Zero: Vec2 := Vec2(0.0, 0.0)

  /** `a + b` on `Vec2`, component by component. */
  function Add(a: Vec2, b: Vec2): Vec2
  {
    Vec2(a.x + b.x, a.y + b.y)
  }

  /** `v * k`: a vector scaled by a scalar. */
  function Scale(v: Vec2, k: real): Vec2
  {
    Vec2(v.x * k, v.y * k)
  }

  /** macroquad's `Rect`: top-left corner `(x, y)` and size `(w, h)`. */
  datatype Rect = Rect(x: real, y: real, w: real, h: real)
  {
    /** `Rect::move_to`: puts the corner at `p` and keeps the size. */
    function MoveTo(p: Vec2): Rect
    {
      this.(x := p.x, y := p.y)
    }
  }

  /** `r` sits at `p` and has the size of `was`. */
  predicate Tracks(r: Rect, was: Rect, p: Vec2)
  {
    r.x == p.x && r.y == p.y && r.w == was.w && r.h == was.h
  }
}
