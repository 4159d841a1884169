/** The target: a disc that slides along the x axis and bounces off the canvas edges. */
module Targets {
  import opened Basics

  const Radius: real := 25.0
  /** Sliding speed in pixels per second. */
  const Speed: real := 30.0

  predicate IsDirection(d: int) {
    d == 1 || d == -1
  }

  /** `position.x` after the advance that opens `update`, before any edge test. */
  function Slide(x: real, direction: int, deltaTime: real): real {
    x + Speed * direction as real * deltaTime / 1000.0
  }

  /** Touching or passing the right edge. */
  predicate AtRight(x: real, canvasWidth: real) {
    x + Radius >= canvasWidth
  }

  /** Touching or passing the left edge. */
  predicate AtLeft(x: real) {
    x - Radius <= 0.0
  }

  /**
   * One `update` on values: the new x and the new direction. The right edge is tested
   * first, so a canvas narrower than the disc always sends it left.
   */
  function Bounce(x: real, direction: int, deltaTime: real, canvasWidth: real): (r: (real, int))
    // on a canvas wide enough for the disc, the disc ends inside it
    ensures canvasWidth >= 2.0 * Radius ==> Radius <= r.0 <= canvasWidth - Radius
    ensures IsDirection(direction) ==> IsDirection(r.1)
    // the right edge wins and turns the disc left
    ensures AtRight(Slide(x, direction, deltaTime), canvasWidth) ==> r == (canvasWidth - Radius, -1)
    // the left edge turns it right
    ensures !AtRight(Slide(x, direction, deltaTime), canvasWidth) && AtLeft(Slide(x, direction, deltaTime)) ==>
              r == (Radius, 1)
    // the heading changes only at an edge
    ensures r.1 == direction || r.0 == Radius || r.0 == canvasWidth - Radius
    // away from both edges the disc keeps its heading and moves by exactly one slide
    ensures !AtRight(Slide(x, direction, deltaTime), canvasWidth) && !AtLeft(Slide(x, direction, deltaTime)) ==>
              r.1 == direction && r.0 - x == Speed * direction as real * deltaTime / 1000.0
  {
    var moved := Slide(x, direction, deltaTime);
    if AtRight(moved, canvasWidth) then (canvasWidth - Radius, -1)
    else if AtLeft(moved) then (Radius, 1)
    else (moved, direction)
  }

  class Target {
    var position: Vec2
    var direction: int
    var canvasWidth: real

    ghost predicate Valid()
      reads this
    {
      IsDirection(direction)
    }

    constructor (x: real, y: real, canvasWidth: real)
      ensures Valid()
      ensures position == Vec2(x, y) && direction == 1 && this.canvasWidth == canvasWidth
    {
      position := Vec2(x, y);
      direction := 1;
      this.canvasWidth := canvasWidth;
    }

    method Update(deltaTime: real)
      requires Valid()
      modifies this
      ensures Valid()
      ensures (position.x, direction) == Bounce(old(position.x), old(direction), deltaTime, canvasWidth)
      ensures position.y == old(position.y) && canvasWidth == old(canvasWidth)
    {
      position := position.(x := position.x + Speed * direction as real * deltaTime / 1000.0);
      if position.x + Radius >= canvasWidth {
        direction := -1;
        position := position.(x := canvasWidth - Radius);
      } else if position.x - Radius <= 0.0 {
        direction := 1;
        position := position.(x := Radius);
      }
    }

    method SetBounds(newCanvasWidth: real)
      requires Valid()
      modifies this
      ensures Valid()
      ensures canvasWidth == newCanvasWidth
      ensures position == old(position) && direction == old(direction)
    {
      canvasWidth := newCanvasWidth;
    }
  }
}
