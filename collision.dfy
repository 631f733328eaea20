/** The collision test of `checkCollision`: the bird against each pipe's two
    segments, and against the top and bottom of the field. */
module Collision {
  import opened World

  /** The test run for one pipe: the bird overlaps the pipe horizontally and
      is either higher than the bottom of the upper segment or reaches below
      the top of the lower segment. */
  predicate HitsPipe(b: Bird, p: Pipe)
  {
    && b.x < p.x + p.width
    && b.x + b.width > p.x
    && (b.y < p.top || b.y + b.height > GameHeight - p.bottom)
  }

  /** The bird reaches below the floor or above the ceiling. */
  predicate OutOfBounds(b: Bird)
  {
    b.y + b.height > GameHeight || b.y < 0.0
  }

  /** `checkCollision` ends the run exactly when this holds. */
  predicate Collides(b: Bird, pipes: seq<Pipe>)
  {
    (exists i :: 0 <= i < |pipes| && HitsPipe(b, pipes[i])) || OutOfBounds(b)
  }

  // ----- an independent geometric reading of the same test -----

  /** An axis-aligned rectangle: left edge, top edge, width and height. */
  datatype Rect = Rect(left: real, top: real, width: real, height: real)

  /** The two rectangles share interior points. */
  predicate Overlap(a: Rect, c: Rect)
  {
    && a.left < c.left + c.width && c.left < a.left + a.width
    && a.top < c.top + c.height && c.top < a.top + a.height
  }

  function BirdBox(b: Bird): Rect
  {
    Rect(b.x, b.y, b.width, b.height)
  }

  /** The upper segment, as the pipe is drawn: from the ceiling down to `top`. */
  function UpperSegment(p: Pipe): Rect
  {
    Rect(p.x, 0.0, p.width, p.top)
  }

  /** The lower segment, as the pipe is drawn: `bottom` high, standing on the floor. */
  function LowerSegment(p: Pipe): Rect
  {
    Rect(p.x, GameHeight - p.bottom, p.width, p.bottom)
  }

  /** For a bird of positive height, the test in the source is exactly: the bird
      has left the field, or its box overlaps one of the drawn segments of
      some pipe. (Inside the field the two vertical tests of `HitsPipe` are the
      overlap tests with each segment; outside it both readings collide.) */
  lemma CollidesIffOverlap(b: Bird, pipes: seq<Pipe>)
    requires b.height > 0.0
    ensures Collides(b, pipes) <==>
            || OutOfBounds(b)
            || exists i :: 0 <= i < |pipes| &&
                 (Overlap(BirdBox(b), UpperSegment(pipes[i])) || Overlap(BirdBox(b), LowerSegment(pipes[i])))
  {
    if !OutOfBounds(b) {
      forall i | 0 <= i < |pipes|
        ensures HitsPipe(b, pipes[i]) <==>
                Overlap(BirdBox(b), UpperSegment(pipes[i])) || Overlap(BirdBox(b), LowerSegment(pipes[i]))
      {
      }
    }
  }
}
