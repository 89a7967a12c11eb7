/**
 * The galaxy icon: its position and the movement direction derived from the
 * drag target. The rotation angle and the image are drawing state only.
 */
module Galaxy {
  import opened Easing

  /** The direction strings "left", "right" and "still". */
  datatype Direction = Left | Right | Still

  /** Width and height of the galaxy image. */
  const Size: real := 100.0

  /** How the icon stands relative to the target: right of it, left of it, or on it. */
  function DirectionOf(x: real, targetX: real): (d: Direction)
    ensures d == Left <==> x > targetX
    ensures d == Right <==> x < targetX
    ensures d == Still <==> x == targetX
  {
    if x > targetX then Left else if x < targetX then Right else Still
  }

  /**
   * One easing step never carries the icon past the target, so the derived
   * direction either keeps its value or becomes `Still`, and it becomes
   * `Still` exactly when the icon was within one step.
   */
  lemma DirectionAfterStep(x: real, targetX: real, stepSize: real)
    requires stepSize > 0.0
    ensures var d := DirectionOf(MoveArrowX(x, targetX, stepSize), targetX);
            (d == Still <==> Abs(targetX - x) <= stepSize) &&
            (d == Still || d == DirectionOf(x, targetX))
  {
  }

  /**
   * From the frame where easing reaches the target on, the derived direction
   * is `Still`, and not before.
   */
  lemma DirectionSettles(x: real, targetX: real, stepSize: real, n: nat)
    requires stepSize > 0.0
    ensures DirectionOf(Iterate(x, targetX, stepSize, n), targetX) == Still <==>
              n >= Ceil(Abs(targetX - x) / stepSize)
  {
    ReachesTargetExactly(x, targetX, stepSize, n);
  }

  class GalaxyImage {
    var x: real
    const y: real
    var direction: Direction

    constructor (x: real, y: real)
      ensures this.x == x && this.y == y && direction == Still
    {
      this.x := x;
      this.y := y;
      direction := Still;
    }

    /** The centre of the image, around which the rings are drawn. */
    function CenterX(): real
      reads this
    {
      x + Size / 2.0
    }

    function CenterY(): real {
      y + Size / 2.0
    }

    method UpdateDirection(targetX: real)
      modifies this`direction
      ensures direction == DirectionOf(x, targetX)
    {
      if x > targetX {
        direction := Left;
      } else if x < targetX {
        direction := Right;
      } else {
        direction := Still;
      }
    }
  }
}
