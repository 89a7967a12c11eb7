/**
 * The easing rule that moves the galaxy icon toward the drag target.
 *
 * `moveArrowX` takes one step of size `stepSize` in the direction of the
 * target and snaps onto the target once it is within one step, so the icon
 * never overshoots. The animation loop applies the same rule inline with a
 * speed of 0.25 per frame.
 */
module Easing {

  function Abs(v: real): real {
    if v < 0.0 then -v else v
  }

  /** `Math.sign` on a finite number. */
  function Sign(v: real): real {
    if v > 0.0 then 1.0 else if v < 0.0 then -1.0 else 0.0
  }

  /** One easing step from `currentX` toward `targetX`. */
  function MoveArrowX(currentX: real, targetX: real, stepSize: real): (r: real)
    // whatever the step size, the result is a step of that size or the target
    ensures r == targetX || Abs(r - currentX) == Abs(stepSize)
    // with a positive step size it never overshoots ...
    ensures stepSize > 0.0 ==>
      (currentX <= r <= targetX) || (targetX <= r <= currentX)
    // ... closes the distance by exactly one step, or snaps onto the target
    ensures stepSize > 0.0 ==>
      Abs(targetX - r) ==
        if Abs(targetX - currentX) > stepSize then Abs(targetX - currentX) - stepSize else 0.0
    // ... and the target is a fixed point
    ensures currentX == targetX ==> r == targetX
  {
    var dx := targetX - currentX;
    var step := Sign(dx) * stepSize;
    if Abs(dx) > Abs(step) then currentX + step else targetX
  }

  /** The position after `n` frames of easing toward a fixed target. */
  function Iterate(x: real, targetX: real, stepSize: real, n: nat): real
    decreases n
  {
    if n == 0 then x else Iterate(MoveArrowX(x, targetX, stepSize), targetX, stepSize, n - 1)
  }

  /** One more frame of easing is one more step from where `n` frames left the icon. */
  lemma {:induction false} IterateLast(x: real, targetX: real, stepSize: real, n: nat)
    ensures Iterate(x, targetX, stepSize, n + 1) ==
              MoveArrowX(Iterate(x, targetX, stepSize, n), targetX, stepSize)
    decreases n
  {
    if n > 0 {
      IterateLast(MoveArrowX(x, targetX, stepSize), targetX, stepSize, n - 1);
    }
  }

  /** The least integer not below `v`. */
  function Ceil(v: real): (c: int)
    ensures v <= c as real < v + 1.0
  {
    if v.Floor as real == v then v.Floor else v.Floor + 1
  }

  /** The distance `n` steps of `stepSize` cover. */
  function Travelled(stepSize: real, n: nat): real {
    if n == 0 then 0.0 else Travelled(stepSize, n - 1) + stepSize
  }

  /**
   * After `n` frames the remaining distance is the initial distance less
   * `n` steps, and zero once `n` steps cover it.
   */
  lemma {:induction false} IterateDistance(x: real, targetX: real, stepSize: real, n: nat)
    requires stepSize > 0.0
    ensures var d := Abs(targetX - x);
            Abs(targetX - Iterate(x, targetX, stepSize, n)) ==
              if d <= Travelled(stepSize, n) then 0.0 else d - Travelled(stepSize, n)
    decreases n
  {
    if n > 0 {
      IterateDistance(MoveArrowX(x, targetX, stepSize), targetX, stepSize, n - 1);
      TravelledIsProduct(stepSize, n - 1);
    }
  }

  /** Easing for any number of frames stays between the start and the target. */
  lemma {:induction false} IterateBetween(x: real, targetX: real, stepSize: real, n: nat)
    requires stepSize > 0.0
    ensures var y := Iterate(x, targetX, stepSize, n);
            (x <= y <= targetX) || (targetX <= y <= x)
    decreases n
  {
    if n > 0 {
      IterateBetween(MoveArrowX(x, targetX, stepSize), targetX, stepSize, n - 1);
    }
  }

  /** `n` steps of `stepSize` cover `n * stepSize`. */
  lemma {:induction false} TravelledIsProduct(stepSize: real, n: nat)
    requires stepSize > 0.0
    ensures Travelled(stepSize, n) == n as real * stepSize >= 0.0
    decreases n
  {
    if n > 0 {
      TravelledIsProduct(stepSize, n - 1);
    }
  }

  /** `n` frames cover the distance `d` exactly when `n` is at least `ceil(d / stepSize)`. */
  lemma CeilCovers(d: real, stepSize: real, n: nat)
    requires d >= 0.0 && stepSize > 0.0
    ensures d <= n as real * stepSize <==> n >= Ceil(d / stepSize)
  {
    var q := d / stepSize;
    assert q * stepSize == d;
    if n >= Ceil(q) {
      assert n as real >= q;
      assert n as real * stepSize >= q * stepSize;
    } else {
      assert n as real < q;
      assert n as real * stepSize < q * stepSize;
    }
  }

  /**
   * Convergence: with a positive step size the easing reaches the target
   * exactly after `ceil(|targetX - x| / stepSize)` frames, not before, and
   * stays there afterwards.
   */
  lemma ReachesTargetExactly(x: real, targetX: real, stepSize: real, n: nat)
    requires stepSize > 0.0
    ensures Iterate(x, targetX, stepSize, n) == targetX <==>
              n >= Ceil(Abs(targetX - x) / stepSize)
  {
    IterateDistance(x, targetX, stepSize, n);
    TravelledIsProduct(stepSize, n);
    CeilCovers(Abs(targetX - x), stepSize, n);
  }
}
