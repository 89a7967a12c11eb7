/**
 * The game state and one animation frame: the drag state machine that sets
 * the target, the easing of the galaxy icon toward it, the wave lists with
 * their spawn rule, and the ring field. Drawing is not modelled; the
 * canvas size is fixed when the game starts.
 */
module Scene {
  import opened Easing
  import opened Galaxy
  import opened Rings
  import opened Waves

  datatype Option<T> = None | Some(value: T)

  /** A cursor position in canvas coordinates. */
  datatype Point = Point(x: real, y: real)

  /** Distance the galaxy icon eases per frame. */
  const Speed: real := 0.25

  class Game {
    const width: real
    const height: real
    const galaxyImage: GalaxyImage
    const galaxyCircles: GalaxyCircles
    var waves: seq<Wave>
    var wavesRight: seq<Wave>
    var latestWave: Wave
    var latestWaveRight: Wave
    var isDragging: bool
    var targetX: Option<real>
    // undefined until the first mousedown
    var cursorPosition: Option<Point>

    /**
     * The ring field is anchored to this game's galaxy; each wave list is
     * non-empty, free of repeats, holds waves of its own side only, and its
     * latest wave is its last one.
     */
    ghost predicate Valid()
      reads this
    {
      galaxyCircles.galaxyImage == galaxyImage &&
      |waves| > 0 && |wavesRight| > 0 &&
      latestWave == waves[|waves| - 1] &&
      latestWaveRight == wavesRight[|wavesRight| - 1] &&
      (forall i :: 0 <= i < |waves| ==> waves[i].direction == Left) &&
      (forall i :: 0 <= i < |wavesRight| ==> wavesRight[i].direction == Right) &&
      Distinct(waves) && Distinct(wavesRight)
    }

    /** The vertical position every wave is spawned at. */
    function WaveY(): real {
      height / 2.0 - 25.0
    }

    /** Start-up: the galaxy centred, one wave per side, one ring, no target. */
    constructor (width: real, height: real)
      ensures Valid()
      ensures this.width == width && this.height == height
      ensures fresh(galaxyImage) && fresh(galaxyCircles)
      ensures galaxyImage.x == width / 2.0 - 50.0 && galaxyImage.y == height / 2.0 - 75.0
      ensures galaxyImage.direction == Still
      ensures galaxyCircles.circles == [1]
      ensures |waves| == 1 && fresh(waves[0]) && waves[0].x == width / 2.0 - 50.0
      ensures waves[0].y == WaveY() && waves[0].wavelength == WaveWidth && waves[0].amplitude == Amplitude
      ensures |wavesRight| == 1 && fresh(wavesRight[0]) && wavesRight[0].x == width / 2.0
      ensures wavesRight[0].y == WaveY() && wavesRight[0].wavelength == WaveWidth
      ensures wavesRight[0].amplitude == Amplitude
      ensures !isDragging && targetX == None && cursorPosition == None
    {
      this.width := width;
      this.height := height;
      var galaxy := new GalaxyImage(width / 2.0 - 50.0, height / 2.0 - 75.0);
      var circles := new GalaxyCircles(galaxy);
      galaxyImage := galaxy;
      galaxyCircles := circles;
      var left := new Wave(width / 2.0 - 50.0, height / 2.0 - 25.0, Left, WaveWidth, Amplitude);
      var right := new Wave(width / 2.0, height / 2.0 - 25.0, Right, WaveWidth, Amplitude);
      waves, latestWave := [left], left;
      wavesRight, latestWaveRight := [right], right;
      isDragging := false;
      targetX := None;
      cursorPosition := None;
      new;
      circles.AddCircle();
    }

    method MouseDown(x: real, y: real)
      requires Valid()
      modifies this`isDragging, this`cursorPosition
      ensures Valid()
      ensures isDragging && cursorPosition == Some(Point(x, y))
    {
      isDragging := true;
      cursorPosition := Some(Point(x, y));
    }

    /** The cursor is tracked only while a drag is in progress. */
    method MouseMove(x: real, y: real)
      requires Valid()
      modifies this`cursorPosition
      ensures Valid()
      ensures cursorPosition == if isDragging then Some(Point(x, y)) else old(cursorPosition)
    {
      if isDragging {
        cursorPosition := Some(Point(x, y));
      }
    }

    /**
     * Ends the drag and latches the target at the last recorded cursor x.
     * Before any mousedown there is no cursor position: the handler stops
     * after clearing the drag flag and the target stays as it was.
     */
    method MouseUp()
      requires Valid()
      modifies this`isDragging, this`targetX
      ensures Valid()
      ensures !isDragging
      ensures targetX == if cursorPosition.Some? then Some(cursorPosition.value.x) else old(targetX)
    {
      isDragging := false;
      if cursorPosition.Some? {
        targetX := Some(cursorPosition.value.x);
      }
    }

    /**
     * One animation frame: ease the galaxy and derive its direction, move
     * every wave, grow and filter the rings, then spawn at most one wave per
     * side. The drag state and the target are left alone.
     */
    method Tick()
      requires Valid()
      modifies this`waves, this`wavesRight, this`latestWave, this`latestWaveRight
      modifies galaxyImage, galaxyCircles`circles, waves, wavesRight
      ensures Valid()
      // easing and direction, only while a target is set
      ensures old(targetX).None? ==>
                galaxyImage.x == old(galaxyImage.x) && galaxyImage.direction == old(galaxyImage.direction)
      ensures old(targetX).Some? ==>
                galaxyImage.x == MoveArrowX(old(galaxyImage.x), targetX.value, Speed) &&
                galaxyImage.direction == DirectionOf(galaxyImage.x, targetX.value)
      // existing waves stay in place in their lists and each moves one step
      ensures |waves| >= old(|waves|) && waves[..old(|waves|)] == old(waves)
      ensures |wavesRight| >= old(|wavesRight|) && wavesRight[..old(|wavesRight|)] == old(wavesRight)
      ensures forall i :: 0 <= i < old(|waves|) ==> waves[i].x == old(waves[i].x) - WaveSpeed
      ensures forall i :: 0 <= i < old(|wavesRight|) ==> wavesRight[i].x == old(wavesRight[i].x) + WaveSpeed
      // rings grow around the eased galaxy centre
      ensures galaxyCircles.circles ==
                Survivors(old(galaxyCircles.circles), galaxyImage.CenterX(), galaxyImage.CenterY(), width, height)
      // left spawn: one new wave exactly when the moved latest wave is a wavelength left of the galaxy
      ensures |waves| == old(|waves|) +
                if old(latestWave).x <= galaxyImage.x - old(latestWave).wavelength then 1 else 0
      ensures |waves| > old(|waves|) ==>
                fresh(latestWave) && latestWave.x == galaxyImage.x && latestWave.y == WaveY() &&
                latestWave.wavelength == SpawnWavelength(galaxyImage.direction, Left) &&
                latestWave.amplitude == Amplitude
      // right spawn: symmetric, a wavelength right of the galaxy
      ensures |wavesRight| == old(|wavesRight|) +
                if old(latestWaveRight).x >= galaxyImage.x + old(latestWaveRight).wavelength then 1 else 0
      ensures |wavesRight| > old(|wavesRight|) ==>
                fresh(latestWaveRight) && latestWaveRight.x == galaxyImage.x && latestWaveRight.y == WaveY() &&
                latestWaveRight.wavelength == SpawnWavelength(galaxyImage.direction, Right) &&
                latestWaveRight.amplitude == Amplitude
    {
      Ease();
      MoveWaves();
      galaxyCircles.UpdateAndDraw(width, height);
      SpawnLeft();
      SpawnRight();
    }

    /**
     * `n` consecutive frames with a target set: the galaxy follows the
     * easing iteration, so it stands on the target exactly from frame
     * `ceil(|target - start| / Speed)` on, and the derived direction is
     * `still` from then on.
     */
    method RunFrames(n: nat)
      requires Valid() && targetX.Some?
      modifies this`waves, this`wavesRight, this`latestWave, this`latestWaveRight
      modifies galaxyImage, galaxyCircles`circles, waves, wavesRight
      ensures Valid()
      ensures galaxyImage.x == Iterate(old(galaxyImage.x), targetX.value, Speed, n)
      ensures galaxyImage.x == targetX.value <==>
                n >= Ceil(Abs(targetX.value - old(galaxyImage.x)) / Speed)
      ensures n > 0 ==>
                (galaxyImage.direction == Still <==>
                 n >= Ceil(Abs(targetX.value - old(galaxyImage.x)) / Speed))
    {
      var target := targetX.value;
      var i := 0;
      while i < n
        invariant 0 <= i <= n
        invariant Valid() && targetX == Some(target)
        invariant galaxyImage.x == Iterate(old(galaxyImage.x), target, Speed, i)
        invariant i > 0 ==> galaxyImage.direction == DirectionOf(galaxyImage.x, target)
        invariant forall k :: 0 <= k < |waves| ==> waves[k] in old(waves) || fresh(waves[k])
        invariant forall k :: 0 <= k < |wavesRight| ==> wavesRight[k] in old(wavesRight) || fresh(wavesRight[k])
      {
        IterateLast(old(galaxyImage.x), target, Speed, i);
        Tick();
        i := i + 1;
      }
      ReachesTargetExactly(old(galaxyImage.x), target, Speed, n);
    }

    /** Eases the galaxy toward the target, if one is set, and derives its direction. */
    method Ease()
      modifies galaxyImage
      ensures targetX.None? ==>
                galaxyImage.x == old(galaxyImage.x) && galaxyImage.direction == old(galaxyImage.direction)
      ensures targetX.Some? ==>
                galaxyImage.x == MoveArrowX(old(galaxyImage.x), targetX.value, Speed) &&
                galaxyImage.direction == DirectionOf(galaxyImage.x, targetX.value)
    {
      if targetX.Some? {
        var target := targetX.value;
        galaxyImage.x := MoveArrowX(galaxyImage.x, target, Speed);
        galaxyImage.UpdateDirection(target);
      }
    }

    /** Moves every wave of both lists one step in its own direction. */
    method MoveWaves()
      requires Valid()
      modifies waves, wavesRight
      ensures forall i :: 0 <= i < |waves| ==> waves[i].x == old(waves[i].x) - WaveSpeed
      ensures forall i :: 0 <= i < |wavesRight| ==> wavesRight[i].x == old(wavesRight[i].x) + WaveSpeed
    {
      MoveAll(waves);
      MoveAll(wavesRight);
    }

    /** Appends a left wave at the galaxy once the latest one is a wavelength away. */
    method SpawnLeft()
      requires Valid()
      modifies this`waves, this`latestWave
      ensures Valid()
      ensures |waves| >= old(|waves|) && waves[..old(|waves|)] == old(waves)
      ensures |waves| == old(|waves|) +
                if old(latestWave.x) <= galaxyImage.x - old(latestWave).wavelength then 1 else 0
      ensures |waves| > old(|waves|) ==>
                fresh(latestWave) && latestWave.x == galaxyImage.x && latestWave.y == WaveY() &&
                latestWave.wavelength == SpawnWavelength(galaxyImage.direction, Left) &&
                latestWave.amplitude == Amplitude
    {
      if latestWave.x <= galaxyImage.x - latestWave.wavelength {
        var wave := new Wave(galaxyImage.x, WaveY(), Left, SpawnWavelength(galaxyImage.direction, Left), Amplitude);
        waves := waves + [wave];
        latestWave := waves[|waves| - 1];
      }
    }

    /** Appends a right wave at the galaxy once the latest one is a wavelength away. */
    method SpawnRight()
      requires Valid()
      modifies this`wavesRight, this`latestWaveRight
      ensures Valid()
      ensures |wavesRight| >= old(|wavesRight|) && wavesRight[..old(|wavesRight|)] == old(wavesRight)
      ensures |wavesRight| == old(|wavesRight|) +
                if old(latestWaveRight.x) >= galaxyImage.x + old(latestWaveRight).wavelength then 1 else 0
      ensures |wavesRight| > old(|wavesRight|) ==>
                fresh(latestWaveRight) && latestWaveRight.x == galaxyImage.x && latestWaveRight.y == WaveY() &&
                latestWaveRight.wavelength == SpawnWavelength(galaxyImage.direction, Right) &&
                latestWaveRight.amplitude == Amplitude
    {
      if latestWaveRight.x >= galaxyImage.x + latestWaveRight.wavelength {
        var wave := new Wave(galaxyImage.x, WaveY(), Right, SpawnWavelength(galaxyImage.direction, Right), Amplitude);
        wavesRight := wavesRight + [wave];
        latestWaveRight := wavesRight[|wavesRight| - 1];
      }
    }
  }
}
