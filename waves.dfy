/**
 * The sine-wave ribbons. A wave only ever changes its x position, by a fixed
 * 0.75 per frame in its own direction; its origin y, wavelength, amplitude
 * and direction are set once, so they are constant fields here.
 */
module Waves {
  import opened Galaxy

  /** Horizontal distance a wave travels per frame. */
  const WaveSpeed: real := 0.75

  /** Wavelength of a wave spawned while the galaxy does not move toward its side. */
  const WaveWidth: real := 75.0

  /** Amplitude every wave is drawn with. */
  const Amplitude: real := 15.0

  /** The signed per-frame displacement: rightward for "right", leftward for anything else. */
  function Velocity(direction: Direction): (v: real)
    ensures v == WaveSpeed <==> direction == Right
    ensures v == -WaveSpeed <==> direction != Right
  {
    if direction == Right then WaveSpeed else -WaveSpeed
  }

  /**
   * The wavelength of a wave spawned on `side`: half the usual width
   * exactly when the galaxy is moving toward that side.
   */
  function SpawnWavelength(galaxyDirection: Direction, side: Direction): (w: real)
    ensures w == WaveWidth / 2.0 <==> galaxyDirection == side
    ensures w == WaveWidth <==> galaxyDirection != side
  {
    if galaxyDirection == side then WaveWidth / 2.0 else WaveWidth
  }

  class Wave {
    var x: real
    const y: real
    const direction: Direction
    const wavelength: real
    const amplitude: real

    constructor (x: real, y: real, direction: Direction, wavelength: real, amplitude: real)
      ensures this.x == x && this.y == y && this.direction == direction
      ensures this.wavelength == wavelength && this.amplitude == amplitude
    {
      this.x := x;
      this.y := y;
      this.direction := direction;
      this.wavelength := wavelength;
      this.amplitude := amplitude;
    }

    method Move()
      modifies this`x
      ensures x == old(x) + Velocity(direction)
    {
      if direction == Right {
        x := x + WaveSpeed;
      } else {
        x := x - WaveSpeed;
      }
    }
  }

  /** No wave occurs twice in the list. */
  ghost predicate Distinct(ws: seq<Wave>) {
    forall i, j :: 0 <= i < j < |ws| ==> ws[i] != ws[j]
  }

  /** One frame's `for (const wave of ws) wave.move()`: every wave moves once. */
  method MoveAll(ws: seq<Wave>)
    requires Distinct(ws)
    modifies ws
    ensures forall i :: 0 <= i < |ws| ==> ws[i].x == old(ws[i].x) + Velocity(ws[i].direction)
  {
    var i := 0;
    while i < |ws|
      invariant 0 <= i <= |ws|
      invariant forall j :: 0 <= j < i ==> ws[j].x == old(ws[j].x) + Velocity(ws[j].direction)
      invariant forall j :: i <= j < |ws| ==> ws[j].x == old(ws[j].x)
    {
      ws[i].Move();
      i := i + 1;
    }
  }
}
