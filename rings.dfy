/**
 * The ring field around the galaxy icon. A timer appends rings of radius 1;
 * every frame each ring grows by one and the rings lying wholly beyond one
 * edge of the canvas are dropped. Rings are plain records held only by the
 * field's list, so a ring is modelled by its radius.
 */
module Rings {
  import opened Galaxy

  /** A circle of `radius` around `(cx, cy)` lies wholly beyond one canvas edge. */
  predicate OffScreen(cx: real, cy: real, radius: nat, width: real, height: real) {
    cx + radius as real < 0.0 || cx - radius as real > width ||
    cy + radius as real < 0.0 || cy - radius as real > height
  }

  /** The rings kept by one frame: each grown by one, the off-screen ones dropped, in order. */
  function Survivors(radii: seq<nat>, cx: real, cy: real, width: real, height: real): (kept: seq<nat>)
    ensures |kept| <= |radii|
    ensures forall q :: q in kept ==> q >= 1 && !OffScreen(cx, cy, q, width, height)
  {
    if radii == [] then []
    else
      var grown := radii[0] + 1;
      (if OffScreen(cx, cy, grown, width, height) then [] else [grown]) +
      Survivors(radii[1..], cx, cy, width, height)
  }

  /** Filtering is done ring by ring: the survivors of a concatenation are the concatenated survivors. */
  lemma {:induction false} SurvivorsAppend(a: seq<nat>, b: seq<nat>, cx: real, cy: real, width: real, height: real)
    ensures Survivors(a + b, cx, cy, width, height) ==
              Survivors(a, cx, cy, width, height) + Survivors(b, cx, cy, width, height)
    decreases |a|
  {
    if a == [] {
      assert a + b == b;
    } else {
      assert (a + b)[1..] == a[1..] + b;
      SurvivorsAppend(a[1..], b, cx, cy, width, height);
    }
  }

  /** A ring survives exactly when, grown by one, it is not off-screen. */
  lemma {:induction false} SurvivorsKeep(radii: seq<nat>, cx: real, cy: real, width: real, height: real)
    ensures forall i :: 0 <= i < |radii| ==>
              (radii[i] + 1 in Survivors(radii, cx, cy, width, height) <==>
               !OffScreen(cx, cy, radii[i] + 1, width, height))
    decreases |radii|
  {
    if radii != [] {
      SurvivorsKeep(radii[1..], cx, cy, width, height);
      forall i | 0 < i < |radii|
        ensures radii[i] + 1 in Survivors(radii, cx, cy, width, height) <==>
                !OffScreen(cx, cy, radii[i] + 1, width, height)
      {
        assert radii[i] == radii[1..][i - 1];
      }
    }
  }

  /** Every survivor is some old ring grown by one. */
  lemma {:induction false} SurvivorsGrown(radii: seq<nat>, cx: real, cy: real, width: real, height: real)
    ensures forall q :: q in Survivors(radii, cx, cy, width, height) ==>
              exists i :: 0 <= i < |radii| && q == radii[i] + 1
    decreases |radii|
  {
    if radii != [] {
      SurvivorsGrown(radii[1..], cx, cy, width, height);
      forall q | q in Survivors(radii, cx, cy, width, height)
        ensures exists i :: 0 <= i < |radii| && q == radii[i] + 1
      {
        if q != radii[0] + 1 {
          var j :| 0 <= j < |radii[1..]| && q == radii[1..][j] + 1;
          assert q == radii[j + 1] + 1;
        }
      }
    }
  }

  /**
   * `idx` lists, in increasing order, the positions of the old rings that
   * survive: the k-th survivor is the ring at `idx[k]` grown by one, and a
   * position is listed exactly when its grown ring is not off-screen.
   */
  ghost predicate SurvivorPositions(idx: seq<nat>, radii: seq<nat>, kept: seq<nat>,
                                    cx: real, cy: real, width: real, height: real)
  {
    PositionsInOrder(idx, radii, kept) && PositionsListed(idx, radii, cx, cy, width, height)
  }

  /** The k-th kept ring is the ring at `idx[k]` grown by one, and `idx` increases. */
  ghost predicate PositionsInOrder(idx: seq<nat>, radii: seq<nat>, kept: seq<nat>) {
    |idx| == |kept| &&
    (forall k :: 0 <= k < |idx| ==> idx[k] < |radii| && kept[k] == radii[idx[k]] + 1) &&
    (forall k :: 0 < k < |idx| ==> idx[k - 1] < idx[k])
  }

  /** A position is listed exactly when its grown ring is not off-screen. */
  ghost predicate PositionsListed(idx: seq<nat>, radii: seq<nat>, cx: real, cy: real, width: real, height: real) {
    forall i :: 0 <= i < |radii| ==> (i in idx <==> !OffScreen(cx, cy, radii[i] + 1, width, height))
  }

  /** Positions in `radii[1..]` moved up by one, to positions in `radii`. */
  function Shift(idx: seq<nat>): (shifted: seq<nat>)
    ensures |shifted| == |idx|
    ensures forall k :: 0 <= k < |idx| ==> shifted[k] == idx[k] + 1
  {
    seq(|idx|, k requires 0 <= k < |idx| => idx[k] + 1)
  }

  lemma ShiftMembers(idx: seq<nat>)
    ensures 0 !in Shift(idx)
    ensures forall i :: i > 0 ==> (i in Shift(idx) <==> i - 1 in idx)
  {
    forall i | i > 0
      ensures i in Shift(idx) <==> i - 1 in idx
    {
      if i - 1 in idx {
        var k :| 0 <= k < |idx| && idx[k] == i - 1;
        assert Shift(idx)[k] == i;
      }
    }
  }

  /** The first ring is dropped: the survivors' positions are those of the rest, moved up by one. */
  lemma PositionsDropHead(idx: seq<nat>, radii: seq<nat>, kept: seq<nat>,
                          cx: real, cy: real, width: real, height: real)
    requires |radii| > 0 && OffScreen(cx, cy, radii[0] + 1, width, height)
    requires SurvivorPositions(idx, radii[1..], kept, cx, cy, width, height)
    ensures SurvivorPositions(Shift(idx), radii, kept, cx, cy, width, height)
  {
    ShiftMembers(idx);
    assert forall i :: 0 < i < |radii| ==> radii[i] == radii[1..][i - 1];
  }

  /** The first ring survives: position 0 comes first, then those of the rest, moved up by one. */
  lemma PositionsKeepHead(idx: seq<nat>, radii: seq<nat>, kept: seq<nat>,
                          cx: real, cy: real, width: real, height: real)
    requires |radii| > 0 && !OffScreen(cx, cy, radii[0] + 1, width, height)
    requires SurvivorPositions(idx, radii[1..], kept, cx, cy, width, height)
    ensures SurvivorPositions([0] + Shift(idx), radii, [radii[0] + 1] + kept, cx, cy, width, height)
  {
    InOrderKeepHead(idx, radii, kept);
    ListedKeepHead(idx, radii, cx, cy, width, height);
  }

  lemma InOrderKeepHead(idx: seq<nat>, radii: seq<nat>, kept: seq<nat>)
    requires |radii| > 0 && PositionsInOrder(idx, radii[1..], kept)
    ensures PositionsInOrder([0] + Shift(idx), radii, [radii[0] + 1] + kept)
  {
    var idx', kept' := [0] + Shift(idx), [radii[0] + 1] + kept;
    forall k | 0 < k < |idx'|
      ensures idx'[k] < |radii| && kept'[k] == radii[idx'[k]] + 1 && idx'[k - 1] < idx'[k]
    {
      assert idx'[k] == idx[k - 1] + 1 && kept'[k] == kept[k - 1];
      assert radii[idx'[k]] == radii[1..][idx[k - 1]];
      if k > 1 {
        assert idx'[k - 1] == idx[k - 2] + 1;
      }
    }
  }

  lemma ListedKeepHead(idx: seq<nat>, radii: seq<nat>, cx: real, cy: real, width: real, height: real)
    requires |radii| > 0 && !OffScreen(cx, cy, radii[0] + 1, width, height)
    requires PositionsListed(idx, radii[1..], cx, cy, width, height)
    ensures PositionsListed([0] + Shift(idx), radii, cx, cy, width, height)
  {
    ShiftMembers(idx);
    forall i | 0 < i < |radii|
      ensures i in [0] + Shift(idx) <==> !OffScreen(cx, cy, radii[i] + 1, width, height)
    {
      assert i in [0] + Shift(idx) <==> i in Shift(idx);
      assert radii[i] == radii[1..][i - 1];
    }
  }

  /** The survivors are exactly the grown non-off-screen rings, each once, at their old relative positions. */
  lemma {:induction false} SurvivorsPositions(radii: seq<nat>, cx: real, cy: real, width: real, height: real)
    ensures exists idx :: SurvivorPositions(idx, radii, Survivors(radii, cx, cy, width, height), cx, cy, width, height)
    decreases |radii|
  {
    var kept := Survivors(radii, cx, cy, width, height);
    if radii == [] {
      assert SurvivorPositions([], radii, kept, cx, cy, width, height);
    } else {
      var keptRest := Survivors(radii[1..], cx, cy, width, height);
      SurvivorsPositions(radii[1..], cx, cy, width, height);
      var idx :| SurvivorPositions(idx, radii[1..], keptRest, cx, cy, width, height);
      if OffScreen(cx, cy, radii[0] + 1, width, height) {
        PositionsDropHead(idx, radii, keptRest, cx, cy, width, height);
        assert SurvivorPositions(Shift(idx), radii, kept, cx, cy, width, height);
      } else {
        PositionsKeepHead(idx, radii, keptRest, cx, cy, width, height);
        assert SurvivorPositions([0] + Shift(idx), radii, kept, cx, cy, width, height);
      }
    }
  }

  /**
   * While the ring centre is on the canvas no ring is ever wholly beyond an
   * edge, so the frame drops nothing and grows every ring by one in place.
   */
  lemma {:induction false} SurvivorsInsideCanvas(radii: seq<nat>, cx: real, cy: real, width: real, height: real)
    requires 0.0 <= cx <= width && 0.0 <= cy <= height
    ensures |Survivors(radii, cx, cy, width, height)| == |radii|
    ensures forall i :: 0 <= i < |radii| ==> Survivors(radii, cx, cy, width, height)[i] == radii[i] + 1
    decreases |radii|
  {
    if radii != [] {
      SurvivorsInsideCanvas(radii[1..], cx, cy, width, height);
      assert !OffScreen(cx, cy, radii[0] + 1, width, height);
    }
  }

  class GalaxyCircles {
    const galaxyImage: GalaxyImage
    var circles: seq<nat>

    constructor (galaxyImage: GalaxyImage)
      ensures this.galaxyImage == galaxyImage && circles == []
    {
      this.galaxyImage := galaxyImage;
      circles := [];
    }

    /** The timer's callback: one new ring of radius 1 at the end. */
    method AddCircle()
      modifies this`circles
      ensures circles == old(circles) + [1]
    {
      circles := circles + [1];
    }

    /** The update half of one frame, on a canvas of the given size. */
    method UpdateAndDraw(width: real, height: real)
      modifies this`circles
      ensures circles == Survivors(old(circles), galaxyImage.CenterX(), galaxyImage.CenterY(), width, height)
    {
      var cx := galaxyImage.CenterX();
      var cy := galaxyImage.CenterY();
      var rings := circles;
      var kept: seq<nat> := [];
      var i := 0;
      while i < |rings|
        invariant 0 <= i <= |rings|
        invariant kept == Survivors(rings[..i], cx, cy, width, height)
      {
        var radius := rings[i] + 1;
        if !OffScreen(cx, cy, radius, width, height) {
          kept := kept + [radius];
        }
        assert rings[..i + 1] == rings[..i] + [rings[i]];
        SurvivorsAppend(rings[..i], [rings[i]], cx, cy, width, height);
        i := i + 1;
      }
      assert rings[..i] == rings;
      circles := kept;
    }
  }
}
