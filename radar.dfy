/**
 * The radar widget's state (src/components/Hud/Radar.js, and the same logic
 * duplicated inside the frame loop of src/components/Game/Game.js): a sweep
 * angle that turns while the radar is active and a detection dot that is
 * placed once per detection and cleared when the detection ends.
 */
module RadarView {
  import opened Wrappers

  /** `Math.PI * 2` as the double the source computes. */
  const TWO_PI: real := 6.283185307179586
  const SWEEP_STEP: real := 0.05
  const DOT_MARGIN: real := 10.0
  /** The gap between the rim and the canvas edge. */
  const RIM_GAP: real := 5.0

  /** Where a fresh dot lands along one axis for a random draw in [0, 1). */
  function DotCoordinate(draw: real, size: real): (c: real)
    ensures 0.0 <= draw < 1.0 && size >= 2.0 * DOT_MARGIN ==> DOT_MARGIN <= c <= size - DOT_MARGIN
  {
    var span := size - 2.0 * DOT_MARGIN;
    assert 0.0 <= draw < 1.0 && span >= 0.0 ==> 0.0 <= draw * span <= span by {
      if 0.0 <= draw < 1.0 && span >= 0.0 {
        assert draw * span <= 1.0 * span;
      }
    }
    DOT_MARGIN + draw * span
  }

  class Radar {
    var rotationAngle: real
    var dotX: Option<real>
    var dotY: Option<real>

    /** The sweep stays within one turn, and a dot has both coordinates or none. */
    ghost predicate Valid()
      reads this
    {
      0.0 <= rotationAngle < TWO_PI && (dotX.Some? <==> dotY.Some?)
    }

    /** The state captured when the drawing effect starts. */
    constructor ()
      ensures Valid()
      ensures rotationAngle == 0.0 && dotX == None && dotY == None
    {
      rotationAngle := 0.0;
      dotX := None;
      dotY := None;
    }

    /**
     * `drawRadar`: nothing happens on a canvas too small for a rim; otherwise the
     * sweep turns by one step while active and is reset when inactive. The result
     * says whether the detection dot is painted.
     */
    method Draw(isActive: bool, hasDetection: bool, size: real) returns (dotShown: bool)
      modifies this`rotationAngle
      ensures size / 2.0 - RIM_GAP <= 0.0 || size <= 0.0 ==> rotationAngle == old(rotationAngle) && !dotShown
      ensures size / 2.0 - RIM_GAP > 0.0 && size > 0.0 ==>
        && rotationAngle == Sweep(old(rotationAngle), isActive)
        && (dotShown <==> hasDetection && dotX.Some? && dotY.Some?)
    {
      var radius := size / 2.0 - RIM_GAP;
      if radius <= 0.0 || size <= 0.0 {
        return false;
      }
      if isActive {
        rotationAngle := rotationAngle + SWEEP_STEP;
        if rotationAngle >= TWO_PI {
          rotationAngle := rotationAngle - TWO_PI;
        }
      } else {
        rotationAngle := 0.0;
      }
      dotShown := hasDetection && dotX.Some? && dotY.Some?;
    }

    /**
     * `updateRadarDisplay`: a dot is placed only when the radar is active, something
     * is detected and no dot is set yet; it is cleared as soon as either condition
     * fails; otherwise it stays where it is. Then the radar is drawn.
     */
    method UpdateDisplay(isActive: bool, hasDetection: bool, size: real, drawX: real, drawY: real)
      returns (dotShown: bool)
      modifies this
      ensures isActive && hasDetection && old(dotX) == None ==>
        dotX == Some(DotCoordinate(drawX, size)) && dotY == Some(DotCoordinate(drawY, size))
      ensures isActive && hasDetection && old(dotX).Some? ==> dotX == old(dotX) && dotY == old(dotY)
      ensures !isActive || !hasDetection ==> dotX == None && dotY == None
      ensures dotX.Some? && dotX != old(dotX) ==> isActive && hasDetection && old(dotX) == None
      ensures old(Valid()) && 0.0 <= drawX < 1.0 && 0.0 <= drawY < 1.0 && size >= 2.0 * DOT_MARGIN ==>
        Valid() && (dotX.Some? && dotX != old(dotX) ==>
                      DOT_MARGIN <= dotX.value <= size - DOT_MARGIN && DOT_MARGIN <= dotY.value <= size - DOT_MARGIN)
      ensures size / 2.0 - RIM_GAP <= 0.0 ==> rotationAngle == old(rotationAngle) && !dotShown
      ensures size / 2.0 - RIM_GAP > 0.0 ==>
        rotationAngle == Sweep(old(rotationAngle), isActive) && (dotShown <==> hasDetection && dotX.Some? && dotY.Some?)
    {
      if isActive && hasDetection && dotX == None {
        dotX := Some(DotCoordinate(drawX, size));
        dotY := Some(DotCoordinate(drawY, size));
      } else if !isActive || !hasDetection {
        dotX := None;
        dotY := None;
      }
      dotShown := Draw(isActive, hasDetection, size);
    }
  }

  /** One frame of the sweep: a step of 0.05 wrapped at a full turn, or a reset when inactive. */
  function Sweep(angle: real, isActive: bool): (r: real)
    ensures !isActive ==> r == 0.0
    ensures isActive ==> r == angle + SWEEP_STEP || r == angle + SWEEP_STEP - TWO_PI
    ensures isActive && 0.0 <= angle < TWO_PI ==> 0.0 <= r < TWO_PI
  {
    if !isActive then 0.0
    else if angle + SWEEP_STEP >= TWO_PI then angle + SWEEP_STEP - TWO_PI
    else angle + SWEEP_STEP
  }

  function SweepRun(angle: real, n: nat): real
    decreases n
  {
    if n == 0 then angle else SweepRun(Sweep(angle, true), n - 1)
  }

  /** However long the radar stays active, a sweep started within one turn stays within one turn. */
  lemma {:induction false} SweepStaysInTurn(angle: real, n: nat)
    requires 0.0 <= angle < TWO_PI
    ensures 0.0 <= SweepRun(angle, n) < TWO_PI
    decreases n
  {
    if n > 0 {
      SweepStaysInTurn(Sweep(angle, true), n - 1);
    }
  }

  /** After a frame in which the radar is inactive, it restarts from the top. */
  lemma InactiveSweepResets(angle: real)
    ensures Sweep(angle, false) == 0.0
    ensures SweepRun(Sweep(angle, false), 1) == SWEEP_STEP
  {
  }

  /**
   * One run of the widget's effect, which starts whenever `isActive` or
   * `hasDetection` changes: fresh state, then a single display update (the effect
   * requests one animation frame and never another). So the widget's sweep never
   * gets past its first step, and any dot is redrawn at a fresh position.
   */
  method RunEffect(isActive: bool, hasDetection: bool, size: real, drawX: real, drawY: real)
    returns (radar: Radar, dotShown: bool)
    ensures fresh(radar)
    ensures isActive && hasDetection ==>
      radar.dotX == Some(DotCoordinate(drawX, size)) && radar.dotY == Some(DotCoordinate(drawY, size))
    ensures !(isActive && hasDetection) ==> radar.dotX == None && radar.dotY == None
    ensures size / 2.0 - RIM_GAP > 0.0 ==> radar.rotationAngle == Sweep(0.0, isActive)
    ensures size / 2.0 - RIM_GAP <= 0.0 ==> radar.rotationAngle == 0.0
    ensures dotShown <==> isActive && hasDetection && size / 2.0 - RIM_GAP > 0.0
  {
    radar := new Radar();
    dotShown := radar.UpdateDisplay(isActive, hasDetection, size, drawX, drawY);
  }
}
