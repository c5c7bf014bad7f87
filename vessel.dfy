/**
 * The ocean and the player's submarine of src/game/game.js: the wave phase,
 * the horizontal clamp, the surfaced/submerged branch with its dead-zone
 * camera, facing, bubble emission and the spotlight battery economy.
 */
module Vessel {
  import opened Wrappers
  import opened Geometry
  import opened Pool

  /** The ocean; only the wave phase changes after construction. */
  class Ocean {
    const height: real
    const waveAmplitude: real
    const waveFrequency: real
    const waveSpeed: real
    var waveOffset: real

    constructor ()
      ensures height == 80.0 && waveAmplitude == 25.0 && waveFrequency == 0.02
      ensures waveOffset == 0.0 && waveSpeed == 0.05
    {
      height, waveAmplitude, waveFrequency := 80.0, 25.0, 0.02;
      waveOffset, waveSpeed := 0.0, 0.05;
    }

    /** Advances the wave phase by one tick. */
    method Update()
      modifies this
      ensures waveOffset == old(waveOffset) + waveSpeed
    {
      waveOffset := waveOffset + waveSpeed;
    }
  }

  /** Battery level and spotlight switch after one tick. */
  datatype Battery = Battery(level: real, on: bool)

  /**
   * One tick of the battery economy: a lit spotlight with charge left drains,
   * floored at 0, and switches itself off exactly when the level reaches 0;
   * a dark spotlight recharges, capped at the maximum. A lit spotlight at
   * zero charge (possible because the toggle does not look at the level)
   * neither drains nor recharges.
   */
  function BatteryStep(b: Battery, maxBattery: real, drain: real, charge: real): (r: Battery)
    requires 0.0 < drain && 0.0 < charge
    ensures 0.0 <= b.level <= maxBattery ==> 0.0 <= r.level <= maxBattery
    ensures r.on ==> b.on
    ensures b.on && b.level > 0.0 ==> r.level < b.level && r == Battery(Max(0.0, b.level - drain), b.level > drain)
    ensures b.on && b.level > 0.0 ==> (r.on <==> r.level != 0.0)
    ensures b.on && b.level > 0.0 && b.level <= drain ==> r == Battery(0.0, false)
    ensures !b.on && b.level < maxBattery ==> b.level < r.level && r == Battery(Min(maxBattery, b.level + charge), false)
    ensures !b.on ==> !r.on
    ensures (b.on && b.level <= 0.0) || (!b.on && b.level >= maxBattery) ==> r == b
  {
    if b.on && b.level > 0.0 then
      var level := Max(0.0, b.level - drain);
      Battery(level, level != 0.0)
    else if !b.on && b.level < maxBattery then
      Battery(Min(maxBattery, b.level + charge), b.on)
    else b
  }

  /** `n` consecutive battery ticks with no key presses in between. */
  function BatteryRun(b: Battery, maxBattery: real, drain: real, charge: real, n: nat): Battery
    requires 0.0 < drain && 0.0 < charge
    decreases n
  {
    if n == 0 then b else BatteryRun(BatteryStep(b, maxBattery, drain, charge), maxBattery, drain, charge, n - 1)
  }

  /** A dark spotlight stays dark however many ticks pass. */
  lemma {:induction false} DarkStaysDark(b: Battery, maxBattery: real, drain: real, charge: real, n: nat)
    requires 0.0 < drain && 0.0 < charge && !b.on
    ensures !BatteryRun(b, maxBattery, drain, charge, n).on
    decreases n
  {
    if n > 0 {
      DarkStaysDark(BatteryStep(b, maxBattery, drain, charge), maxBattery, drain, charge, n - 1);
    }
  }

  /** The battery stays in [0, max] over any number of ticks. */
  lemma {:induction false} BatteryRunInBounds(b: Battery, maxBattery: real, drain: real, charge: real, n: nat)
    requires 0.0 < drain && 0.0 < charge && 0.0 <= b.level <= maxBattery
    ensures 0.0 <= BatteryRun(b, maxBattery, drain, charge, n).level <= maxBattery
    decreases n
  {
    if n > 0 {
      BatteryRunInBounds(BatteryStep(b, maxBattery, drain, charge), maxBattery, drain, charge, n - 1);
    }
  }

  /** A lit spotlight with charge `level` is off after any `n` ticks with `level <= n * drain`. */
  lemma {:induction false} LitSpotlightRunsOut(b: Battery, maxBattery: real, drain: real, charge: real, n: nat)
    requires 0.0 < drain && 0.0 < charge && b.on && 0.0 < b.level <= (n as real) * drain
    ensures !BatteryRun(b, maxBattery, drain, charge, n).on
    decreases n
  {
    var next := BatteryStep(b, maxBattery, drain, charge);
    if !next.on {
      DarkStaysDark(next, maxBattery, drain, charge, n - 1);
    } else {
      assert next.level == b.level - drain;
      assert next.level <= ((n - 1) as real) * drain;
      LitSpotlightRunsOut(next, maxBattery, drain, charge, n - 1);
    }
  }

  /** A dark spotlight is back at full charge after any `n` ticks with `max - level <= n * charge`. */
  lemma {:induction false} DarkSpotlightRecharges(b: Battery, maxBattery: real, drain: real, charge: real, n: nat)
    requires 0.0 < drain && 0.0 < charge && !b.on && b.level <= maxBattery
    requires maxBattery - b.level <= (n as real) * charge
    ensures BatteryRun(b, maxBattery, drain, charge, n).level == maxBattery
    decreases n
  {
    if b.level < maxBattery {
      var next := BatteryStep(b, maxBattery, drain, charge);
      if next.level < maxBattery {
        assert next.level == b.level + charge;
      }
      DarkSpotlightRecharges(next, maxBattery, drain, charge, n - 1);
    } else {
      FullAndDarkIsStable(b, maxBattery, drain, charge, n);
    }
  }

  lemma {:induction false} FullAndDarkIsStable(b: Battery, maxBattery: real, drain: real, charge: real, n: nat)
    requires 0.0 < drain && 0.0 < charge && !b.on && b.level == maxBattery
    ensures BatteryRun(b, maxBattery, drain, charge, n) == b
    decreases n
  {
    if n > 0 {
      FullAndDarkIsStable(BatteryStep(b, maxBattery, drain, charge), maxBattery, drain, charge, n - 1);
    }
  }

  /**
   * A spotlight switched on at zero charge stays on at zero charge for ever:
   * it neither drains, nor switches itself off, nor recharges.
   */
  lemma {:induction false} LitAtEmptyStaysLit(b: Battery, maxBattery: real, drain: real, charge: real, n: nat)
    requires 0.0 < drain && 0.0 < charge && b == Battery(0.0, true)
    ensures BatteryRun(b, maxBattery, drain, charge, n) == b
    decreases n
  {
    if n > 0 {
      LitAtEmptyStaysLit(BatteryStep(b, maxBattery, drain, charge), maxBattery, drain, charge, n - 1);
    }
  }

  /**
   * The dead-zone camera: the camera only moves when the submarine leaves the
   * band between 30% and 70% of the viewport, and then just far enough to
   * bring it back to the band's edge, unless a world limit stops it.
   */
  function FollowCamera(cameraY: real, y: real, height: real, canvasHeight: real, maxWorldDepth: real): (r: real)
    ensures 0.0 <= r
    ensures maxWorldDepth - canvasHeight >= 0.0 ==> r <= maxWorldDepth - canvasHeight
    ensures (0.0 <= cameraY <= maxWorldDepth - canvasHeight
             && cameraY + canvasHeight * 0.3 <= y && y + height <= cameraY + canvasHeight * 0.7) ==> r == cameraY
    ensures 0.0 < cameraY <= maxWorldDepth - canvasHeight && y < cameraY + canvasHeight * 0.3 ==>
              r == Max(0.0, y - canvasHeight * 0.3)
    ensures (0.0 <= cameraY < maxWorldDepth - canvasHeight && y >= cameraY + canvasHeight * 0.3
             && y + height > cameraY + canvasHeight * 0.7) ==>
              r == Min(maxWorldDepth - canvasHeight, y + height - canvasHeight * 0.7)
  {
    var deadZoneTop := cameraY + canvasHeight * 0.3;
    var deadZoneBottom := cameraY + canvasHeight * 0.7;
    var moved :=
      if y < deadZoneTop && cameraY > 0.0 then Max(0.0, cameraY - (deadZoneTop - y))
      else if y + height > deadZoneBottom && cameraY < maxWorldDepth - canvasHeight then
        Min(maxWorldDepth - canvasHeight, cameraY + (y + height - deadZoneBottom))
      else cameraY;
    Clamp(moved, 0.0, maxWorldDepth - canvasHeight)
  }

  /** The vertical outcome of a tick: the new y, whether the submarine is surfaced, and the camera. */
  datatype Vertical = Vertical(y: real, surfaced: bool, camera: real)

  /**
   * The submerged vertical clamp (y grows downward): between half a hull above
   * the highest wave crest and one hull height above the world's floor.
   */
  function DiveClamp(y: real, verticalDirection: int, verticalSpeed: real, height: real, oceanHeight: real,
                     waveAmplitude: real, maxWorldDepth: real): (r: real)
    ensures oceanHeight - waveAmplitude - height * 0.5 <= r
    ensures oceanHeight - waveAmplitude - height * 0.5 <= maxWorldDepth - height ==> r <= maxWorldDepth - height
  {
    Clamp(y + (verticalDirection as real) * verticalSpeed, oceanHeight - waveAmplitude - height * 0.5, maxWorldDepth - height)
  }

  /**
   * The wave pull on a submarine with no vertical input whose centre is in
   * the band near the surface: the centre moves 15% of the way to the wave.
   */
  function WavePull(y: real, verticalDirection: int, height: real, oceanHeight: real, waveAmplitude: real, waveY: real): (r: real)
    ensures var centre := y + height * 0.5;
            var inBand := centre > oceanHeight - waveAmplitude - height * 0.2 && centre < oceanHeight + waveAmplitude + height * 0.5;
            && (verticalDirection == 0 && inBand ==> r + height * 0.5 - centre == (waveY - centre) * 0.15)
            && (verticalDirection == 0 && inBand ==> Min(centre, waveY) <= r + height * 0.5 <= Max(centre, waveY))
            && (!(verticalDirection == 0 && inBand) ==> r == y)
  {
    var centre := y + height * 0.5;
    var inWaveBand := centre > oceanHeight - waveAmplitude - height * 0.2 && centre < oceanHeight + waveAmplitude + height * 0.5;
    if verticalDirection == 0 && inWaveBand then y + (waveY - centre) * 0.15 else y
  }

  /**
   * The surfaced/submerged branch. `waveY` is the wave's world y at the
   * submarine's x (the sine is not modelled).
   */
  function VerticalStep(y: real, verticalDirection: int, verticalSpeed: real, height: real, oceanHeight: real, waveAmplitude: real,
                        waveY: real, cameraY: real, canvasHeight: real, maxWorldDepth: real): (r: Vertical)
    ensures r.surfaced <==> y <= oceanHeight + height * 0.1 && verticalDirection <= 0
    ensures r.surfaced ==> r.camera == 0.0 && Min(y, waveY - 10.0) <= r.y <= Max(y, waveY - 10.0)
    ensures !r.surfaced ==> 0.0 <= r.camera
    ensures !r.surfaced && maxWorldDepth - canvasHeight >= 0.0 ==> r.camera <= maxWorldDepth - canvasHeight
    ensures !r.surfaced && verticalDirection != 0 ==>
              oceanHeight - waveAmplitude - height * 0.5 <= r.y
              && (oceanHeight - waveAmplitude - height * 0.5 <= maxWorldDepth - height ==> r.y <= maxWorldDepth - height)
  {
    if y <= oceanHeight + height * 0.1 && verticalDirection <= 0 then
      Vertical(Lerp(y, waveY - 10.0, 0.1), true, 0.0)
    else
      var clamped := DiveClamp(y, verticalDirection, verticalSpeed, height, oceanHeight, waveAmplitude, maxWorldDepth);
      Vertical(WavePull(clamped, verticalDirection, height, oceanHeight, waveAmplitude, waveY), false,
               FollowCamera(cameraY, clamped, height, canvasHeight, maxWorldDepth))
  }

  /** Facing copies a non-zero horizontal direction and is otherwise unchanged. */
  function Facing(horizontalDirection: int, facing: int): (r: int)
    ensures horizontalDirection == -1 || horizontalDirection == 1 ==> r == horizontalDirection
    ensures horizontalDirection != -1 && horizontalDirection != 1 ==> r == facing
    ensures (facing == -1 || facing == 1) ==> (r == -1 || r == 1)
  {
    if horizontalDirection == -1 then -1
    else if horizontalDirection == 1 then 1
    else facing
  }

  /**
   * How many bubbles a tick emits: none when surfaced or within the emission
   * interval; otherwise one for vertical motion, one for horizontal motion,
   * and one idle bubble when still and more than 500 ms have passed.
   */
  function BubbleCount(surfaced: bool, elapsed: real, interval: real, verticalDirection: int, horizontalDirection: int): (n: nat)
    ensures n <= 2
    ensures n > 0 ==> !surfaced && elapsed > interval
    ensures n == 2 <==> !surfaced && elapsed > interval && verticalDirection != 0 && horizontalDirection != 0
    ensures !surfaced && elapsed > interval && elapsed > 500.0 ==> n > 0
    ensures verticalDirection == 0 && horizontalDirection == 0 && elapsed <= 500.0 ==> n == 0
  {
    if surfaced || elapsed <= interval then 0
    else
      (if verticalDirection != 0 then 1 else 0)
      + (if horizontalDirection != 0 then 1
         else if verticalDirection == 0 && elapsed > 500.0 then 1
         else 0)
  }

  /** The `Math.random()` draws one tick's bubbles use, named by purpose. */
  datatype BubbleDraws = BubbleDraws(
    rise: real, offset: real,
    trailJitter: real, trailDrift: real, trailSize: real,
    propellerSpeed: real, propellerSize: real,
    idleJitter: real, idleDrift: real, idleSize: real)

  /** `bubblePool.get().init(...)`: an instance of a bubble pool, initialised. */
  method SpawnBubble(pool: ObjectPool, x0: real, y0: real, speedY0: real, speedX0: real, size0: real, alpha0: real, decayRate0: real)
    returns (b: Bubble)
    requires pool.Valid() && pool.classRef == BubbleClass
    modifies pool, pool.Objects()
    ensures pool.Valid() && old(pool.pool) <= pool.pool && |pool.pool| <= |old(pool.pool)| + 1 && BubbleEntity(b) in pool.pool
    ensures forall o :: o in pool.Objects() ==> o in old(pool.Objects()) || fresh(o)
    ensures match old(FirstInactive(Flags(pool.pool)))
            case Some(k) => pool.pool == old(pool.pool) && pool.pool[k] == BubbleEntity(b)
            case None => pool.pool == old(pool.pool) + [BubbleEntity(b)] && fresh(b)
    ensures forall o :: o in old(pool.Objects()) && o != b ==> unchanged(o)
    ensures b.active && b.x == x0 && b.y == y0 && b.speedY == speedY0 && b.speedX == speedX0
    ensures b.size == size0 && b.alpha == alpha0 && b.decayRate == decayRate0
  {
    var e := pool.Get();
    assert e.BubbleEntity?;
    b := e.bubble;
    assert b in pool.Objects();
    b.Init(x0, y0, speedY0, speedX0, size0, alpha0, decayRate0);
  }

  class Submarine {
    const ocean: Ocean
    const bubblePool: ObjectPool
    const scaleFactor: real
    const width: real
    const height: real
    const horizontalSpeed: real
    const verticalSpeed: real
    const bubbleInterval: real
    const spotlightMaxBattery: real
    const spotlightDrainRate: real
    const spotlightChargeRate: real
    const maxWorldDepth: real

    var x: real
    var y: real
    var facingDirection: int
    var tiltAngle: real
    var lastBubbleTime: real
    var batteryLevel: real
    var isSpotlightOn: bool
    var isSurfaced: bool
    var horizontalDirection: int
    var verticalDirection: int

    ghost predicate Valid()
      reads this, bubblePool
    {
      && bubblePool.Valid() && bubblePool.classRef == BubbleClass
      && this !in bubblePool.Objects()
      && horizontalSpeed == 10.0 && verticalSpeed == 5.0 && bubbleInterval == 50.0 && scaleFactor == 0.8
      && 0.0 < spotlightDrainRate && 0.0 < spotlightChargeRate
    }

    /**
     * `imageSize` is the natural size of the loaded submarine image, if any;
     * without one the 120 x 60 fallback is scaled instead.
     */
    constructor (ocean: Ocean, imageSize: Option<(real, real)>, bubblePool: ObjectPool,
                 maxBattery: real, drainRate: real, chargeRate: real, maxWorldDepth: real)
      requires bubblePool.Valid() && bubblePool.classRef == BubbleClass
      requires 0.0 < drainRate && 0.0 < chargeRate
      ensures Valid() && this.ocean == ocean && this.bubblePool == bubblePool
      ensures scaleFactor == 0.8
      ensures imageSize.None? ==> width == 96.0 && height == 48.0
      ensures imageSize.Some? ==> width == imageSize.value.0 * 0.8 && height == imageSize.value.1 * 0.8
      ensures x == 0.0 && y == ocean.height + 20.0 && facingDirection == 1 && tiltAngle == 0.0
      ensures horizontalSpeed == 10.0 && verticalSpeed == 5.0 && lastBubbleTime == 0.0 && bubbleInterval == 50.0
      ensures batteryLevel == maxBattery && !isSpotlightOn && !isSurfaced
      ensures horizontalDirection == 0 && verticalDirection == 0
      ensures spotlightMaxBattery == maxBattery && spotlightDrainRate == drainRate
      ensures spotlightChargeRate == chargeRate && this.maxWorldDepth == maxWorldDepth
    {
      this.ocean := ocean;
      this.bubblePool := bubblePool;
      scaleFactor := 0.8;
      match imageSize {
        case None =>
          width := 120.0 * 0.8;
          height := 60.0 * 0.8;
        case Some(size) =>
          width := size.0 * 0.8;
          height := size.1 * 0.8;
      }
      x := 0.0;
      y := ocean.height + 20.0;
      horizontalSpeed := 10.0;
      verticalSpeed := 5.0;
      facingDirection := 1;
      tiltAngle := 0.0;
      lastBubbleTime := 0.0;
      bubbleInterval := 50.0;
      batteryLevel := maxBattery;
      isSpotlightOn := false;
      isSurfaced := false;
      horizontalDirection := 0;
      verticalDirection := 0;
      spotlightMaxBattery := maxBattery;
      spotlightDrainRate := drainRate;
      spotlightChargeRate := chargeRate;
      this.maxWorldDepth := maxWorldDepth;
    }

    /**
     * One tick; returns the new camera offset. `waveSine` stands for the sine
     * of the wave phase at the submarine's new x. `emitted` counts the bubbles
     * taken from the pool.
     */
    method Update(currentTime: real, canvasWidth: real, canvasHeight: real, cameraY: real,
                  waveSine: real, draws: BubbleDraws) returns (camera: real, ghost emitted: nat)
      requires Valid()
      modifies this, bubblePool, bubblePool.Objects()
      ensures Valid()
      ensures x == Clamp(old(x) + (horizontalDirection as real) * horizontalSpeed, 0.0, canvasWidth - width)
      ensures 0.0 <= x && (canvasWidth - width >= 0.0 ==> x <= canvasWidth - width)
      ensures var v := VerticalStep(old(y), verticalDirection, verticalSpeed, height, ocean.height, ocean.waveAmplitude,
                                    ocean.height + waveSine * ocean.waveAmplitude, cameraY, canvasHeight, maxWorldDepth);
              y == v.y && isSurfaced == v.surfaced && camera == v.camera
      ensures isSurfaced ==> camera == 0.0
      ensures !isSurfaced && maxWorldDepth - canvasHeight >= 0.0 ==> 0.0 <= camera <= maxWorldDepth - canvasHeight
      ensures facingDirection == Facing(horizontalDirection, old(facingDirection)) && tiltAngle == 0.0
      ensures emitted == BubbleCount(isSurfaced, currentTime - old(lastBubbleTime), bubbleInterval,
                                     verticalDirection, horizontalDirection)
      ensures lastBubbleTime == if emitted > 0 then currentTime else old(lastBubbleTime)
      ensures Battery(batteryLevel, isSpotlightOn)
              == BatteryStep(Battery(old(batteryLevel), old(isSpotlightOn)), spotlightMaxBattery, spotlightDrainRate, spotlightChargeRate)
      ensures horizontalDirection == old(horizontalDirection) && verticalDirection == old(verticalDirection)
      ensures old(bubblePool.pool) <= bubblePool.pool
    {
      MoveHorizontally(canvasWidth);
      var waveY := ocean.height + waveSine * ocean.waveAmplitude;
      camera := MoveVertically(waveY, cameraY, canvasHeight);
      TurnToInput();
      assert this !in bubblePool.Objects();
      emitted := EmitBubbles(currentTime, draws);
      StepBattery();
    }

    /** The horizontal move and clamp of `update`. */
    method MoveHorizontally(canvasWidth: real)
      requires Valid()
      modifies this`x
      ensures Valid()
      ensures x == Clamp(old(x) + (horizontalDirection as real) * horizontalSpeed, 0.0, canvasWidth - width)
    {
      x := x + (horizontalDirection as real) * horizontalSpeed;
      x := Max(0.0, Min(x, canvasWidth - width));
    }

    /** Facing follows the horizontal input; the tilt is reset. */
    method TurnToInput()
      requires Valid()
      modifies this`facingDirection, this`tiltAngle
      ensures Valid()
      ensures facingDirection == Facing(horizontalDirection, old(facingDirection)) && tiltAngle == 0.0
    {
      if horizontalDirection == -1 { facingDirection := -1; }
      else if horizontalDirection == 1 { facingDirection := 1; }
      tiltAngle := 0.0;
    }

    /** The surfaced/submerged branch of `update`, with the camera follow; returns the camera. */
    method MoveVertically(waveY: real, cameraY: real, canvasHeight: real) returns (camera: real)
      requires Valid()
      modifies this`y, this`isSurfaced
      ensures Valid()
      ensures var v := VerticalStep(old(y), verticalDirection, verticalSpeed, height, ocean.height, ocean.waveAmplitude,
                                    waveY, cameraY, canvasHeight, maxWorldDepth);
              y == v.y && isSurfaced == v.surfaced && camera == v.camera
    {
      var surfaceZoneBottom := ocean.height + height * 0.1;
      if y <= surfaceZoneBottom && verticalDirection <= 0 {
        isSurfaced := true;
        y := Lerp(y, waveY - 10.0, 0.1);
        camera := 0.0;
      } else {
        isSurfaced := false;
        camera := Dive(waveY, cameraY, canvasHeight);
      }
    }

    /** The submerged branch: vertical motion and clamp, camera follow, wave pull. */
    method Dive(waveY: real, cameraY: real, canvasHeight: real) returns (camera: real)
      modifies this`y
      ensures var clamped := DiveClamp(old(y), verticalDirection, verticalSpeed, height, ocean.height, ocean.waveAmplitude, maxWorldDepth);
              && y == WavePull(clamped, verticalDirection, height, ocean.height, ocean.waveAmplitude, waveY)
              && camera == FollowCamera(cameraY, clamped, height, canvasHeight, maxWorldDepth)
    {
      ghost var clamped0 := DiveClamp(y, verticalDirection, verticalSpeed, height, ocean.height, ocean.waveAmplitude, maxWorldDepth);
      y := y + (verticalDirection as real) * verticalSpeed;
      var minSubWorldY := ocean.height - ocean.waveAmplitude - height * 0.5;
      var maxSubWorldY := maxWorldDepth - height;
      y := Max(minSubWorldY, Min(y, maxSubWorldY));
      assert y == clamped0;
      camera := FollowCameraStep(cameraY, y, height, canvasHeight, maxWorldDepth);

      var zoneTop := ocean.height - ocean.waveAmplitude - height * 0.2;
      var zoneBottom := ocean.height + ocean.waveAmplitude + height * 0.5;
      var inWaveBand := y + height * 0.5 > zoneTop && y + height * 0.5 < zoneBottom;
      if verticalDirection == 0 && inWaveBand {
        y := y + (waveY - (y + height * 0.5)) * 0.15;
      }
    }

    /** The dead-zone camera follow of the submerged branch. */
    static method FollowCameraStep(cameraY: real, y: real, height: real, canvasHeight: real, maxWorldDepth: real)
      returns (camera: real)
      ensures camera == FollowCamera(cameraY, y, height, canvasHeight, maxWorldDepth)
    {
      camera := cameraY;
      var deadZoneTop := camera + canvasHeight * 0.3;
      var deadZoneBottom := camera + canvasHeight * 0.7;
      if y < deadZoneTop && camera > 0.0 {
        camera := Max(0.0, camera - (deadZoneTop - y));
      } else if y + height > deadZoneBottom && camera < maxWorldDepth - canvasHeight {
        camera := Min(maxWorldDepth - canvasHeight, camera + (y + height - deadZoneBottom));
      }
      camera := Max(0.0, Min(camera, maxWorldDepth - canvasHeight));
    }

    /** The bubble emission of `update`; returns how many bubbles were taken from the pool. */
    method EmitBubbles(currentTime: real, draws: BubbleDraws) returns (ghost emitted: nat)
      requires Valid()
      modifies this`lastBubbleTime, bubblePool, bubblePool.Objects()
      ensures Valid()
      ensures emitted == BubbleCount(isSurfaced, currentTime - old(lastBubbleTime), bubbleInterval,
                                     verticalDirection, horizontalDirection)
      ensures lastBubbleTime == if emitted > 0 then currentTime else old(lastBubbleTime)
      ensures old(bubblePool.pool) <= bubblePool.pool && |bubblePool.pool| <= |old(bubblePool.pool)| + emitted
    {
      emitted := 0;
      if !isSurfaced {
        if currentTime - lastBubbleTime > bubbleInterval {
          var bubbleSpeedY := -draws.rise * 0.8 - 0.8;
          var randomOffset := draws.offset * 10.0 - 5.0;
          if verticalDirection != 0 {
            var bubbleX := x + width / 2.0 + (draws.trailJitter - 0.5) * 15.0;
            var bubbleY := y + (if verticalDirection == 1 then height else 0.0);
            var _ := EmitOne(currentTime, bubbleX, bubbleY, bubbleSpeedY * (verticalDirection as real),
                             (draws.trailDrift - 0.5) * 0.5, draws.trailSize * 3.0 + 2.0, 0.9, 0.005);
            emitted := emitted + 1;
          }
          if horizontalDirection != 0 {
            var propellerRelativeX := if facingDirection == 1 then 20.0 * scaleFactor else width - 20.0 * scaleFactor;
            var propellerCenterY := y + height * 0.7;
            var bubbleX := x + propellerRelativeX + randomOffset;
            var bubbleSpeedX := if facingDirection == 1 then -(draws.propellerSpeed * 3.0 + 1.5) else draws.propellerSpeed * 3.0 + 1.5;
            var bubbleY := propellerCenterY + randomOffset;
            var _ := EmitOne(currentTime, bubbleX, bubbleY, bubbleSpeedY, bubbleSpeedX, draws.propellerSize * 4.0 + 3.0, 1.0, 0.01);
            emitted := emitted + 1;
          } else if verticalDirection == 0 && horizontalDirection == 0 && currentTime - lastBubbleTime > 500.0 {
            var bubbleX := x + width / 2.0 + (draws.idleJitter - 0.5) * 10.0;
            var bubbleY := y + height;
            var _ := EmitOne(currentTime, bubbleX, bubbleY, -0.5, (draws.idleDrift - 0.5) * 0.2, draws.idleSize * 2.0 + 1.0, 0.7, 0.002);
            emitted := emitted + 1;
          }
        }
      }
    }

    /** One `bubblePool.get().init(...)` of the emission, followed by the time stamp. */
    method EmitOne(currentTime: real, x0: real, y0: real, speedY0: real, speedX0: real, size0: real, alpha0: real,
                   decayRate0: real) returns (b: Bubble)
      requires Valid()
      modifies this`lastBubbleTime, bubblePool, bubblePool.Objects()
      ensures Valid() && lastBubbleTime == currentTime
      ensures BubbleEntity(b) in bubblePool.pool
      ensures b.active && b.x == x0 && b.y == y0 && b.speedY == speedY0 && b.speedX == speedX0
      ensures b.size == size0 && b.alpha == alpha0 && b.decayRate == decayRate0
      ensures old(bubblePool.pool) <= bubblePool.pool && |bubblePool.pool| <= |old(bubblePool.pool)| + 1
      ensures forall o :: o in bubblePool.Objects() ==> o in old(bubblePool.Objects()) || fresh(o)
    {
      b := SpawnBubble(bubblePool, x0, y0, speedY0, speedX0, size0, alpha0, decayRate0);
      lastBubbleTime := currentTime;
    }

    /** The battery economy of `update`. */
    method StepBattery()
      requires Valid()
      modifies this`batteryLevel, this`isSpotlightOn
      ensures Valid()
      ensures Battery(batteryLevel, isSpotlightOn)
              == BatteryStep(Battery(old(batteryLevel), old(isSpotlightOn)), spotlightMaxBattery, spotlightDrainRate, spotlightChargeRate)
    {
      if isSpotlightOn && batteryLevel > 0.0 {
        batteryLevel := Max(0.0, batteryLevel - spotlightDrainRate);
        if batteryLevel == 0.0 { isSpotlightOn := false; }
      } else if !isSpotlightOn && batteryLevel < spotlightMaxBattery {
        batteryLevel := Min(spotlightMaxBattery, batteryLevel + spotlightChargeRate);
      }
    }
  }
}
