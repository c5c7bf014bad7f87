/**
 * The marine creature of src/game/game.js: wander, move and bounce inside
 * its depth band, the breathing-scale and bioluminescence oscillators,
 * facing, the discovery highlight, and the opacity rule of its draw step.
 */
module Creatures {
  import opened Geometry

  /** One axis after the bounce test: position, velocity and the wall hit (-1 low, 1 high, 0 none). */
  datatype Axis = Axis(pos: real, vel: real, side: int)

  /**
   * The bounce of one axis against [lo, hi - size]: a body past a wall is put
   * back on it and its velocity on that axis is reversed and damped by 0.8.
   * The low wall is checked first.
   */
  function BounceAxis(pos: real, vel: real, size: real, lo: real, hi: real): (r: Axis)
    ensures lo <= hi - size ==> lo <= r.pos <= hi - size
    ensures lo <= pos && pos + size <= hi ==> r == Axis(pos, vel, 0)
    ensures pos < lo ==> r == Axis(lo, vel * -0.8, -1)
    ensures lo <= pos && pos + size > hi ==> r == Axis(hi - size, vel * -0.8, 1)
  {
    if pos < lo then Axis(lo, vel * -0.8, -1)
    else if pos + size > hi then Axis(hi - size, vel * -0.8, 1)
    else Axis(pos, vel, 0)
  }

  /** Facing from the sign of the horizontal velocity, `otherwise` when it is zero. */
  function FacingFromVelocity(vx: real, otherwise: int): (r: int)
    ensures vx < 0.0 ==> r == -1
    ensures vx > 0.0 ==> r == 1
    ensures vx == 0.0 ==> r == otherwise
  {
    if vx < 0.0 then -1 else if vx > 0.0 then 1 else otherwise
  }

  /** Rescaling by a positive factor keeps the sign, so the speed limiter never changes facing. */
  lemma SignUnderPositiveScale(v: real, k: real)
    requires 0.0 < k
    ensures (v * k < 0.0 <==> v < 0.0) && (v * k > 0.0 <==> v > 0.0) && (v * k == 0.0 <==> v == 0.0)
  {
    if v < 0.0 {
      assert v * k < 0.0;
    } else if v > 0.0 {
      assert v * k > 0.0;
    }
  }

  /** A value bouncing between two limits and the direction it is moving in. */
  datatype Oscillator = Oscillator(value: real, direction: int)

  /**
   * The breathing-scale triangle wave: step by `speed` in the current
   * direction; on reaching (or passing) a limit, stop on it and turn round.
   */
  function ScaleStep(o: Oscillator, speed: real, minScale: real, maxScale: real): (r: Oscillator)
    requires minScale <= maxScale
    ensures minScale <= r.value <= maxScale
    ensures (o.direction == -1 || o.direction == 1) ==> (r.direction == -1 || r.direction == 1)
    ensures r.value == maxScale ==> r.direction == -1 || minScale == maxScale
    ensures r.value == minScale && minScale < maxScale ==> r.direction == 1
    ensures minScale < r.value < maxScale ==> r.direction == o.direction
    ensures o.value + (o.direction as real) * speed >= maxScale ==> r == Oscillator(maxScale, -1)
    ensures minScale < o.value + (o.direction as real) * speed < maxScale ==>
              r == Oscillator(o.value + (o.direction as real) * speed, o.direction)
    ensures o.value + (o.direction as real) * speed <= minScale && minScale < maxScale ==> r == Oscillator(minScale, 1)
  {
    var v := o.value + (o.direction as real) * speed;
    if v >= maxScale then Oscillator(maxScale, -1)
    else if v <= minScale then Oscillator(minScale, 1)
    else Oscillator(v, o.direction)
  }

  /**
   * The invariant of the bioluminescence oscillator: it moves up or down,
   * stays in [0, max], and does not go below the minimum while fading out
   * (it starts at 0, below the minimum, fading in).
   */
  predicate LightInvariant(o: Oscillator, minLight: real, maxLight: real)
  {
    && (o.direction == -1 || o.direction == 1)
    && 0.0 <= o.value <= maxLight
    && (o.direction == -1 ==> minLight <= o.value)
  }

  /**
   * The bioluminescence triangle wave. Unlike the scale wave, each limit is
   * checked only in the direction that approaches it.
   */
  function LightStep(o: Oscillator, speed: real, minLight: real, maxLight: real): (r: Oscillator)
    requires 0.0 <= speed && 0.0 <= minLight <= maxLight
    ensures LightInvariant(o, minLight, maxLight) ==> LightInvariant(r, minLight, maxLight)
    ensures o.direction == 1 && o.value + speed >= maxLight ==> r == Oscillator(maxLight, -1)
    ensures o.direction == -1 && o.value - speed <= minLight ==> r == Oscillator(minLight, 1)
    ensures !(o.direction == 1 && o.value + speed >= maxLight) && !(o.direction == -1 && o.value - speed <= minLight) ==>
              r == Oscillator(o.value + (o.direction as real) * speed, o.direction)
  {
    var v := o.value + (o.direction as real) * speed;
    if o.direction == 1 && v >= maxLight then Oscillator(maxLight, -1)
    else if o.direction == -1 && v <= minLight then Oscillator(minLight, 1)
    else Oscillator(v, o.direction)
  }

  /** `n` consecutive light steps. */
  function LightRun(o: Oscillator, speed: real, minLight: real, maxLight: real, n: nat): Oscillator
    requires 0.0 <= speed && 0.0 <= minLight <= maxLight
    decreases n
  {
    if n == 0 then o else LightRun(LightStep(o, speed, minLight, maxLight), speed, minLight, maxLight, n - 1)
  }

  /** The light invariant holds for ever from its initial state (0, fading in). */
  lemma {:induction false} LightRunKeepsInvariant(o: Oscillator, speed: real, minLight: real, maxLight: real, n: nat)
    requires 0.0 <= speed && 0.0 <= minLight <= maxLight && LightInvariant(o, minLight, maxLight)
    ensures LightInvariant(LightRun(o, speed, minLight, maxLight, n), minLight, maxLight)
    decreases n
  {
    if n > 0 {
      LightRunKeepsInvariant(LightStep(o, speed, minLight, maxLight), speed, minLight, maxLight, n - 1);
    }
  }

  /**
   * The opacity a creature fades towards: full when the spotlight is on and
   * the creature is lit, otherwise the ambient level of the depth, never below 0.1.
   */
  function OpacityTarget(spotlightOn: bool, inLight: bool, darkness: real): (t: real)
    ensures spotlightOn && inLight ==> t == 1.0
    ensures !(spotlightOn && inLight) ==> t == Max(0.1, 1.0 - darkness) && t >= 0.1
    ensures 0.0 <= darkness <= 1.0 ==> 0.1 <= t <= 1.0
  {
    if spotlightOn && inLight then 1.0 else Max(0.1, 1.0 - darkness)
  }

  /** The grayscale filter percentage: none when lit, else proportional to darkness. */
  function Grayscale(spotlightOn: bool, inLight: bool, darkness: real): (g: real)
    ensures spotlightOn && inLight ==> g == 0.0
    ensures !(spotlightOn && inLight) ==> g == darkness * 100.0
    ensures 0.0 <= darkness <= 1.0 ==> 0.0 <= g <= 100.0
  {
    if spotlightOn && inLight then 0.0 else darkness * 100.0
  }

  /**
   * Smoothing closes 5% of the gap to the target each frame and never
   * overshoots it, so an opacity in [0.1, 1] stays there.
   */
  lemma SmoothingApproachesTarget(current: real, spotlightOn: bool, inLight: bool, darkness: real)
    requires 0.1 <= current <= 1.0 && 0.0 <= darkness <= 1.0
    ensures var target := OpacityTarget(spotlightOn, inLight, darkness);
            var next := Lerp(current, target, 0.05);
            && next - target == (current - target) * 0.95
            && 0.1 <= next <= 1.0
  {
    var target := OpacityTarget(spotlightOn, inLight, darkness);
    var gap := target - current;
    assert Lerp(current, target, 0.05) == current + gap * 0.05;
  }

  /** A wander velocity component: a draw in [0, 1) spread over [-maxSpeed, maxSpeed). */
  function WanderVelocity(draw: real, maxSpeed: real): (v: real)
    ensures draw == 0.5 ==> v == 0.0
    ensures 0.0 < maxSpeed ==> (v > 0.0 <==> draw > 0.5) && (v < 0.0 <==> draw < 0.5)
  {
    var spread := (draw - 0.5) * maxSpeed;
    if 0.0 < maxSpeed then
      SignUnderPositiveScale(draw - 0.5, maxSpeed);
      spread * 2.0
    else spread * 2.0
  }

  /** A fresh wander velocity never reaches the speed limit. */
  lemma WanderVelocityInRange(draw: real, maxSpeed: real)
    ensures 0.0 <= draw < 1.0 && 0.0 < maxSpeed ==> -maxSpeed <= WanderVelocity(draw, maxSpeed) < maxSpeed
  {
    if 0.0 <= draw < 1.0 && 0.0 < maxSpeed {
      BetweenScaled(draw - 0.5, maxSpeed);
    }
  }

  lemma BetweenScaled(k: real, m: real)
    requires -0.5 <= k < 0.5 && 0.0 < m
    ensures -m <= k * m * 2.0 < m
  {
    assert (k + 0.5) * m >= 0.0;
    assert (0.5 - k) * m > 0.0;
    assert k * m * 2.0 == 2.0 * (k * m);
  }

  /** The `Math.random()` draws of a wander change: two velocity components and the next interval. */
  datatype WanderDraws = WanderDraws(vx: real, vy: real, interval: real)

  /** The `Math.random()` draws of the constructor. */
  datatype SpawnDraws = SpawnDraws(x: real, y: real, vx: real, vy: real, interval: real)

  /** The fields a free creature's movement changes: position, velocity, facing and the wander clock. */
  datatype Motion = Motion(x: real, y: real, vx: real, vy: real, facing: int, lastChange: real, interval: real)

  /** The wander change: once the interval has elapsed, a fresh velocity and interval are drawn. */
  function WanderStep(m: Motion, currentTime: real, draws: WanderDraws, maxSpeed: real): (r: Motion)
    ensures currentTime - m.lastChange <= m.interval ==> r == m
    ensures currentTime - m.lastChange > m.interval ==>
              r.x == m.x && r.y == m.y && r.facing == m.facing && r.lastChange == currentTime
    ensures currentTime - m.lastChange > m.interval && 0.0 <= draws.vx < 1.0 && 0.0 <= draws.vy < 1.0 && 0.0 < maxSpeed ==>
              -maxSpeed <= r.vx < maxSpeed && -maxSpeed <= r.vy < maxSpeed
  {
    if currentTime - m.lastChange > m.interval then
      WanderVelocityInRange(draws.vx, maxSpeed);
      WanderVelocityInRange(draws.vy, maxSpeed);
      Motion(m.x, m.y, WanderVelocity(draws.vx, maxSpeed), WanderVelocity(draws.vy, maxSpeed), m.facing,
             currentTime, draws.interval * 2000.0 + 1000.0)
    else m
  }

  /** The horizontal move: a creature hitting a canvas side is put back on it, bounced and turned away. */
  function AcrossStep(m: Motion, canvasWidth: real, width: real): (r: Motion)
    ensures width <= canvasWidth ==> 0.0 <= r.x <= canvasWidth - width
    ensures r.y == m.y && r.vy == m.vy && r.lastChange == m.lastChange && r.interval == m.interval
    ensures 0.0 <= m.x + m.vx && m.x + m.vx + width <= canvasWidth ==>
              r.x == m.x + m.vx && r.vx == m.vx && r.facing == m.facing
    ensures m.x + m.vx < 0.0 ==> r.x == 0.0 && r.vx == m.vx * -0.8 && r.facing == 1
    ensures 0.0 <= m.x + m.vx && m.x + m.vx + width > canvasWidth ==>
              r.x == canvasWidth - width && r.vx == m.vx * -0.8 && r.facing == -1
  {
    var ax := BounceAxis(m.x + m.vx, m.vx, width, 0.0, canvasWidth);
    m.(x := ax.pos, vx := ax.vel, facing := if ax.side == -1 then 1 else if ax.side == 1 then -1 else m.facing)
  }

  /** The vertical move: a creature leaving its depth band is put back on its edge and bounced. */
  function DownStep(m: Motion, height: real, worldMinY: real, worldMaxY: real): (r: Motion)
    ensures worldMinY <= worldMaxY - height ==> worldMinY <= r.y <= worldMaxY - height
    ensures r.(y := m.y, vy := m.vy) == m
    ensures worldMinY <= m.y + m.vy && m.y + m.vy + height <= worldMaxY ==> r.y == m.y + m.vy && r.vy == m.vy
    ensures m.y + m.vy < worldMinY ==> r.y == worldMinY && r.vy == m.vy * -0.8
    ensures worldMinY <= m.y + m.vy && m.y + m.vy + height > worldMaxY ==>
              r.y == worldMaxY - height && r.vy == m.vy * -0.8
  {
    var ay := BounceAxis(m.y + m.vy, m.vy, height, worldMinY, worldMaxY);
    m.(y := ay.pos, vy := ay.vel)
  }

  /** The speed limiter's rescaling of the velocity by a positive factor. */
  function Renorm(m: Motion, renorm: real): (r: Motion)
    ensures r.(vx := m.vx, vy := m.vy) == m
    ensures 0.0 < renorm ==> (r.vx > 0.0 <==> m.vx > 0.0) && (r.vx < 0.0 <==> m.vx < 0.0)
  {
    if 0.0 < renorm then
      SignUnderPositiveScale(m.vx, renorm);
      m.(vx := m.vx * renorm, vy := m.vy * renorm)
    else m.(vx := m.vx * renorm, vy := m.vy * renorm)
  }

  /** Moving by the velocity, bouncing on each axis, then rescaling the velocity. */
  function SwimStep(m: Motion, canvasWidth: real, renorm: real, width: real, height: real,
                    worldMinY: real, worldMaxY: real): (r: Motion)
    ensures width <= canvasWidth ==> 0.0 <= r.x <= canvasWidth - width
    ensures worldMinY <= worldMaxY - height ==> worldMinY <= r.y <= worldMaxY - height
    ensures r.lastChange == m.lastChange && r.interval == m.interval
    ensures 0.0 <= m.x + m.vx && m.x + m.vx + width <= canvasWidth ==>
              r.x == m.x + m.vx && r.vx == m.vx * renorm && r.facing == m.facing
    ensures m.x + m.vx < 0.0 ==> r.x == 0.0 && r.facing == 1
    ensures 0.0 <= m.x + m.vx && m.x + m.vx + width > canvasWidth ==> r.x == canvasWidth - width && r.facing == -1
  {
    Renorm(DownStep(AcrossStep(m, canvasWidth, width), height, worldMinY, worldMaxY), renorm)
  }

  /** Turning to face the horizontal velocity. */
  function FaceStep(m: Motion): (r: Motion)
    ensures r.(facing := m.facing) == m
    ensures m.vx != 0.0 ==> (r.facing == 1 <==> m.vx > 0.0) && (r.facing == -1 <==> m.vx < 0.0)
  {
    m.(facing := FacingFromVelocity(m.vx, m.facing))
  }

  /** One step of a free creature's movement: wander, swim and bounce, then face the velocity. */
  function RoamStep(m: Motion, currentTime: real, canvasWidth: real, draws: WanderDraws, renorm: real,
                    maxSpeed: real, width: real, height: real, worldMinY: real, worldMaxY: real): (r: Motion)
    ensures width <= canvasWidth ==> 0.0 <= r.x <= canvasWidth - width
    ensures worldMinY <= worldMaxY - height ==> worldMinY <= r.y <= worldMaxY - height
    ensures currentTime - m.lastChange <= m.interval ==> r.lastChange == m.lastChange && r.interval == m.interval
    ensures currentTime - m.lastChange <= m.interval && 0.0 <= m.x + m.vx && m.x + m.vx + width <= canvasWidth ==>
              r.x == m.x + m.vx && r.vx == m.vx * renorm
    ensures r.vx != 0.0 ==> (r.facing == 1 <==> r.vx > 0.0) && (r.facing == -1 <==> r.vx < 0.0)
  {
    FaceStep(SwimStep(WanderStep(m, currentTime, draws, maxSpeed), canvasWidth, renorm, width, height, worldMinY, worldMaxY))
  }

  class Creature {
    const id: string
    const hasLight: bool
    const scale: real
    const width: real
    const height: real
    const minSpeed: real
    const worldMinY: real
    const worldMaxY: real
    const scaleSpeed: real
    const minScale: real
    const maxScale: real
    const lightFadeSpeed: real
    const maxLightOpacity: real
    const minLightOpacity: real
    const opacityTransitionSpeed: real
    const highlightDuration: real

    var maxSpeed: real
    var x: real
    var y: real
    var vx: real
    var vy: real
    var facingDirection: int
    var scaleFactor: real
    var scaleDirection: int
    var isSchooling: bool
    var movementChangeInterval: real
    var lastMovementChangeTime: real
    var lightOpacity: real
    var lightFadeDirection: int
    var currentOpacity: real
    var isHighlighting: bool
    var highlightStartTime: real

    /** The constants every creature is built with. */
    ghost predicate Valid()
      reads this
    {
      && minSpeed == 0.3
      && scaleSpeed == 0.005 && minScale == 0.95 && maxScale == 1.05
      && lightFadeSpeed == 0.005 && maxLightOpacity == 0.9 && minLightOpacity == 0.1
      && opacityTransitionSpeed == 0.05 && highlightDuration == 500.0
    }

    /** The oscillator invariants `update` keeps. */
    ghost predicate Oscillating()
      reads this
    {
      && minScale <= scaleFactor <= maxScale && (scaleDirection == -1 || scaleDirection == 1)
      && LightInvariant(Oscillator(lightOpacity, lightFadeDirection), minLightOpacity, maxLightOpacity)
    }

    function Movement(): Motion
      reads this
    {
      Motion(x, y, vx, vy, facingDirection, lastMovementChangeTime, movementChangeInterval)
    }

    constructor (id: string, hasLight: bool, scale: real, worldMinY: real, worldMaxY: real,
                 canvasWidth: real, draws: SpawnDraws)
      ensures Valid() && Oscillating()
      ensures this.id == id && this.hasLight == hasLight && this.scale == scale
      ensures width == 120.0 * scale && height == 80.0 * scale
      ensures this.worldMinY == worldMinY && this.worldMaxY == worldMaxY
      ensures x == draws.x * (canvasWidth - width) && y == draws.y * (worldMaxY - worldMinY) + worldMinY
      ensures vx == draws.vx - 0.5 && vy == draws.vy - 0.5 && maxSpeed == 1.0
      ensures facingDirection == (if vx > 0.0 then 1 else -1)
      ensures scaleFactor == 1.0 && scaleDirection == 1 && !isSchooling
      ensures movementChangeInterval == draws.interval * 2000.0 + 1000.0 && lastMovementChangeTime == 0.0
      ensures lightOpacity == 0.0 && lightFadeDirection == 1 && currentOpacity == 0.1
      ensures !isHighlighting && highlightStartTime == 0.0
    {
      this.id := id;
      this.hasLight := hasLight;
      this.scale := scale;
      width := 120.0 * scale;
      height := 80.0 * scale;
      x := draws.x * (canvasWidth - 120.0 * scale);
      y := draws.y * (worldMaxY - worldMinY) + worldMinY;
      vx := (draws.vx - 0.5) * 1.0;
      vy := (draws.vy - 0.5) * 1.0;
      maxSpeed := 1.0;
      minSpeed := 0.3;
      facingDirection := if (draws.vx - 0.5) * 1.0 > 0.0 then 1 else -1;
      this.worldMinY := worldMinY;
      this.worldMaxY := worldMaxY;
      scaleFactor := 1.0;
      scaleDirection := 1;
      scaleSpeed := 0.005;
      minScale := 0.95;
      maxScale := 1.05;
      isSchooling := false;
      movementChangeInterval := draws.interval * 2000.0 + 1000.0;
      lastMovementChangeTime := 0.0;
      lightOpacity := 0.0;
      lightFadeDirection := 1;
      lightFadeSpeed := 0.005;
      maxLightOpacity := 0.9;
      minLightOpacity := 0.1;
      currentOpacity := 0.1;
      opacityTransitionSpeed := 0.05;
      isHighlighting := false;
      highlightDuration := 500.0;
      highlightStartTime := 0.0;
    }

    /** Starts the discovery highlight. */
    method TriggerHighlight(currentTime: real)
      modifies this`isHighlighting, this`highlightStartTime
      ensures isHighlighting && highlightStartTime == currentTime
    {
      isHighlighting := true;
      highlightStartTime := currentTime;
    }

    /**
     * One tick. `canvasWidth` is the width of the creature's canvas now;
     * `renorm` is the positive factor by which the speed limiter rescales the
     * velocity (1 when the speed is already within [minSpeed, maxSpeed]); its
     * square-root computation is not modelled.
     */
    method Update(currentTime: real, canvasWidth: real, draws: WanderDraws, renorm: real)
      requires Valid() && 0.0 < renorm
      modifies this
      ensures Valid() && (old(Oscillating()) ==> Oscillating())
      ensures isSchooling == old(isSchooling) && maxSpeed == old(maxSpeed)
      ensures old(isSchooling) ==> Movement() == old(Movement())
      ensures !old(isSchooling) ==>
                Movement() == RoamStep(old(Movement()), currentTime, canvasWidth, draws, renorm,
                                       maxSpeed, width, height, worldMinY, worldMaxY)
      ensures Oscillator(scaleFactor, scaleDirection) == ScaleStep(Oscillator(old(scaleFactor), old(scaleDirection)), scaleSpeed, minScale, maxScale)
      ensures hasLight ==> Oscillator(lightOpacity, lightFadeDirection)
                           == LightStep(Oscillator(old(lightOpacity), old(lightFadeDirection)), lightFadeSpeed, minLightOpacity, maxLightOpacity)
      ensures !hasLight ==> lightOpacity == old(lightOpacity) && lightFadeDirection == old(lightFadeDirection)
      ensures isHighlighting == (old(isHighlighting) && currentTime - highlightStartTime <= highlightDuration)
      ensures highlightStartTime == old(highlightStartTime) && currentOpacity == old(currentOpacity)
    {
      if !isSchooling {
        Roam(currentTime, canvasWidth, draws, renorm);
      }
      Breathe();
      if hasLight {
        Glow();
      }
      if isHighlighting && currentTime - highlightStartTime > highlightDuration {
        isHighlighting := false;
      }
    }

    /**
     * The independent movement of a non-schooling creature: wander, swim and
     * bounce, then face the velocity. (The source updates the scale between
     * the bounce and the facing; the two touch disjoint fields.)
     */
    method Roam(currentTime: real, canvasWidth: real, draws: WanderDraws, renorm: real)
      modifies this`x, this`y, this`vx, this`vy, this`facingDirection, this`lastMovementChangeTime, this`movementChangeInterval
      ensures Movement() == RoamStep(old(Movement()), currentTime, canvasWidth, draws, renorm,
                                     maxSpeed, width, height, worldMinY, worldMaxY)
    {
      Wander(currentTime, draws);
      Swim(canvasWidth, renorm);
      FaceVelocity();
    }

    /** A new random velocity and interval once the current interval has elapsed. */
    method Wander(currentTime: real, draws: WanderDraws)
      modifies this`vx, this`vy, this`lastMovementChangeTime, this`movementChangeInterval
      ensures Movement() == WanderStep(old(Movement()), currentTime, draws, maxSpeed)
    {
      if currentTime - lastMovementChangeTime > movementChangeInterval {
        vx := WanderVelocity(draws.vx, maxSpeed);
        vy := WanderVelocity(draws.vy, maxSpeed);
        lastMovementChangeTime := currentTime;
        movementChangeInterval := draws.interval * 2000.0 + 1000.0;
      }
    }

    /** Moves by the velocity, bounces off the canvas sides and the depth band, and applies the speed limiter. */
    method Swim(canvasWidth: real, renorm: real)
      modifies this`x, this`y, this`vx, this`vy, this`facingDirection
      ensures Movement() == SwimStep(old(Movement()), canvasWidth, renorm, width, height, worldMinY, worldMaxY)
    {
      SwimAcross(canvasWidth);
      SwimDown();
      vx := vx * renorm;
      vy := vy * renorm;
    }

    /** The horizontal move of `update`. */
    method SwimAcross(canvasWidth: real)
      modifies this`x, this`vx, this`facingDirection
      ensures Movement() == AcrossStep(old(Movement()), canvasWidth, width)
    {
      x := x + vx;
      if x < 0.0 {
        x := 0.0; vx := vx * -0.8; facingDirection := 1;
      } else if x + width > canvasWidth {
        x := canvasWidth - width; vx := vx * -0.8; facingDirection := -1;
      }
    }

    /** The vertical move of `update`. */
    method SwimDown()
      modifies this`y, this`vy
      ensures Movement() == DownStep(old(Movement()), height, worldMinY, worldMaxY)
    {
      y := y + vy;
      if y < worldMinY {
        y := worldMinY; vy := vy * -0.8;
      } else if y + height > worldMaxY {
        y := worldMaxY - height; vy := vy * -0.8;
      }
    }

    /** The breathing-scale step. */
    method Breathe()
      modifies this`scaleFactor, this`scaleDirection
      ensures minScale <= maxScale ==>
                Oscillator(scaleFactor, scaleDirection) == ScaleStep(Oscillator(old(scaleFactor), old(scaleDirection)), scaleSpeed, minScale, maxScale)
    {
      scaleFactor := scaleFactor + (scaleDirection as real) * scaleSpeed;
      if scaleFactor >= maxScale {
        scaleFactor := maxScale; scaleDirection := -1;
      } else if scaleFactor <= minScale {
        scaleFactor := minScale; scaleDirection := 1;
      }
    }

    /** Facing follows the sign of the horizontal velocity. */
    method FaceVelocity()
      modifies this`facingDirection
      ensures Movement() == FaceStep(old(Movement()))
    {
      if vx < 0.0 { facingDirection := -1; }
      else if vx > 0.0 { facingDirection := 1; }
    }

    /** The bioluminescence step. */
    method Glow()
      modifies this`lightOpacity, this`lightFadeDirection
      ensures 0.0 <= lightFadeSpeed && 0.0 <= minLightOpacity <= maxLightOpacity ==>
                Oscillator(lightOpacity, lightFadeDirection)
                == LightStep(Oscillator(old(lightOpacity), old(lightFadeDirection)), lightFadeSpeed, minLightOpacity, maxLightOpacity)
    {
      lightOpacity := lightOpacity + (lightFadeDirection as real) * lightFadeSpeed;
      if lightFadeDirection == 1 && lightOpacity >= maxLightOpacity {
        lightOpacity := maxLightOpacity; lightFadeDirection := -1;
      } else if lightFadeDirection == -1 && lightOpacity <= minLightOpacity {
        lightOpacity := minLightOpacity; lightFadeDirection := 1;
      }
    }

    /**
     * The state change of the draw step: the opacity moves 5% of the way
     * towards its target. Returns the grayscale percentage.
     */
    method Draw(darkness: real, spotlightOn: bool, creaturesInLight: seq<Creature>) returns (grayscale: real)
      requires Valid()
      modifies this`currentOpacity
      ensures var inLight := this in creaturesInLight;
              && currentOpacity == Lerp(old(currentOpacity), OpacityTarget(spotlightOn, inLight, darkness), opacityTransitionSpeed)
              && grayscale == Grayscale(spotlightOn, inLight, darkness)
      ensures 0.1 <= old(currentOpacity) <= 1.0 && 0.0 <= darkness <= 1.0 ==> 0.1 <= currentOpacity <= 1.0
    {
      var inLight := this in creaturesInLight;
      var targetOpacity: real;
      if spotlightOn && inLight {
        targetOpacity := 1.0;
        grayscale := 0.0;
      } else {
        targetOpacity := Max(0.1, 1.0 - darkness);
        grayscale := darkness * 100.0;
      }
      if 0.1 <= currentOpacity <= 1.0 && 0.0 <= darkness <= 1.0 {
        SmoothingApproachesTarget(currentOpacity, spotlightOn, inLight, darkness);
      }
      currentOpacity := Lerp(currentOpacity, targetOpacity, opacityTransitionSpeed);
    }
  }
}
