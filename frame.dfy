/**
 * The frame loop's decisions (src/components/Game/Game.js): keyboard state and
 * the steering it produces, the spotlight toggle, which creatures are lit,
 * discovering the first of them, the depth-zone lookup with its darkness
 * interpolation, the zone-name announcement and the numbers on the HUD.
 */
module Frame {
  import opened Wrappers
  import opened Config
  import opened Geometry
  import opened Creatures
  import opened Vessel
  import opened Schools
  import opened Screens
  import opened RadarView

  // ---------------------------------------------------------------- keys

  /** `toLowerCase` on the letters A to Z; every other character is kept. */
  function LowerChar(c: char): char
  {
    if 'A' <= c <= 'Z' then (c as int + 32) as char else c
  }

  function ToLower(s: string): (r: string)
    ensures |r| == |s|
    ensures forall i :: 0 <= i < |r| ==> !('A' <= r[i] <= 'Z')
    ensures forall i :: 0 <= i < |s| && !('A' <= s[i] <= 'Z') ==> r[i] == s[i]
    ensures forall i :: 0 <= i < |s| && 'A' <= s[i] <= 'Z' ==> r[i] as int == s[i] as int + 32
  {
    if |s| == 0 then "" else [LowerChar(s[0])] + ToLower(s[1..])
  }

  /** Lower-casing a key a second time changes nothing, so key-down and key-up agree on the name. */
  lemma {:induction false} ToLowerIsIdempotent(s: string)
    ensures ToLower(ToLower(s)) == ToLower(s)
    decreases |s|
  {
    if |s| > 0 {
      ToLowerIsIdempotent(s[1..]);
      assert ToLower(s)[1..] == ToLower(s[1..]);
    }
  }

  /** A key is held when it was last pressed and not released; a key never seen is not held. */
  predicate Held(keys: map<string, bool>, key: string)
  {
    key in keys && keys[key]
  }

  predicate LeftHeld(keys: map<string, bool>) { Held(keys, "arrowleft") || Held(keys, "a") }
  predicate RightHeld(keys: map<string, bool>) { Held(keys, "arrowright") || Held(keys, "d") }
  predicate UpHeld(keys: map<string, bool>) { Held(keys, "arrowup") || Held(keys, "w") }
  predicate DownHeld(keys: map<string, bool>) { Held(keys, "arrowdown") || Held(keys, "s") }

  predicate IsSpaceKey(key: string)
  {
    key == " " || key == "spacebar"
  }

  /** After a press and a release of the same physical key, that key is no longer held. */
  lemma PressThenReleaseIsUp(keys: map<string, bool>, pressed: string, released: string)
    requires ToLower(pressed) == ToLower(released)
    ensures !Held(keys[ToLower(pressed) := true][ToLower(released) := false], ToLower(pressed))
    ensures forall k :: k != ToLower(pressed) ==>
      (Held(keys[ToLower(pressed) := true][ToLower(released) := false], k) <==> Held(keys, k))
  {
  }

  // ---------------------------------------------------------------- light

  const LIGHT_LENGTH: real := 200.0
  const LIGHT_WIDTH_AT_END: real := 80.0
  /** Creatures within this distance of the hull's centre are lit by its ambient glow. */
  const AMBIENT_DETECTION_RADIUS: real := AMBIENT_LIGHT_RADIUS * 1.2

  /** The spotlight triangle in screen coordinates: the lamp, then the two far corners. */
  datatype Cone = Cone(x1: real, y1: real, x2: real, y2: real, x3: real, y3: real)

  /** The cone for a hull at (subX, visibleSubY) on screen, facing right when `facing == 1`. */
  function SpotlightCone(subX: real, visibleSubY: real, width: real, height: real, facing: int): (c: Cone)
    ensures c.x2 == c.x3 && c.y3 - c.y2 == LIGHT_WIDTH_AT_END && c.y2 + c.y3 == 2.0 * c.y1
    ensures facing == 1 ==> c.x2 - c.x1 == LIGHT_LENGTH
    ensures facing != 1 ==> c.x1 - c.x2 == LIGHT_LENGTH
    ensures width > 0.0 && facing == 1 ==> subX + width / 2.0 < c.x1 < subX + width
    ensures width > 0.0 && facing != 1 ==> subX < c.x1 < subX + width / 2.0
    ensures height > 0.0 ==> visibleSubY + height / 2.0 < c.y1 < visibleSubY + height
  {
    var sourceX := subX + (if facing == 1 then width * 0.8 else width * 0.2);
    var sourceY := visibleSubY + height * 0.6;
    var reach := if facing == 1 then LIGHT_LENGTH else -LIGHT_LENGTH;
    Cone(sourceX, sourceY,
         sourceX + reach, sourceY - LIGHT_WIDTH_AT_END / 2.0,
         sourceX + reach, sourceY + LIGHT_WIDTH_AT_END / 2.0)
  }

  function CentreX(c: Creature): real reads c { c.x + c.width / 2.0 }
  function CentreY(c: Creature): real reads c { c.y + c.height / 2.0 }

  /** The spotlight test, done in screen space (the creature's centre shifted up by the camera). */
  predicate InSpotlight(c: Creature, sub: Submarine, cameraY: real)
    reads c, sub
  {
    var cone := SpotlightCone(sub.x, sub.y - cameraY, sub.width, sub.height, sub.facingDirection);
    sub.isSpotlightOn
    && IsPointInTriangle(CentreX(c), CentreY(c) - cameraY, cone.x1, cone.y1, cone.x2, cone.y2, cone.x3, cone.y3)
  }

  /** The ambient glow, compared on squared distances. */
  predicate InAmbientLight(c: Creature, sub: Submarine)
    reads c, sub
  {
    var dx := CentreX(c) - (sub.x + sub.width / 2.0);
    var dy := CentreY(c) - (sub.y + sub.height / 2.0);
    dx * dx + dy * dy <= AMBIENT_DETECTION_RADIUS * AMBIENT_DETECTION_RADIUS
  }

  predicate IsLit(c: Creature, sub: Submarine, cameraY: real)
    reads c, sub
  {
    InSpotlight(c, sub, cameraY) || InAmbientLight(c, sub)
  }

  /** The screen-space test is the world-space test: the camera offset cancels out. */
  lemma SpotlightIsCameraIndependent(c: Creature, sub: Submarine, cameraY: real)
    ensures InSpotlight(c, sub, cameraY) == InSpotlight(c, sub, 0.0)
  {
    var cone := SpotlightCone(sub.x, sub.y - cameraY, sub.width, sub.height, sub.facingDirection);
    var world := SpotlightCone(sub.x, sub.y, sub.width, sub.height, sub.facingDirection);
    assert world == Cone(cone.x1, cone.y1 + cameraY, cone.x2, cone.y2 + cameraY, cone.x3, cone.y3 + cameraY);
    TranslationInvariant(CentreX(c), CentreY(c) - cameraY, cone.x1, cone.y1, cone.x2, cone.y2, cone.x3, cone.y3, 0.0, cameraY);
  }

  /** The spotlight never reaches a creature whose centre is behind the lamp. */
  lemma NothingBehindTheLampIsSpotlit(c: Creature, sub: Submarine, cameraY: real)
    requires sub.facingDirection == 1 ==> CentreX(c) < SpotlightCone(sub.x, sub.y - cameraY, sub.width, sub.height, 1).x1
    requires sub.facingDirection != 1 ==> CentreX(c) > SpotlightCone(sub.x, sub.y - cameraY, sub.width, sub.height, sub.facingDirection).x1
    ensures !InSpotlight(c, sub, cameraY)
  {
    var k := SpotlightCone(sub.x, sub.y - cameraY, sub.width, sub.height, sub.facingDirection);
    var px, py := CentreX(c), CentreY(c) - cameraY;
    ConeOrientation(k);
    if sub.facingDirection == 1 {
      assert Sign(k.x1, k.y1, k.x2, k.y2, k.x3, k.y3) == LIGHT_LENGTH * LIGHT_WIDTH_AT_END;
      LeftOfTriangleIsOutside(px, py, k.x1, k.y1, k.x2, k.y2, k.x3, k.y3);
    } else {
      assert Sign(-k.x1, k.y1, -k.x2, k.y2, -k.x3, k.y3) == LIGHT_LENGTH * LIGHT_WIDTH_AT_END;
      LeftOfTriangleIsOutside(-px, py, -k.x1, k.y1, -k.x2, k.y2, -k.x3, k.y3);
      MirrorInvariant(px, py, k.x1, k.y1, k.x2, k.y2, k.x3, k.y3);
    }
  }

  /** The orientation of a cone whose far edge is vertical, as drawn and mirrored. */
  lemma ConeOrientation(k: Cone)
    requires k.x2 == k.x3 && k.y3 - k.y2 == LIGHT_WIDTH_AT_END
    ensures Sign(k.x1, k.y1, k.x2, k.y2, k.x3, k.y3) == (k.x2 - k.x1) * LIGHT_WIDTH_AT_END
    ensures Sign(-k.x1, k.y1, -k.x2, k.y2, -k.x3, k.y3) == (k.x1 - k.x2) * LIGHT_WIDTH_AT_END
  {
  }

  /** A creature centred on the lamp itself is in the spotlight whenever the light is on. */
  lemma LampIsSpotlit(c: Creature, sub: Submarine, cameraY: real)
    requires sub.isSpotlightOn
    requires CentreX(c) == SpotlightCone(sub.x, sub.y - cameraY, sub.width, sub.height, sub.facingDirection).x1
    requires CentreY(c) - cameraY == SpotlightCone(sub.x, sub.y - cameraY, sub.width, sub.height, sub.facingDirection).y1
    ensures IsLit(c, sub, cameraY)
  {
    var k := SpotlightCone(sub.x, sub.y - cameraY, sub.width, sub.height, sub.facingDirection);
    VerticesAreInside(k.x1, k.y1, k.x2, k.y2, k.x3, k.y3);
  }

  /** The creatures the frame loop considers: the school's members (when there is a school), then the individuals. */
  function AllCreatures(school: Option<School>, individuals: seq<Creature>): seq<Creature>
    reads if school.Some? then {school.value} else {}
  {
    (if school.Some? then school.value.members else []) + individuals
  }

  /** The lit creatures, in the order they are examined. */
  function LitCreatures(cs: seq<Creature>, sub: Submarine, cameraY: real): seq<Creature>
    reads cs, sub
    decreases |cs|
  {
    if |cs| == 0 then []
    else
      var last := cs[|cs| - 1];
      LitCreatures(cs[..|cs| - 1], sub, cameraY) + (if IsLit(last, sub, cameraY) then [last] else [])
  }

  /** Exactly the lit creatures are kept. */
  lemma {:induction false} LitCreaturesAreTheLitOnes(cs: seq<Creature>, sub: Submarine, cameraY: real)
    ensures |LitCreatures(cs, sub, cameraY)| <= |cs|
    ensures forall i :: 0 <= i < |LitCreatures(cs, sub, cameraY)| ==>
      LitCreatures(cs, sub, cameraY)[i] in cs && IsLit(LitCreatures(cs, sub, cameraY)[i], sub, cameraY)
    ensures forall i :: 0 <= i < |cs| && IsLit(cs[i], sub, cameraY) ==> cs[i] in LitCreatures(cs, sub, cameraY)
    decreases |cs|
  {
    if |cs| > 0 {
      var front := cs[..|cs| - 1];
      LitCreaturesAreTheLitOnes(front, sub, cameraY);
      assert forall i :: 0 <= i < |cs| - 1 ==> cs[i] == front[i];
      assert forall c :: c in front ==> c in cs;
    }
  }

  /** Examining one more creature appends it exactly when it is lit. */
  lemma LitCreaturesSnoc(cs: seq<Creature>, c: Creature, sub: Submarine, cameraY: real)
    ensures LitCreatures(cs + [c], sub, cameraY)
            == LitCreatures(cs, sub, cameraY) + (if IsLit(c, sub, cameraY) then [c] else [])
  {
    assert (cs + [c])[..|cs|] == cs;
  }

  /** One more step of the scan over a prefix of `all`. */
  lemma LitCreaturesStep(all: seq<Creature>, i: nat, lit: seq<Creature>, isLit: bool, sub: Submarine, cameraY: real)
    requires i < |all| && lit == LitCreatures(all[..i], sub, cameraY) && isLit == IsLit(all[i], sub, cameraY)
    ensures (if isLit then lit + [all[i]] else lit) == LitCreatures(all[..i + 1], sub, cameraY)
  {
    assert all[..i + 1] == all[..i] + [all[i]];
    LitCreaturesSnoc(all[..i], all[i], sub, cameraY);
  }

  /** Filtering keeps order: the lit part of a concatenation is the concatenation of the lit parts. */
  lemma {:induction false} LitCreaturesOfConcat(a: seq<Creature>, b: seq<Creature>, sub: Submarine, cameraY: real)
    ensures LitCreatures(a + b, sub, cameraY) == LitCreatures(a, sub, cameraY) + LitCreatures(b, sub, cameraY)
    decreases |b|
  {
    if |b| > 0 {
      var b' := b[..|b| - 1];
      assert (a + b)[..|a + b| - 1] == a + b';
      assert (a + b)[|a + b| - 1] == b[|b| - 1];
      LitCreaturesOfConcat(a, b', sub, cameraY);
    } else {
      assert a + b == a;
    }
  }

  /** When every creature is lit, nothing is filtered out. */
  lemma {:induction false} AllLitKeepsAll(cs: seq<Creature>, sub: Submarine, cameraY: real)
    requires forall i :: 0 <= i < |cs| ==> IsLit(cs[i], sub, cameraY)
    ensures LitCreatures(cs, sub, cameraY) == cs
    decreases |cs|
  {
    if |cs| > 0 {
      AllLitKeepsAll(cs[..|cs| - 1], sub, cameraY);
      assert cs[..|cs| - 1] + [cs[|cs| - 1]] == cs;
    }
  }

  /** The first lit creature, which is the one an Enter press discovers. */
  function FirstLit(cs: seq<Creature>, sub: Submarine, cameraY: real): (r: Option<Creature>)
    reads cs, sub
    ensures r.None? <==> forall i :: 0 <= i < |cs| ==> !IsLit(cs[i], sub, cameraY)
    ensures r.Some? ==> exists k :: 0 <= k < |cs| && cs[k] == r.value && IsLit(cs[k], sub, cameraY)
                                    && forall j :: 0 <= j < k ==> !IsLit(cs[j], sub, cameraY)
  {
    var lit := LitCreatures(cs, sub, cameraY);
    LitCreaturesAreTheLitOnes(cs, sub, cameraY);
    if |lit| > 0 then
      FirstLitIsEarliest(cs, sub, cameraY);
      Some(lit[0])
    else
      assert forall i :: 0 <= i < |cs| ==> cs[i] in cs;
      None
  }

  lemma {:induction false} FirstLitIsEarliest(cs: seq<Creature>, sub: Submarine, cameraY: real)
    requires |LitCreatures(cs, sub, cameraY)| > 0
    ensures exists k :: 0 <= k < |cs| && cs[k] == LitCreatures(cs, sub, cameraY)[0] && IsLit(cs[k], sub, cameraY)
                        && forall j :: 0 <= j < k ==> !IsLit(cs[j], sub, cameraY)
    decreases |cs|
  {
    var front := cs[..|cs| - 1];
    var last := cs[|cs| - 1];
    var litFront := LitCreatures(front, sub, cameraY);
    assert LitCreatures(cs, sub, cameraY) == litFront + (if IsLit(last, sub, cameraY) then [last] else []);
    if |litFront| > 0 {
      FirstLitIsEarliest(front, sub, cameraY);
      var k :| 0 <= k < |front| && front[k] == litFront[0] && IsLit(front[k], sub, cameraY)
               && forall j :: 0 <= j < k ==> !IsLit(front[j], sub, cameraY);
      assert cs[k] == front[k];
      assert LitCreatures(cs, sub, cameraY)[0] == litFront[0];
      forall j | 0 <= j < k
        ensures !IsLit(cs[j], sub, cameraY)
      {
        assert cs[j] == front[j];
      }
    } else {
      LitCreaturesAreTheLitOnes(front, sub, cameraY);
      assert LitCreatures(cs, sub, cameraY) == [last];
      forall j | 0 <= j < |cs| - 1
        ensures !IsLit(cs[j], sub, cameraY)
      {
        assert cs[j] == front[j] && front[j] in front;
      }
      assert cs[|cs| - 1] == last;
    }
  }

  /**
   * The loop body's two tests for one creature, against the cone and hull
   * centre that the caller computes once per call (they are hoisted out of
   * the loop at Game.js:169-183); the classification itself is `IsLit`.
   */
  method Illuminated(creature: Creature, sub: Submarine, cone: Cone, subCentreX: real, subCentreY: real, cameraY: real)
    returns (isLit: bool)
    requires cone == SpotlightCone(sub.x, sub.y - cameraY, sub.width, sub.height, sub.facingDirection)
    requires subCentreX == sub.x + sub.width / 2.0 && subCentreY == sub.y + sub.height / 2.0
    ensures isLit == IsLit(creature, sub, cameraY)
  {
    var centreX := creature.x + creature.width / 2.0;
    var centreY := creature.y + creature.height / 2.0;
    var inSpotlight := sub.isSpotlightOn
      && IsPointInTriangle(centreX, centreY - cameraY, cone.x1, cone.y1, cone.x2, cone.y2, cone.x3, cone.y3);
    var dx := centreX - subCentreX;
    var dy := centreY - subCentreY;
    var inAmbientLight := dx * dx + dy * dy <= AMBIENT_DETECTION_RADIUS * AMBIENT_DETECTION_RADIUS;
    isLit := inSpotlight || inAmbientLight;
  }

  /**
   * `getCreaturesInLight`: the cone is fixed once per call, then every creature
   * is checked in turn and the lit ones are collected.
   */
  method CreaturesInLight(sub: Submarine, school: Option<School>, individuals: seq<Creature>, cameraY: real)
    returns (lit: seq<Creature>)
    ensures lit == LitCreatures(AllCreatures(school, individuals), sub, cameraY)
  {
    var cone := SpotlightCone(sub.x, sub.y - cameraY, sub.width, sub.height, sub.facingDirection);
    var subCentreX := sub.x + sub.width / 2.0;
    var subCentreY := sub.y + sub.height / 2.0;
    var all := (if school.Some? then school.value.members else []) + individuals;
    assert all == AllCreatures(school, individuals);
    lit := [];
    var i := 0;
    assert all[..0] == [];
    while i < |all|
      invariant 0 <= i <= |all|
      invariant lit == LitCreatures(all[..i], sub, cameraY)
    {
      var creature := all[i];
      var isLit := Illuminated(creature, sub, cone, subCentreX, subCentreY, cameraY);
      LitCreaturesStep(all, i, lit, isLit, sub, cameraY);
      if isLit {
        lit := lit + [creature];
      }
      assert lit == LitCreatures(all[..i + 1], sub, cameraY);
      i := i + 1;
    }
    assert all[..|all|] == all;
  }

  // ---------------------------------------------------------------- zones

  const UNKNOWN_ZONE_NAME: string := "Zona Desconocida"

  /** Some zone of the table starts at or above the camera. */
  predicate Reached(zones: seq<Zone>, cameraY: real)
  {
    exists i :: 0 <= i < |zones| && cameraY >= zones[i].depth
  }

  /** Among the first n zones, the last one whose depth the camera has reached, or 0 when none. */
  function LastReached(zones: seq<Zone>, cameraY: real, n: nat): (i: nat)
    requires n <= |zones|
    ensures n > 0 ==> i < n
    ensures n == 0 ==> i == 0
    ensures i > 0 ==> cameraY >= zones[i].depth
    ensures forall j :: i < j < n ==> cameraY < zones[j].depth
    ensures (exists j :: 0 <= j < n && cameraY >= zones[j].depth) ==> cameraY >= zones[i].depth
    decreases n
  {
    if n == 0 then 0
    else if cameraY >= zones[n - 1].depth then n - 1
    else LastReached(zones, cameraY, n - 1)
  }

  /** The zone index is the only index reached with nothing reached after it. */
  lemma LastReachedIsUnique(zones: seq<Zone>, cameraY: real, k: nat)
    requires k < |zones| && cameraY >= zones[k].depth
    requires forall j :: k < j < |zones| ==> cameraY < zones[j].depth
    ensures LastReached(zones, cameraY, |zones|) == k
  {
  }

  /** On a valid table, below the surface the zone found is the band that holds the camera. */
  lemma {:induction false} ZoneLookupFindsBand(zones: seq<Zone>, cameraY: real, k: nat)
    requires ValidZoneTable(zones)
    requires k < |zones| && zones[k].depth <= cameraY
    requires k + 1 < |zones| ==> cameraY < zones[k + 1].depth
    ensures LastReached(zones, cameraY, |zones|) == k
  {
    forall j | k < j < |zones|
      ensures cameraY < zones[j].depth
    {
      assert zones[k + 1].depth <= zones[j].depth;
    }
    LastReachedIsUnique(zones, cameraY, k);
  }

  /** The zone loop and the choice of the next zone (the same zone at the end of the table). */
  method FindZone(zones: seq<Zone>, cameraY: real) returns (zoneIndex: nat, currentZone: Zone, nextZone: Zone)
    requires |zones| > 0
    ensures zoneIndex == LastReached(zones, cameraY, |zones|)
    ensures zoneIndex < |zones| && currentZone == zones[zoneIndex]
    ensures zoneIndex + 1 < |zones| ==> nextZone == zones[zoneIndex + 1]
    ensures zoneIndex + 1 == |zones| ==> nextZone == currentZone
  {
    currentZone := zones[0];
    zoneIndex := 0;
    var i := 0;
    while i < |zones|
      invariant 0 <= i <= |zones|
      invariant zoneIndex == LastReached(zones, cameraY, i) && zoneIndex < |zones|
      invariant currentZone == zones[zoneIndex]
    {
      if cameraY >= zones[i].depth {
        currentZone := zones[i];
        zoneIndex := i;
      }
      i := i + 1;
    }
    if zoneIndex + 1 < |zones| {
      nextZone := zones[zoneIndex + 1];
    } else {
      nextZone := currentZone;
    }
  }

  /** How far the camera has gone from the current zone towards the next, clamped to [0, 1]. */
  function InterpolationFactor(current: Zone, next: Zone, lastDepth: real, cameraY: real): (f: real)
    ensures 0.0 <= f <= 1.0
    ensures current.depth < next.depth && current.depth <= cameraY <= next.depth ==>
              current.depth + f * (next.depth - current.depth) == cameraY
    ensures current.depth < next.depth && cameraY <= current.depth ==> f == 0.0
    ensures current.depth < next.depth && next.depth <= cameraY ==> f == 1.0
    ensures current.depth == next.depth ==> (f == 1.0 <==> cameraY >= current.depth && current.depth == lastDepth)
  {
    if next.depth != current.depth then
      var t := (cameraY - current.depth) / (next.depth - current.depth);
      ProgressThroughBand(current.depth, next.depth, cameraY);
      Min(1.0, Max(0.0, t))
    else if cameraY >= current.depth && current.depth == lastDepth then 1.0
    else 0.0
  }

  /** The unclamped progress through a band `[lo, hi]`: below 0 above it, above 1 below it, exact inside. */
  lemma ProgressThroughBand(lo: real, hi: real, y: real)
    requires lo != hi
    ensures var t := (y - lo) / (hi - lo);
      && (lo < hi && y <= lo ==> t <= 0.0)
      && (lo < hi && hi <= y ==> t >= 1.0)
      && (lo < hi && lo <= y <= hi ==> 0.0 <= t <= 1.0 && lo + t * (hi - lo) == y)
  {
    var t := (y - lo) / (hi - lo);
    assert t * (hi - lo) == y - lo;
    if lo < hi {
      if y <= lo {
        assert (-t) * (hi - lo) == lo - y;
        CancelPositive(-t, hi - lo);
      }
      if lo <= y {
        CancelPositive(t, hi - lo);
      }
      if hi <= y {
        assert (t - 1.0) * (hi - lo) == y - hi;
        CancelPositive(t - 1.0, hi - lo);
      }
      if y <= hi {
        assert (1.0 - t) * (hi - lo) == hi - y;
        CancelPositive(1.0 - t, hi - lo);
      }
    }
  }

  function InterpolatedDarkness(current: Zone, next: Zone, lastDepth: real, cameraY: real): (d: real)
    ensures Min(current.darknessLevel, next.darknessLevel) <= d <= Max(current.darknessLevel, next.darknessLevel)
  {
    Lerp(current.darknessLevel, next.darknessLevel, InterpolationFactor(current, next, lastDepth, cameraY))
  }

  function NextZoneIndex(zones: seq<Zone>, i: nat): nat
  {
    if i + 1 < |zones| then i + 1 else i
  }

  /** The darkness of the water at a camera depth, from the table. */
  function DarknessAt(zones: seq<Zone>, cameraY: real): (d: real)
    requires |zones| > 0
    ensures DarknessInUnitRange(zones) ==> 0.0 <= d <= 1.0
  {
    var i := LastReached(zones, cameraY, |zones|);
    var current, next := zones[i], zones[NextZoneIndex(zones, i)];
    InterpolatedDarkness(current, next, zones[|zones| - 1].depth, cameraY)
  }

  /** At the depth where a zone starts, the water has exactly that zone's darkness. */
  lemma DarknessAtZoneStart(zones: seq<Zone>, k: nat)
    requires ValidZoneTable(zones) && k < |zones|
    ensures DarknessAt(zones, zones[k].depth) == zones[k].darknessLevel
  {
    var cameraY := zones[k].depth;
    if k + 1 < |zones| {
      assert cameraY < zones[k + 1].depth;
    }
    ZoneLookupFindsBand(zones, cameraY, k);
  }

  /** At or below the last zone's depth the darkness is the last zone's. */
  lemma DarknessBelowLastZone(zones: seq<Zone>, cameraY: real)
    requires ValidZoneTable(zones) && cameraY >= zones[|zones| - 1].depth
    ensures DarknessAt(zones, cameraY) == zones[|zones| - 1].darknessLevel
  {
    ZoneLookupFindsBand(zones, cameraY, |zones| - 1);
  }

  /** Between two zone depths the darkness lies between the two zones' levels. */
  lemma DarknessBetweenZones(zones: seq<Zone>, cameraY: real, k: nat)
    requires ValidZoneTable(zones) && k + 1 < |zones|
    requires zones[k].depth <= cameraY < zones[k + 1].depth
    ensures Min(zones[k].darknessLevel, zones[k + 1].darknessLevel) <= DarknessAt(zones, cameraY)
            <= Max(zones[k].darknessLevel, zones[k + 1].darknessLevel)
  {
    ZoneLookupFindsBand(zones, cameraY, k);
  }

  /** The name the frame loop announces: the reached zone's, or the unknown-zone name above the table. */
  function ZoneName(zones: seq<Zone>, cameraY: real): string
    requires |zones| > 0
  {
    if Reached(zones, cameraY) then zones[LastReached(zones, cameraY, |zones|)].name else UNKNOWN_ZONE_NAME
  }

  /**
   * The backwards name scan: the first zone from the end that the camera has
   * reached gives the name. It agrees with the forwards zone lookup.
   */
  method ZoneNameScan(zones: seq<Zone>, cameraY: real) returns (name: string)
    ensures Reached(zones, cameraY) ==> name == zones[LastReached(zones, cameraY, |zones|)].name
    ensures !Reached(zones, cameraY) ==> name == UNKNOWN_ZONE_NAME
    ensures |zones| > 0 ==> name == ZoneName(zones, cameraY)
  {
    name := UNKNOWN_ZONE_NAME;
    var i := |zones| - 1;
    while i >= 0
      invariant -1 <= i < |zones|
      invariant forall j :: i < j < |zones| ==> cameraY < zones[j].depth
    {
      if cameraY >= zones[i].depth {
        name := zones[i].name;
        LastReachedIsUnique(zones, cameraY, i);
        return;
      }
      i := i - 1;
    }
  }

  lemma NoZoneIsNamedUnknown()
    ensures forall i :: 0 <= i < |ZONE_COLORS| ==> ZONE_COLORS[i].name != UNKNOWN_ZONE_NAME
  {
    forall i | 0 <= i < |ZONE_COLORS|
      ensures ZONE_COLORS[i].name != UNKNOWN_ZONE_NAME
    {
      assert ZONE_COLORS[i].name[5] != UNKNOWN_ZONE_NAME[5];
    }
  }

  /** In the game's table the unknown-zone name appears exactly above the surface. */
  lemma UnknownZoneOnlyAboveSurface(cameraY: real)
    ensures ZoneName(ZONE_COLORS, cameraY) == UNKNOWN_ZONE_NAME <==> cameraY < 0.0
  {
    ZoneTableIsValid();
    NoZoneIsNamedUnknown();
    if cameraY >= 0.0 {
      assert cameraY >= ZONE_COLORS[0].depth;
    } else {
      forall i | 0 <= i < |ZONE_COLORS|
        ensures cameraY < ZONE_COLORS[i].depth
      {
        assert ZONE_COLORS[0].depth <= ZONE_COLORS[i].depth;
      }
    }
  }

  // ---------------------------------------------------------------- HUD

  /** The depth counter: whole metres, never negative. */
  function DepthMeters(cameraY: real): (m: int)
    ensures m >= 0
    ensures cameraY >= 0.0 ==> (m as real) * PIXELS_PER_METER <= cameraY < (m as real + 1.0) * PIXELS_PER_METER
    ensures cameraY < PIXELS_PER_METER ==> m == 0
  {
    var metres := (cameraY / PIXELS_PER_METER).Floor;
    if metres < 0 then 0 else metres
  }

  /** The battery read-out: the whole percentage of a full charge. */
  function BatteryPercentage(level: real): (p: int)
    ensures p as real <= level / SPOTLIGHT_MAX_BATTERY * 100.0 < p as real + 1.0
    ensures 0.0 <= level <= SPOTLIGHT_MAX_BATTERY ==> 0 <= p <= 100
    ensures 0.0 <= level <= SPOTLIGHT_MAX_BATTERY ==> (p == 100 <==> level == SPOTLIGHT_MAX_BATTERY)
  {
    (level / SPOTLIGHT_MAX_BATTERY * 100.0).Floor
  }

  // ---------------------------------------------------------------- radar

  /**
   * The frame loop's radar update: the radar is active while the spotlight is
   * on and detects something while any creature is lit.
   */
  method UpdateRadarDisplay(radar: Radar, sub: Submarine, school: Option<School>, individuals: seq<Creature>,
                            cameraY: real, size: real, drawX: real, drawY: real)
    returns (dotShown: bool)
    modifies radar
    ensures var detected := |LitCreatures(AllCreatures(school, individuals), sub, cameraY)| > 0;
      && (sub.isSpotlightOn && detected && old(radar.dotX) == None ==>
            radar.dotX == Some(DotCoordinate(drawX, size)) && radar.dotY == Some(DotCoordinate(drawY, size)))
      && (sub.isSpotlightOn && detected && old(radar.dotX).Some? ==>
            radar.dotX == old(radar.dotX) && radar.dotY == old(radar.dotY))
      && (!sub.isSpotlightOn || !detected ==> radar.dotX == None && radar.dotY == None)
      && (size / 2.0 - RIM_GAP > 0.0 ==> radar.rotationAngle == Sweep(old(radar.rotationAngle), sub.isSpotlightOn))
      && (size / 2.0 - RIM_GAP > 0.0 ==> (dotShown <==> detected && radar.dotX.Some? && radar.dotY.Some?))
      && (size / 2.0 - RIM_GAP <= 0.0 ==> radar.rotationAngle == old(radar.rotationAngle) && !dotShown)
  {
    var isActive := sub.isSpotlightOn;
    var creaturesFound := CreaturesInLight(sub, school, individuals, cameraY);
    var hasDetection := |creaturesFound| > 0;
    ghost var lit := LitCreatures(AllCreatures(school, individuals), sub, cameraY);
    dotShown := radar.UpdateDisplay(isActive, hasDetection, size, drawX, drawY);
    assert lit == LitCreatures(AllCreatures(school, individuals), sub, cameraY);
  }

  // ---------------------------------------------------------------- the game view

  /**
   * `handleEnterPress`: with the spotlight on and something lit, the first lit
   * creature is shown in the detail modal and recorded as discovered.
   */
  method HandleEnterPress(sub: Submarine, school: Option<School>, individuals: seq<Creature>, cameraY: real, app: App)
    returns (found: Option<Creature>)
    modifies app
    ensures !sub.isSpotlightOn ==> found == None
    ensures sub.isSpotlightOn ==> found == FirstLit(AllCreatures(school, individuals), sub, cameraY)
    ensures found.None? ==> unchanged(app)
    ensures found.Some? ==>
      && app.selectedCreature == Some(found.value.id)
      && app.currentScreen == CREATURE_MODAL && app.isPaused
      && app.discoveredCreatures == Discover(old(app.discoveredCreatures), found.value.id)
  {
    if !sub.isSpotlightOn {
      return None;
    }
    var creatures := CreaturesInLight(sub, school, individuals, cameraY);
    ghost var first := FirstLit(AllCreatures(school, individuals), sub, cameraY);
    assert first == if |creatures| > 0 then Some(creatures[0]) else None;
    if |creatures| > 0 {
      var foundCreature := creatures[0];
      app.HandleShowCreatureModal(foundCreature.id);
      app.HandleCreatureDiscovery(foundCreature.id);
      found := Some(foundCreature);
    } else {
      found := None;
    }
    assert first == FirstLit(AllCreatures(school, individuals), sub, cameraY);
  }

  /**
   * The game component's own state: the keyboard map, the last zone name shown,
   * and its local game state, whose screen is the constant "game" and whose
   * paused flag is never set.
   */
  class GameView {
    var keys: map<string, bool>
    var lastDisplayedZoneName: string
    const currentScreen: string
    const gamePaused: bool

    constructor ()
      ensures keys == map[] && lastDisplayedZoneName == ""
      ensures currentScreen == GAME && !gamePaused
    {
      keys := map[];
      lastDisplayedZoneName := "";
      currentScreen := GAME;
      gamePaused := false;
    }

    /**
     * `handleKeyDown`: records the key as held; a fresh space press toggles the
     * spotlight, a fresh Enter press runs the discovery, Escape pauses the app.
     */
    method HandleKeyDown(rawKey: string, repeat: bool, sub: Submarine, school: Option<School>,
                         individuals: seq<Creature>, cameraY: real, app: App)
      returns (found: Option<Creature>)
      modifies this`keys, sub`isSpotlightOn, app
      ensures keys == old(keys)[ToLower(rawKey) := true]
      ensures IsSpaceKey(ToLower(rawKey)) && !repeat && currentScreen == GAME ==>
                sub.isSpotlightOn == !old(sub.isSpotlightOn)
      ensures !(IsSpaceKey(ToLower(rawKey)) && !repeat && currentScreen == GAME) ==>
                sub.isSpotlightOn == old(sub.isSpotlightOn)
      ensures ToLower(rawKey) == "enter" && !repeat && currentScreen == GAME && sub.isSpotlightOn ==>
                found == FirstLit(AllCreatures(school, individuals), sub, cameraY)
      ensures found.Some? ==>
                && ToLower(rawKey) == "enter" && !repeat && sub.isSpotlightOn
                && app.selectedCreature == Some(found.value.id)
                && app.currentScreen == CREATURE_MODAL && app.isPaused
                && app.discoveredCreatures == Discover(old(app.discoveredCreatures), found.value.id)
      ensures ToLower(rawKey) == "escape" ==>
                && app.currentScreen == PAUSE && app.isPaused
                && app.selectedCreature == old(app.selectedCreature)
                && app.discoveredCreatures == old(app.discoveredCreatures)
      ensures found.None? && ToLower(rawKey) != "escape" ==> unchanged(app)
    {
      var key := ToLower(rawKey);
      keys := keys[key := true];
      if IsSpaceKey(key) && !repeat && currentScreen == GAME {
        sub.isSpotlightOn := !sub.isSpotlightOn;
      }
      found := None;
      if key == "enter" && !repeat {
        if currentScreen == GAME {
          found := HandleEnterPress(sub, school, individuals, cameraY, app);
        }
      }
      if key == "escape" {
        app.HandleGamePause();
      }
    }

    /** `handleKeyUp`: the key is no longer held. */
    method HandleKeyUp(rawKey: string)
      modifies this`keys
      ensures keys == old(keys)[ToLower(rawKey) := false]
      ensures !Held(keys, ToLower(rawKey))
      ensures forall k :: k != ToLower(rawKey) ==> (Held(keys, k) <==> Held(old(keys), k))
    {
      keys := keys[ToLower(rawKey) := false];
    }

    /**
     * `handleInput`: both directions are cleared, then left, then right (which
     * so wins), then up or else down.
     */
    method HandleInput(sub: Submarine)
      modifies sub`horizontalDirection, sub`verticalDirection
      ensures RightHeld(keys) ==> sub.horizontalDirection == 1
      ensures LeftHeld(keys) && !RightHeld(keys) ==> sub.horizontalDirection == -1
      ensures !LeftHeld(keys) && !RightHeld(keys) ==> sub.horizontalDirection == 0
      ensures UpHeld(keys) ==> sub.verticalDirection == -1
      ensures DownHeld(keys) && !UpHeld(keys) ==> sub.verticalDirection == 1
      ensures !UpHeld(keys) && !DownHeld(keys) ==> sub.verticalDirection == 0
    {
      sub.horizontalDirection := 0;
      sub.verticalDirection := 0;
      if Held(keys, "arrowleft") || Held(keys, "a") {
        sub.horizontalDirection := -1;
      }
      if Held(keys, "arrowright") || Held(keys, "d") {
        sub.horizontalDirection := 1;
      }
      if Held(keys, "arrowup") || Held(keys, "w") {
        sub.verticalDirection := -1;
      } else if Held(keys, "arrowdown") || Held(keys, "s") {
        sub.verticalDirection := 1;
      } else {
        sub.verticalDirection := 0;
      }
    }

    /** The zone message is shown only when the zone name differs from the last one shown. */
    method AnnounceZone(name: string) returns (message: Option<string>)
      modifies this`lastDisplayedZoneName
      ensures lastDisplayedZoneName == name
      ensures message.Some? <==> name != old(lastDisplayedZoneName)
      ensures message.Some? ==> message.value == name
    {
      message := None;
      if name != lastDisplayedZoneName {
        message := Some(name);
        lastDisplayedZoneName := name;
      }
    }

    /**
     * The part of the frame that reads the camera depth: the zone and its
     * darkness, the HUD numbers and the zone announcement.
     */
    method ZoneAndHud(cameraY: real, batteryLevel: real)
      returns (darkness: real, depthMeters: int, batteryPercentage: int, zoneMessage: Option<string>)
      modifies this`lastDisplayedZoneName
      ensures darkness == DarknessAt(ZONE_COLORS, cameraY) && 0.0 <= darkness <= 1.0
      ensures depthMeters == DepthMeters(cameraY)
      ensures batteryPercentage == BatteryPercentage(batteryLevel)
      ensures lastDisplayedZoneName == ZoneName(ZONE_COLORS, cameraY)
      ensures zoneMessage.Some? <==> ZoneName(ZONE_COLORS, cameraY) != old(lastDisplayedZoneName)
    {
      ZoneTableIsValid();
      var zoneIndex, currentZone, nextZone := FindZone(ZONE_COLORS, cameraY);
      darkness := InterpolatedDarkness(currentZone, nextZone, ZONE_COLORS[|ZONE_COLORS| - 1].depth, cameraY);
      depthMeters := DepthMeters(cameraY);
      batteryPercentage := BatteryPercentage(batteryLevel);
      var name := ZoneNameScan(ZONE_COLORS, cameraY);
      zoneMessage := AnnounceZone(name);
    }
  }
}
