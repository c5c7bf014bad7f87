/**
 * The flocking school of src/game/game.js: the flee/reunite state machine,
 * whose two `setTimeout` callbacks become explicit timer events, the
 * state-dependent steering weights, the school's facing, and the final
 * clamp and facing rule applied to every member.
 */
module Schools {
  import opened Wrappers
  import opened Geometry
  import opened Creatures
  import opened Vessel

  /**
   * The school's flee state: whether it flees, whether it is regrouping,
   * whether the reunite-delay timer is armed, and how many 3000 ms
   * end-of-regrouping timers are pending (they are never cancelled).
   */
  datatype FleeState = FleeState(isFleeing: bool, reuniting: bool, fleeingTimeout: bool, reuniteTimers: nat)

  const Calm := FleeState(false, false, false, 0)

  /** Never fleeing and regrouping at once; the reunite-delay timer is armed only while fleeing. */
  predicate Consistent(s: FleeState)
  {
    !(s.isFleeing && s.reuniting) && (s.fleeingTimeout ==> s.isFleeing)
  }

  /**
   * The proximity step of each tick: a member near the submarine makes the
   * school flee, stops any regrouping and disarms the reunite-delay timer;
   * otherwise a fleeing school with no armed timer arms it.
   */
  function OnProximity(s: FleeState, close: bool): (r: FleeState)
    ensures Consistent(s) ==> Consistent(r)
    ensures close ==> r.isFleeing && !r.reuniting && !r.fleeingTimeout
    ensures !close && s.isFleeing && !s.fleeingTimeout ==> r.isFleeing && r.fleeingTimeout
    ensures !close ==> r.isFleeing == s.isFleeing && r.reuniting == s.reuniting
    ensures !close && !s.isFleeing ==> r == s
    ensures r.reuniteTimers == s.reuniteTimers
  {
    if close then FleeState(true, false, false, s.reuniteTimers)
    else if s.isFleeing && !s.fleeingTimeout then s.(fleeingTimeout := true)
    else s
  }

  /** The reunite-delay timer fires: stop fleeing, start regrouping, arm a 3000 ms end-of-regrouping timer. */
  function OnFleeTimeout(s: FleeState): (r: FleeState)
    requires s.fleeingTimeout
    ensures Consistent(r)
    ensures !r.isFleeing && r.reuniting && !r.fleeingTimeout && r.reuniteTimers == s.reuniteTimers + 1
  {
    FleeState(false, true, false, s.reuniteTimers + 1)
  }

  /** An end-of-regrouping timer fires: regrouping stops, whichever phase armed the timer. */
  function OnReuniteTimer(s: FleeState): (r: FleeState)
    requires s.reuniteTimers > 0
    ensures Consistent(s) ==> Consistent(r)
    ensures !r.reuniting && r.isFleeing == s.isFleeing && r.fleeingTimeout == s.fleeingTimeout
    ensures r.reuniteTimers == s.reuniteTimers - 1
  {
    s.(reuniting := false, reuniteTimers := s.reuniteTimers - 1)
  }

  /** What can happen to a school between two observations. */
  datatype FleeEvent = Tick(close: bool) | FleeTimeoutFires | ReuniteTimerFires

  /** Applies a sequence of events; `None` if an event fires a timer that is not pending. */
  function Run(s: FleeState, events: seq<FleeEvent>): Option<FleeState>
    decreases |events|
  {
    if events == [] then Some(s)
    else
      var next :=
        match events[0]
        case Tick(close) => Some(OnProximity(s, close))
        case FleeTimeoutFires => if s.fleeingTimeout then Some(OnFleeTimeout(s)) else None
        case ReuniteTimerFires => if s.reuniteTimers > 0 then Some(OnReuniteTimer(s)) else None;
      match next
      case None => None
      case Some(t) => Run(t, events[1..])
  }

  /** Every state reachable from a consistent one is consistent. */
  lemma {:induction false} RunKeepsConsistent(s: FleeState, events: seq<FleeEvent>)
    requires Consistent(s)
    ensures Run(s, events).Some? ==> Consistent(Run(s, events).value)
    decreases |events|
  {
    if events != [] {
      match events[0]
      case Tick(close) => RunKeepsConsistent(OnProximity(s, close), events[1..]);
      case FleeTimeoutFires =>
        if s.fleeingTimeout {
          RunKeepsConsistent(OnFleeTimeout(s), events[1..]);
        }
      case ReuniteTimerFires =>
        if s.reuniteTimers > 0 {
          RunKeepsConsistent(OnReuniteTimer(s), events[1..]);
        }
    }
  }

  /**
   * The full cycle: a calm school near the submarine flees, arms the delay
   * when the submarine leaves, regroups when the delay fires, and is calm
   * again when the regrouping timer fires.
   */
  lemma FleeCycle()
    ensures Run(Calm, [Tick(true)]) == Some(FleeState(true, false, false, 0))
    ensures Run(Calm, [Tick(true), Tick(false)]) == Some(FleeState(true, false, true, 0))
    ensures Run(Calm, [Tick(true), Tick(false), FleeTimeoutFires]) == Some(FleeState(false, true, false, 1))
    ensures Run(Calm, [Tick(true), Tick(false), FleeTimeoutFires, ReuniteTimerFires]) == Some(Calm)
  {
    assert [Tick(true), Tick(false)][1..] == [Tick(false)];
    assert [Tick(true), Tick(false), FleeTimeoutFires][1..] == [Tick(false), FleeTimeoutFires];
    assert [Tick(false), FleeTimeoutFires][1..] == [FleeTimeoutFires];
    assert [Tick(true), Tick(false), FleeTimeoutFires, ReuniteTimerFires][1..] == [Tick(false), FleeTimeoutFires, ReuniteTimerFires];
    assert [Tick(false), FleeTimeoutFires, ReuniteTimerFires][1..] == [FleeTimeoutFires, ReuniteTimerFires];
    assert [FleeTimeoutFires, ReuniteTimerFires][1..] == [ReuniteTimerFires];
  }

  /**
   * A submarine that comes back while the delay is armed cancels it: the
   * school keeps fleeing and a later delay can only come from a new arming.
   */
  lemma ReturnCancelsDelay(s: FleeState)
    requires Consistent(s) && s.fleeingTimeout
    ensures OnProximity(s, true).isFleeing && !OnProximity(s, true).fleeingTimeout
    ensures Run(s, [Tick(true), FleeTimeoutFires]) == None
  {
    assert [Tick(true), FleeTimeoutFires][1..] == [FleeTimeoutFires];
  }

  /**
   * An end-of-regrouping timer left over from an earlier phase ends a later
   * regrouping phase too: with two timers pending, the first to fire stops
   * the current regrouping.
   */
  lemma StaleTimerEndsRegrouping()
    ensures var s := FleeState(false, true, false, 2);
            Consistent(s) && Run(s, [ReuniteTimerFires]) == Some(FleeState(false, false, false, 1))
  {
  }

  /** The steering weights and speed limit of one state. */
  datatype Weights = Weights(cohesion: real, alignment: real, separation: real, maxSpeed: real)

  /**
   * The state-dependent weights: a fleeing school ignores cohesion and
   * alignment and quadruples separation; a regrouping one triples cohesion,
   * doubles alignment and halves separation.
   */
  function StateWeights(isFleeing: bool, reuniting: bool, base: Weights, fleeSpeed: real, reuniteSpeed: real): (w: Weights)
    ensures isFleeing ==> w == Weights(0.0, 0.0, base.separation * 4.0, fleeSpeed)
    ensures !isFleeing && reuniting ==> w == Weights(base.cohesion * 3.0, base.alignment * 2.0, base.separation * 0.5, reuniteSpeed)
    ensures !isFleeing && !reuniting ==> w == base
  {
    if isFleeing then Weights(0.0, 0.0, base.separation * 4.0, fleeSpeed)
    else if reuniting then Weights(base.cohesion * 3.0, base.alignment * 2.0, base.separation * 0.5, reuniteSpeed)
    else base
  }

  /** The boids inputs the model leaves abstract, per member: the capped new velocity and the flee force's x. */
  datatype Steering = Steering(vx: real, vy: real, fleeX: real)

  /** `member` is within `radius` of the submarine, centre to centre (compared squared). */
  predicate CloseTo(member: Creature, sub: Submarine, radius: real)
    reads member, sub
  {
    var dx := member.x + member.width / 2.0 - (sub.x + sub.width / 2.0);
    var dy := member.y + member.height / 2.0 - (sub.y + sub.height / 2.0);
    dx * dx + dy * dy < radius * radius
  }

  /** The sum of the members' horizontal velocities, in member order. */
  function SumVx(ms: seq<Creature>): real
    reads ms
  {
    if ms == [] then 0.0 else SumVx(ms[..|ms| - 1]) + ms[|ms| - 1].vx
  }

  /** The school's facing: that of the total velocity while calm, and right while fleeing or regrouping. */
  function SchoolFacing(isFleeing: bool, reuniting: bool, totalVelocityX: real): (f: int)
    ensures isFleeing || reuniting ==> f == 1
    ensures !isFleeing && !reuniting ==> (f == 1 <==> totalVelocityX >= 0.0) && (f == -1 <==> totalVelocityX < 0.0)
  {
    var total := if !isFleeing && !reuniting then totalVelocityX else 0.0;
    if total >= 0.0 then 1 else -1
  }

  /** A member's facing after steering: the school's unless fleeing, then away from the submarine. */
  function MemberFacing(isFleeing: bool, schoolFacing: int, fleeX: real, facing: int): (f: int)
    ensures !isFleeing ==> f == schoolFacing
    ensures isFleeing && fleeX > 0.0 ==> f == 1
    ensures isFleeing && fleeX < 0.0 ==> f == -1
    ensures isFleeing && fleeX == 0.0 ==> f == facing
  {
    if !isFleeing then schoolFacing
    else if fleeX > 0.0 then 1
    else if fleeX < 0.0 then -1
    else facing
  }

  class School {
    var members: seq<Creature>
    const worldMinY: real
    const worldMaxY: real
    const schoolingRadius: real
    const separationDistance: real
    const cohesionWeight: real
    const alignmentWeight: real
    const separationWeight: real
    const boundaryWeight: real
    const fleeWeight: real
    const normalMaxSpeed: real
    const fleeSpeed: real
    const reuniteSpeed: real
    const fleeRadius: real
    const reuniteDelay: real
    var isFleeing: bool
    var reuniting: bool
    var fleeingTimeout: bool
    var reuniteTimers: nat

    function State(): FleeState
      reads this
    {
      FleeState(isFleeing, reuniting, fleeingTimeout, reuniteTimers)
    }

    /** The base weights, used while calm. */
    function BaseWeights(): Weights
    {
      Weights(cohesionWeight, alignmentWeight, separationWeight, normalMaxSpeed)
    }

    /** Distinct schooling members and a consistent flee state. */
    ghost predicate Valid()
      reads this, members
    {
      && (forall i, j :: 0 <= i < j < |members| ==> members[i] != members[j])
      && (forall i :: 0 <= i < |members| ==> members[i].Valid() && members[i].isSchooling)
      && Consistent(State())
      && 0.0 <= fleeRadius
    }

    constructor (creatureId: string, hasLight: bool, scale: real, worldMinY: real, worldMaxY: real,
                 canvasWidth: real, spawns: seq<SpawnDraws>)
      ensures Valid() && State() == Calm && |members| == |spawns|
      ensures this.worldMinY == worldMinY && this.worldMaxY == worldMaxY
      ensures schoolingRadius == 100.0 && separationDistance == 25.0
      ensures BaseWeights() == Weights(0.008, 0.08, 0.03, 0.4) && boundaryWeight == 0.1 && fleeWeight == 1.0
      ensures fleeSpeed == 4.0 && reuniteSpeed == 2.0 && fleeRadius == 250.0 && reuniteDelay == 1500.0
      ensures forall i :: 0 <= i < |members| ==>
                fresh(members[i]) && members[i].id == creatureId && members[i].maxSpeed == 0.4
                && members[i].Oscillating()
    {
      this.worldMinY := worldMinY;
      this.worldMaxY := worldMaxY;
      schoolingRadius := 100.0;
      separationDistance := 25.0;
      cohesionWeight := 0.008;
      alignmentWeight := 0.08;
      separationWeight := 0.03;
      boundaryWeight := 0.1;
      fleeWeight := 1.0;
      normalMaxSpeed := 0.4;
      fleeSpeed := 4.0;
      reuniteSpeed := 2.0;
      isFleeing := false;
      reuniting := false;
      fleeingTimeout := false;
      reuniteTimers := 0;
      fleeRadius := 250.0;
      reuniteDelay := 1500.0;
      members := [];
      new;
      var i := 0;
      while i < |spawns|
        invariant 0 <= i <= |spawns| && |members| == i
        invariant State() == Calm && fleeRadius == 250.0
        invariant forall k :: 0 <= k < i ==>
                    fresh(members[k]) && members[k].id == creatureId && members[k].maxSpeed == 0.4
                    && members[k].Valid() && members[k].isSchooling && members[k].Oscillating()
        invariant forall k, l :: 0 <= k < l < i ==> members[k] != members[l]
      {
        var creature := new Creature(creatureId, hasLight, scale, worldMinY, worldMaxY, canvasWidth, spawns[i]);
        creature.isSchooling := true;
        creature.maxSpeed := normalMaxSpeed;
        members := members + [creature];
        i := i + 1;
      }
    }

    /** The proximity scan of `update`: is any member within the flee radius of the submarine? */
    method AnyMemberClose(submarine: Submarine) returns (close: bool)
      ensures close <==> exists i :: 0 <= i < |members| && CloseTo(members[i], submarine, fleeRadius)
    {
      close := false;
      var i := 0;
      while i < |members|
        invariant 0 <= i <= |members|
        invariant forall k :: 0 <= k < i ==> !CloseTo(members[k], submarine, fleeRadius)
      {
        if CloseTo(members[i], submarine, fleeRadius) {
          close := true;
          break;
        }
        i := i + 1;
      }
    }

    /** The velocity total of `update`'s facing computation. */
    method TotalVelocityX() returns (total: real)
      ensures total == SumVx(members)
    {
      total := 0.0;
      var i := 0;
      while i < |members|
        invariant 0 <= i <= |members|
        invariant total == SumVx(members[..i])
      {
        assert members[..i + 1][..i] == members[..i];
        total := total + members[i].vx;
        i := i + 1;
      }
      assert members[..|members|] == members;
    }

    /** The flee-state part of `update`. */
    method UpdateFleeState(close: bool)
      modifies this`isFleeing, this`reuniting, this`fleeingTimeout
      ensures State() == OnProximity(old(State()), close)
    {
      if close {
        isFleeing := true;
        reuniting := false;
        if fleeingTimeout {
          fleeingTimeout := false;
        }
      } else if isFleeing && !fleeingTimeout {
        fleeingTimeout := true;
      }
    }

    /** The reunite-delay timer callback. */
    method FleeTimeoutFires()
      requires fleeingTimeout
      modifies this`isFleeing, this`reuniting, this`fleeingTimeout, this`reuniteTimers
      ensures State() == OnFleeTimeout(old(State()))
    {
      isFleeing := false;
      fleeingTimeout := false;
      reuniting := true;
      reuniteTimers := reuniteTimers + 1;
    }

    /** The end-of-regrouping timer callback. */
    method ReuniteTimerFires()
      requires reuniteTimers > 0
      modifies this`reuniting, this`reuniteTimers
      ensures State() == OnReuniteTimer(old(State()))
    {
      reuniting := false;
      reuniteTimers := reuniteTimers - 1;
    }

    /**
     * One tick of the school. `steering[i]` stands for the boids outcome of
     * member i (its capped new velocity and the x of its flee force);
     * `canvasWidth` is the width of the school's canvas now.
     */
    method Update(currentTime: real, submarine: Submarine, canvasWidth: real, steering: seq<Steering>)
      returns (ghost close: bool, ghost schoolFacing: int)
      requires Valid() && |steering| == |members|
      modifies this`isFleeing, this`reuniting, this`fleeingTimeout, members
      ensures Valid() && members == old(members)
      ensures close <==> exists i :: 0 <= i < |members| && old(CloseTo(members[i], submarine, fleeRadius))
      ensures State() == OnProximity(old(State()), close)
      ensures schoolFacing == SchoolFacing(isFleeing, reuniting, old(SumVx(members)))
      ensures forall i :: 0 <= i < |members| ==>
                var m := members[i];
                && m.vx == steering[i].vx && m.vy == steering[i].vy
                && m.x == Clamp(old(m.x) + steering[i].vx, 0.0, canvasWidth - m.width)
                && m.y == Clamp(old(m.y) + steering[i].vy, worldMinY, worldMaxY - m.height)
                && m.facingDirection == MemberFacing(isFleeing, schoolFacing, steering[i].fleeX, old(m.facingDirection))
                && (old(m.Oscillating()) ==> m.Oscillating())
    {
      var schoolFacingDirection;
      close, schoolFacingDirection := Assess(submarine);
      schoolFacing := schoolFacingDirection;
      SteerAll(currentTime, schoolFacingDirection, canvasWidth, steering);
    }

    /** The first half of `update`: the proximity scan, the flee-state step and the school's facing. */
    method Assess(submarine: Submarine) returns (close: bool, schoolFacing: int)
      requires Valid()
      modifies this`isFleeing, this`reuniting, this`fleeingTimeout
      ensures Valid()
      ensures close <==> exists i :: 0 <= i < |members| && CloseTo(members[i], submarine, fleeRadius)
      ensures State() == OnProximity(old(State()), close)
      ensures schoolFacing == SchoolFacing(isFleeing, reuniting, SumVx(members))
    {
      close := AnyMemberClose(submarine);
      UpdateFleeState(close);
      var totalVelocityX := 0.0;
      if !isFleeing && !reuniting {
        totalVelocityX := TotalVelocityX();
      }
      schoolFacing := if totalVelocityX >= 0.0 then 1 else -1;
    }

    /** The member loop of `update`. */
    method SteerAll(currentTime: real, schoolFacing: int, canvasWidth: real, steering: seq<Steering>)
      requires Valid() && |steering| == |members|
      modifies members
      ensures Valid()
      ensures forall i :: 0 <= i < |members| ==>
                var m := members[i];
                && m.vx == steering[i].vx && m.vy == steering[i].vy
                && m.x == Clamp(old(m.x) + steering[i].vx, 0.0, canvasWidth - m.width)
                && m.y == Clamp(old(m.y) + steering[i].vy, worldMinY, worldMaxY - m.height)
                && m.facingDirection == MemberFacing(isFleeing, schoolFacing, steering[i].fleeX, old(m.facingDirection))
                && (old(m.Oscillating()) ==> m.Oscillating())
    {
      var i := 0;
      while i < |members|
        invariant 0 <= i <= |members|
        invariant forall k :: 0 <= k < |members| ==> members[k].Valid() && members[k].isSchooling
        invariant forall k :: 0 <= k < i ==>
                    var m := members[k];
                    && m.vx == steering[k].vx && m.vy == steering[k].vy
                    && m.x == Clamp(old(m.x) + steering[k].vx, 0.0, canvasWidth - m.width)
                    && m.y == Clamp(old(m.y) + steering[k].vy, worldMinY, worldMaxY - m.height)
                    && m.facingDirection == MemberFacing(isFleeing, schoolFacing, steering[k].fleeX, old(m.facingDirection))
                    && (old(m.Oscillating()) ==> m.Oscillating())
        invariant forall k :: i <= k < |members| ==> unchanged(members[k])
      {
        Steer(members[i], steering[i], schoolFacing, canvasWidth, currentTime);
        i := i + 1;
      }
    }

    /** The per-member step of `update` after the forces: move, clamp, face, then the member's own update. */
    method Steer(member: Creature, s: Steering, schoolFacing: int, canvasWidth: real, currentTime: real)
      requires member.Valid() && member.isSchooling
      modifies member
      ensures member.Valid() && member.isSchooling
      ensures member.vx == s.vx && member.vy == s.vy
      ensures member.x == Clamp(old(member.x) + s.vx, 0.0, canvasWidth - member.width)
      ensures member.y == Clamp(old(member.y) + s.vy, worldMinY, worldMaxY - member.height)
      ensures member.facingDirection == MemberFacing(isFleeing, schoolFacing, s.fleeX, old(member.facingDirection))
      ensures old(member.Oscillating()) ==> member.Oscillating()
      ensures Oscillator(member.scaleFactor, member.scaleDirection)
              == ScaleStep(Oscillator(old(member.scaleFactor), old(member.scaleDirection)), member.scaleSpeed, member.minScale, member.maxScale)
      ensures member.hasLight ==>
                Oscillator(member.lightOpacity, member.lightFadeDirection)
                == LightStep(Oscillator(old(member.lightOpacity), old(member.lightFadeDirection)), member.lightFadeSpeed,
                             member.minLightOpacity, member.maxLightOpacity)
      ensures !member.hasLight ==> member.lightOpacity == old(member.lightOpacity) && member.lightFadeDirection == old(member.lightFadeDirection)
      ensures member.isHighlighting == (old(member.isHighlighting) && currentTime - member.highlightStartTime <= member.highlightDuration)
      ensures member.highlightStartTime == old(member.highlightStartTime) && member.currentOpacity == old(member.currentOpacity)
    {
      member.vx := s.vx;
      member.vy := s.vy;
      member.x := member.x + member.vx;
      member.y := member.y + member.vy;
      member.y := Max(worldMinY, Min(member.y, worldMaxY - member.height));
      member.x := Max(0.0, Min(member.x, canvasWidth - member.width));
      if !isFleeing {
        member.facingDirection := schoolFacing;
      } else {
        if s.fleeX > 0.0 {
          member.facingDirection := 1;
        } else if s.fleeX < 0.0 {
          member.facingDirection := -1;
        }
      }
      member.Update(currentTime, canvasWidth, WanderDraws(0.0, 0.0, 0.0), 1.0);
    }
  }

  /** With the school's constants, fleeing is the fastest state and regrouping the next. */
  lemma SpeedsOrdered(s: School)
    requires s.BaseWeights() == Weights(0.008, 0.08, 0.03, 0.4) && s.fleeSpeed == 4.0 && s.reuniteSpeed == 2.0
    ensures var calm := StateWeights(false, false, s.BaseWeights(), s.fleeSpeed, s.reuniteSpeed);
            var fleeing := StateWeights(true, false, s.BaseWeights(), s.fleeSpeed, s.reuniteSpeed);
            var regrouping := StateWeights(false, true, s.BaseWeights(), s.fleeSpeed, s.reuniteSpeed);
            && calm.maxSpeed < regrouping.maxSpeed < fleeing.maxSpeed
            && fleeing.cohesion < calm.cohesion < regrouping.cohesion
            && regrouping.separation < calm.separation < fleeing.separation
  {
  }
}
