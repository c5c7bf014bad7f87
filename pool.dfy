/**
 * The poolable entities of src/game/game.js (Bubble, Particle) and the growable
 * ObjectPool that recycles them. Entities deactivate themselves; the pool never
 * shrinks and hands out the first inactive instance it finds.
 */
module Pool {
  import opened Wrappers

  /** A propulsion bubble: drifts by its speed and fades out linearly. */
  class Bubble {
    var active: bool
    var x: real
    var y: real
    var speedY: real
    var speedX: real
    var size: real
    var alpha: real
    var decayRate: real

    constructor ()
      ensures !active && x == 0.0 && y == 0.0 && speedY == 0.0 && speedX == 0.0
      ensures size == 0.0 && alpha == 0.0 && decayRate == 0.0
    {
      active, x, y, speedY, speedX := false, 0.0, 0.0, 0.0, 0.0;
      size, alpha, decayRate := 0.0, 0.0, 0.0;
    }

    method Init(x0: real, y0: real, speedY0: real, speedX0: real, size0: real, alpha0: real, decayRate0: real)
      modifies this
      ensures active && x == x0 && y == y0 && speedY == speedY0 && speedX == speedX0
      ensures size == size0 && alpha == alpha0 && decayRate == decayRate0
    {
      x, y, speedY, speedX := x0, y0, speedY0, speedX0;
      size, alpha, decayRate := size0, alpha0, decayRate0;
      active := true;
    }

    method Update()
      modifies this
      ensures !old(active) ==> unchanged(this)
      ensures old(active) ==> x == old(x) + speedX && y == old(y) + speedY
      ensures old(active) ==> alpha == old(alpha) - decayRate && active == (alpha > 0.0)
      ensures speedX == old(speedX) && speedY == old(speedY) && size == old(size) && decayRate == old(decayRate)
      ensures active ==> alpha > 0.0
    {
      if !active { return; }
      x := x + speedX;
      y := y + speedY;
      alpha := alpha - decayRate;
      if alpha <= 0.0 {
        active := false;
      }
    }
  }

  /** The particle kinds of the source: 'mote' (the default), 'debris' and 'spotlight-dust'. */
  datatype ParticleType = Mote | Debris | SpotlightDust

  /** Horizontal wrap of motes and debris: leaving one side re-enters at the other. */
  function WrapX(x: real, canvasWidth: real): (r: real)
    requires canvasWidth >= 0.0
    ensures 0.0 <= r <= canvasWidth
    ensures 0.0 <= x <= canvasWidth ==> r == x
    ensures x < 0.0 ==> r == canvasWidth
    ensures x > canvasWidth ==> r == 0.0
  {
    var x1 := if x < 0.0 then canvasWidth else x;
    if x1 > canvasWidth then 0.0 else x1
  }

  /** Vertical wrap of motes and debris between 30 px below the ocean surface and the world's floor. */
  function WrapY(y: real, oceanHeight: real, maxWorldDepth: real): (r: real)
    requires maxWorldDepth - 1.0 >= oceanHeight + 30.0
    ensures oceanHeight + 30.0 <= r <= maxWorldDepth
    ensures oceanHeight + 30.0 <= y <= maxWorldDepth ==> r == y
    ensures y < oceanHeight + 30.0 ==> r == maxWorldDepth - 1.0
    ensures y > maxWorldDepth ==> r == oceanHeight + 30.0
  {
    var minParticleWorldY := oceanHeight + 30.0;
    if y < minParticleWorldY then maxWorldDepth - 1.0
    else if y > maxWorldDepth then minParticleWorldY
    else y
  }

  /** A drifting mote, a piece of debris or a fading grain of spotlight dust. */
  class Particle {
    var active: bool
    var x: real
    var y: real
    var speedX: real
    var speedY: real
    var size: real
    var alpha: real
    var decayRate: real
    var initialSize: real
    var kind: ParticleType

    constructor ()
      ensures !active && x == 0.0 && y == 0.0 && speedX == 0.0 && speedY == 0.0
      ensures size == 0.0 && alpha == 0.0 && decayRate == 0.0 && initialSize == 0.0 && kind == Mote
    {
      active, x, y, speedX, speedY := false, 0.0, 0.0, 0.0, 0.0;
      size, alpha, decayRate, initialSize, kind := 0.0, 0.0, 0.0, 0.0, Mote;
    }

    method Init(x0: real, y0: real, speedX0: real, speedY0: real, size0: real, alpha0: real, decayRate0: real, kind0: ParticleType := Mote)
      modifies this
      ensures active && x == x0 && y == y0 && speedX == speedX0 && speedY == speedY0
      ensures size == size0 && alpha == alpha0 && decayRate == decayRate0 && initialSize == size0 && kind == kind0
    {
      x, y, speedX, speedY := x0, y0, speedX0, speedY0;
      size, alpha, decayRate := size0, alpha0, decayRate0;
      initialSize, kind := size0, kind0;
      active := true;
    }

    /**
     * One tick. `pushX`, `pushY` is the submarine's wake displacement at the
     * particle's moved position (zero outside the 150 px push radius), whose
     * trigonometry is not modelled.
     */
    method Update(maxWorldDepth: real, oceanHeight: real, pushX: real, pushY: real, canvasWidth: real)
      requires canvasWidth >= 0.0
      requires kind != SpotlightDust ==> maxWorldDepth - 1.0 >= oceanHeight + 30.0
      modifies this
      ensures !old(active) ==> unchanged(this)
      ensures speedX == old(speedX) && speedY == old(speedY) && size == old(size)
      ensures decayRate == old(decayRate) && initialSize == old(initialSize) && kind == old(kind)
      ensures old(active) && kind == SpotlightDust ==>
                && x == old(x) + speedX + pushX && y == old(y) + speedY + pushY
                && alpha == old(alpha) - decayRate && active == (alpha > 0.0)
      ensures old(active) && kind != SpotlightDust ==>
                && x == WrapX(old(x) + speedX + pushX, canvasWidth)
                && y == WrapY(old(y) + speedY + pushY, oceanHeight, maxWorldDepth)
                && alpha == old(alpha) && active
      ensures old(active) && kind != SpotlightDust ==>
                0.0 <= x <= canvasWidth && oceanHeight + 30.0 <= y <= maxWorldDepth
    {
      if !active { return; }
      x := x + speedX;
      y := y + speedY;
      x := x + pushX;
      y := y + pushY;
      if kind == SpotlightDust {
        alpha := alpha - decayRate;
        if alpha <= 0.0 {
          active := false;
        }
      } else {
        if x < 0.0 { x := canvasWidth; }
        if x > canvasWidth { x := 0.0; }
        var minParticleWorldY := oceanHeight + 30.0;
        if y < minParticleWorldY { y := maxWorldDepth - 1.0; }
        else if y > maxWorldDepth { y := minParticleWorldY; }
      }
    }
  }

  /** The class a pool instantiates when it grows (the source passes the constructor itself). */
  datatype PoolClass = BubbleClass | ParticleClass

  /** A pooled instance. */
  datatype Entity = BubbleEntity(bubble: Bubble) | ParticleEntity(particle: Particle)
  {
    function Obj(): object
    {
      match this
      case BubbleEntity(b) => b
      case ParticleEntity(p) => p
    }

    function Class(): PoolClass
    {
      match this
      case BubbleEntity(_) => BubbleClass
      case ParticleEntity(_) => ParticleClass
    }

    predicate IsActive()
      reads Obj()
    {
      match this
      case BubbleEntity(b) => b.active
      case ParticleEntity(p) => p.active
    }
  }

  function ObjectsOf(es: seq<Entity>): set<object>
  {
    set i | 0 <= i < |es| :: es[i].Obj()
  }

  /** The `active` flag of each pooled instance, in pool order. */
  function Flags(es: seq<Entity>): (flags: seq<bool>)
    reads ObjectsOf(es)
    ensures |flags| == |es|
    ensures forall i :: 0 <= i < |es| ==> flags[i] == es[i].IsActive()
  {
    if es == [] then [] else
      assert forall i :: 0 <= i < |es| - 1 ==> es[1..][i] == es[i + 1];
      [es[0].IsActive()] + Flags(es[1..])
  }

  /** The lowest index whose flag is false, if there is one. */
  function FirstInactive(flags: seq<bool>): (r: Option<nat>)
    ensures r.Some? ==> r.value < |flags| && !flags[r.value] && forall j :: 0 <= j < r.value ==> flags[j]
    ensures r.None? <==> forall j :: 0 <= j < |flags| ==> flags[j]
  {
    if flags == [] then None
    else if !flags[0] then Some(0)
    else match FirstInactive(flags[1..])
      case None => None
      case Some(k) => Some(k + 1)
  }

  class ObjectPool {
    var pool: seq<Entity>
    const classRef: PoolClass

    /** Every instance is of the pool's class and no instance is pooled twice. */
    ghost predicate Valid()
      reads this
    {
      && (forall i :: 0 <= i < |pool| ==> pool[i].Class() == classRef)
      && (forall i, j :: 0 <= i < j < |pool| ==> pool[i].Obj() != pool[j].Obj())
    }

    function Objects(): set<object>
      reads this
    {
      ObjectsOf(pool)
    }

    constructor (classRef: PoolClass, initialSize: nat)
      ensures Valid() && this.classRef == classRef && |pool| == initialSize
      ensures forall i :: 0 <= i < |pool| ==> fresh(pool[i].Obj()) && !pool[i].IsActive()
    {
      this.classRef := classRef;
      pool := [];
      new;
      var i := 0;
      while i < initialSize
        invariant 0 <= i <= initialSize && |pool| == i && Valid()
        invariant forall k :: 0 <= k < |pool| ==> fresh(pool[k].Obj()) && !pool[k].IsActive()
      {
        var e := NewInstance(classRef);
        pool := pool + [e];
        i := i + 1;
      }
    }

    /**
     * The first inactive instance, or, when every instance is active, a fresh
     * inactive one appended to the pool.
     */
    method Get() returns (obj: Entity)
      requires Valid()
      modifies this
      ensures Valid() && obj.Class() == classRef && obj in pool
      ensures old(pool) <= pool && |pool| <= |old(pool)| + 1
      ensures match old(FirstInactive(Flags(pool)))
              case Some(k) => pool == old(pool) && obj == pool[k]
              case None => pool == old(pool) + [obj] && fresh(obj.Obj()) && !obj.IsActive()
    {
      ghost var flags := Flags(pool);
      var i := 0;
      while i < |pool|
        invariant 0 <= i <= |pool| && pool == old(pool)
        invariant forall j :: 0 <= j < i ==> flags[j]
      {
        if !pool[i].IsActive() {
          FirstInactiveIs(flags, i);
          return pool[i];
        }
        i := i + 1;
      }
      assert FirstInactive(flags) == None;
      obj := NewInstance(classRef);
      pool := pool + [obj];
    }

    /**
     * The visiting order of `forEachActive`: exactly the indices of the active
     * instances, in increasing order. The caller applies the callback to
     * `pool[visits[0]]`, `pool[visits[1]]`, ... in turn; because the instances
     * are distinct objects, updating one does not change whether a later one is visited.
     */
    method ForEachActive() returns (visits: seq<nat>)
      ensures forall k :: 0 <= k < |visits| ==> visits[k] < |pool| && pool[visits[k]].IsActive()
      ensures forall a, b :: 0 <= a < b < |visits| ==> visits[a] < visits[b]
      ensures forall i :: 0 <= i < |pool| && pool[i].IsActive() ==> i in visits
    {
      visits := [];
      var i := 0;
      while i < |pool|
        invariant 0 <= i <= |pool|
        invariant forall k :: 0 <= k < |visits| ==> visits[k] < i && pool[visits[k]].IsActive()
        invariant forall a, b :: 0 <= a < b < |visits| ==> visits[a] < visits[b]
        invariant forall j :: 0 <= j < i && pool[j].IsActive() ==> j in visits
      {
        if pool[i].IsActive() {
          visits := visits + [i];
        }
        i := i + 1;
      }
    }
  }

  /** `new this.ClassRef()`. */
  method NewInstance(classRef: PoolClass) returns (e: Entity)
    ensures e.Class() == classRef && fresh(e.Obj()) && !e.IsActive()
  {
    match classRef
    case BubbleClass =>
      var b := new Bubble();
      e := BubbleEntity(b);
    case ParticleClass =>
      var p := new Particle();
      e := ParticleEntity(p);
  }

  lemma FirstInactiveIs(flags: seq<bool>, k: nat)
    requires k < |flags| && !flags[k]
    requires forall j :: 0 <= j < k ==> flags[j]
    ensures FirstInactive(flags) == Some(k)
  {
    var r := FirstInactive(flags);
    if r.None? {
    } else if r.value < k {
    } else if r.value > k {
    }
  }
}
