// Enemies: per-kind leftward movement, the Shooter's one-frame fire flag,
// off-screen deactivation and the two-frame walk cycle.
module EnemyRules {
  import opened Geometry
  import opened Assets

  datatype EnemyKind = Walker | Flyer | Shooter | Chaser

  const EnemyScale: real := 0.7
  const FlyerPhaseRate: real := 3.0
  const FlyerBob: real := 40.0
  const ShooterSlowdown: real := 0.6
  const ShootPeriod: real := 2.5
  const ChaseRange: real := 400.0
  const EnemyFrameTime: real := 0.15
  const OffscreenX: real := -200.0
  const FallbackTexture: string := "enemy"

  /** The two animation textures each kind asks for, in order. */
  function FrameNames(k: EnemyKind): (names: seq<string>)
    ensures |names| == 2
  {
    match k
    case Flyer => ["flyMan_fly", "flyMan_still_fly"]
    case Shooter => ["wingMan1", "wingMan2"]
    case Chaser => ["spikeMan_jump", "spikeMan_walk1"]
    case Walker => ["spikeMan_walk1", "spikeMan_walk2"]
  }

  /** The textures present among `names`, in order. */
  function Present(tex: Textures, names: seq<string>): (r: seq<string>)
    ensures |r| <= |names|
    ensures forall i :: 0 <= i < |r| ==> Has(tex, r[i]) && r[i] in names
    ensures (|r| == 0) <==> (forall i :: 0 <= i < |names| ==> !Has(tex, names[i]))
    decreases |names|
  {
    if |names| == 0 then []
    else
      var rest := Present(tex, names[1..]);
      assert forall i :: 1 <= i < |names| ==> names[i] == names[1..][i - 1];
      if Has(tex, names[0]) then [names[0]] + rest else rest
  }

  /** `loadAnimation()`: the kind's frames that exist, else the generic enemy texture if that exists. */
  function LoadFrames(tex: Textures, k: EnemyKind): (frames: seq<string>)
    ensures |frames| <= 2
    ensures forall i :: 0 <= i < |frames| ==> Has(tex, frames[i])
    ensures |frames| == 0 <==> (!Has(tex, FrameNames(k)[0]) && !Has(tex, FrameNames(k)[1]) && !Has(tex, FallbackTexture))
    ensures (Has(tex, FrameNames(k)[0]) || Has(tex, FrameNames(k)[1])) ==>
              forall i :: 0 <= i < |frames| ==> frames[i] in FrameNames(k)
  {
    var own := Present(tex, FrameNames(k));
    if |own| == 0 && Has(tex, FallbackTexture) then [FallbackTexture] else own
  }

  /** The Chaser's speed factor: 1 far away, rising linearly to 2 as it closes in on its target. */
  function ChaseFactor(targetX: real, x: real): (f: real)
    ensures 1.0 <= f <= 2.0
    ensures Abs(targetX - x) >= ChaseRange ==> f == 1.0
    ensures targetX == x ==> f == 2.0
  {
    1.0 + Max(0.0, ChaseRange - Abs(targetX - x)) / ChaseRange
  }

  /** The whole state of an `Enemy`. */
  datatype Foe = Foe(
    x: real, y: real,
    targetX: real, targetY: real,
    speed: real,
    active: bool, facingRight: bool,
    kind: EnemyKind,
    sineTimer: real, shootTimer: real,
    wantsToShoot: bool,
    animTimer: real,
    currentFrame: nat)

  /** A new enemy: active, aimed at its own position, all timers at zero. */
  function Spawned(px: real, py: real, k: EnemyKind, speed: real): (r: Foe)
    ensures r.active && !r.wantsToShoot && r.currentFrame == 0 && r.targetX == px && r.targetY == py
  {
    Foe(px, py, px, py, speed, true, false, k, 0.0, 0.0, false, 0.0, 0)
  }

  /** `updateMovement(dt)`. */
  function Move(e: Foe, dt: real, sine: real -> Wave): (r: Foe)
    ensures r.kind == e.kind && r.active == e.active && r.animTimer == e.animTimer
    ensures r.currentFrame == e.currentFrame && r.speed == e.speed
    ensures e.kind != Shooter ==> r.wantsToShoot == e.wantsToShoot && r.shootTimer == e.shootTimer
  {
    match e.kind
    case Flyer =>
      var t := e.sineTimer + dt * FlyerPhaseRate;
      e.(sineTimer := t, x := e.x - e.speed * dt, y := e.y + sine(t) * FlyerBob * dt)
    case Shooter =>
      var t := e.shootTimer + dt;
      var moved := e.(shootTimer := t, x := e.x - (e.speed * ShooterSlowdown) * dt);
      if t >= ShootPeriod then moved.(wantsToShoot := true, shootTimer := 0.0) else moved
    case Chaser =>
      e.(x := e.x - e.speed * ChaseFactor(e.targetX, e.x) * dt)
    case Walker =>
      e.(x := e.x - e.speed * dt)
  }

  /** `updateAnimation(dt)` over `frameCount` frames: the frame index cycles every 0.15 s. */
  function Animate(e: Foe, dt: real, frameCount: nat): (r: Foe)
    ensures frameCount == 0 ==> r == e
    ensures frameCount > 0 ==> r.currentFrame < frameCount || r.currentFrame == e.currentFrame
    ensures frameCount > 0 && e.animTimer + dt >= EnemyFrameTime ==>
              r == e.(animTimer := 0.0, currentFrame := (e.currentFrame + 1) % frameCount)
    ensures frameCount > 0 && e.animTimer + dt < EnemyFrameTime ==> r == e.(animTimer := e.animTimer + dt)
  {
    if frameCount == 0 then e
    else
      var t := e.animTimer + dt;
      if t >= EnemyFrameTime then e.(animTimer := 0.0, currentFrame := (e.currentFrame + 1) % frameCount)
      else e.(animTimer := t)
  }

  /** The off-screen check at the end of `update`. */
  function Cull(e: Foe): (r: Foe)
    ensures r == (if e.x < OffscreenX then e.(active := false) else e)
  {
    if e.x < OffscreenX then e.(active := false) else e
  }

  /** `update(dt)`: nothing happens to an inactive enemy. */
  function Step(e: Foe, dt: real, sine: real -> Wave, frameCount: nat): (r: Foe)
  {
    if !e.active then e
    else Cull(Animate(Move(e.(wantsToShoot := false), dt, sine), dt, frameCount))
  }

  /** `getShootOrigin()`. */
  function ShootOrigin(e: Foe): (p: (real, real))
    ensures p == (e.x - 20.0, e.y + 10.0)
  {
    (e.x + -20.0, e.y + 10.0)
  }

  /** `reset(position)`: active again at the position with fresh timers and the first frame. */
  function Respawn(e: Foe, px: real, py: real): (r: Foe)
    ensures r.active && r.x == px && r.y == py && r.currentFrame == 0
    ensures r.sineTimer == 0.0 && r.shootTimer == 0.0 && r.animTimer == 0.0
    ensures r.kind == e.kind && r.speed == e.speed && r.wantsToShoot == e.wantsToShoot
  {
    e.(x := px, y := py, active := true, sineTimer := 0.0, shootTimer := 0.0, animTimer := 0.0, currentFrame := 0)
  }

  // ---- Properties ----

  /** An inactive enemy is frozen. */
  lemma InactiveFrozen(e: Foe, dt: real, sine: real -> Wave, n: nat)
    requires !e.active
    ensures Step(e, dt, sine, n) == e
  {
  }

  /** Only a Shooter ever raises the fire flag, and only on the update that completes its 2.5 s period. */
  lemma FireFlagOnlyWhenDue(e: Foe, dt: real, sine: real -> Wave, n: nat)
    requires e.active
    ensures Step(e, dt, sine, n).wantsToShoot <==> (e.kind == Shooter && e.shootTimer + dt >= ShootPeriod)
    ensures Step(e, dt, sine, n).wantsToShoot ==> Step(e, dt, sine, n).shootTimer == 0.0
  {
  }

  /** A Shooter's timer never reaches the period after an update, so a shot is always a fresh 2.5 s apart. */
  lemma ShooterTimerBelowPeriod(e: Foe, dt: real, sine: real -> Wave, n: nat)
    requires e.active && e.kind == Shooter
    ensures Step(e, dt, sine, n).shootTimer < ShootPeriod
  {
  }

  /** Every kind moves left or stands still: x never grows for a non-negative speed and time step. */
  lemma NeverMovesRight(e: Foe, dt: real, sine: real -> Wave, n: nat)
    requires e.speed >= 0.0 && dt >= 0.0
    ensures Step(e, dt, sine, n).x <= e.x
  {
    if e.active {
      var e0 := e.(wantsToShoot := false);
      var f := ChaseFactor(e.targetX, e.x);
      assert e.speed * dt >= 0.0;
      assert (e.speed * ShooterSlowdown) * dt >= 0.0;
      assert e.speed * f * dt >= 0.0 by {
        assert e.speed * f >= 0.0;
      }
      assert Move(e0, dt, sine).x <= e.x;
    }
  }

  /** Far from its target a Chaser walks at its speed; on top of it, at twice its speed. */
  lemma ChaserBetweenOneAndTwice(e: Foe, dt: real, sine: real -> Wave)
    requires e.kind == Chaser && e.speed >= 0.0 && dt >= 0.0
    ensures e.x - 2.0 * e.speed * dt <= Move(e, dt, sine).x <= e.x - e.speed * dt
  {
    var f := ChaseFactor(e.targetX, e.x);
    assert Move(e, dt, sine).x == e.x - e.speed * f * dt;
    ScaledStepBetween(e.speed, f, dt);
  }

  lemma ScaledStepBetween(s: real, f: real, dt: real)
    requires s >= 0.0 && dt >= 0.0 && 1.0 <= f <= 2.0
    ensures s * dt <= s * f * dt <= 2.0 * s * dt
  {
    var sd := s * dt;
    assert sd >= 0.0;
    assert s * f * dt == f * sd;
    assert (f - 1.0) * sd >= 0.0;
    assert (2.0 - f) * sd >= 0.0;
  }

  /** An enemy past x = -200 after its move is switched off. */
  lemma OffscreenDeactivates(e: Foe, dt: real, sine: real -> Wave, n: nat)
    requires Step(e, dt, sine, n).x < OffscreenX
    ensures !Step(e, dt, sine, n).active
  {
  }

  /** The frame index stays in range over any update. */
  lemma FrameInRange(e: Foe, dt: real, sine: real -> Wave, n: nat)
    requires n > 0 && e.currentFrame < n
    ensures Step(e, dt, sine, n).currentFrame < n
  {
  }
}

// `class Enemy`: the source's fields, each method proved to act on them as
// the matching function of EnemyRules acts on the snapshot.
module Enemies {
  import opened Geometry
  import opened Assets
  import opened EnemyRules

  /** `class Enemy` with the source's fields. */
  class Enemy {
    var x: real
    var y: real
    var targetX: real
    var targetY: real
    const speed: real
    var active: bool
    const facingRight: bool
    const kind: EnemyKind
    var sineTimer: real
    var shootTimer: real
    var wantsToShootFlag: bool
    var animTimer: real
    var currentFrame: nat
    /** The texture names of the walk cycle. */
    const frames: seq<string>
    /** The sprite's size: the first frame's texture size times 0.7 (0 without frames). */
    const spriteW: real
    const spriteH: real

    function Data(): Foe
      reads this
    {
      Foe(x, y, targetX, targetY, speed, active, facingRight, kind, sineTimer, shootTimer,
          wantsToShootFlag, animTimer, currentFrame)
    }

    ghost predicate Valid()
      reads this
    {
      |frames| == 0 || currentFrame < |frames|
    }

    constructor (tex: Textures, px: real, py: real, k: EnemyKind, s: real)
      ensures Valid() && Data() == Spawned(px, py, k, s)
      ensures frames == LoadFrames(tex, k)
      ensures |frames| > 0 ==> spriteW == tex(frames[0]).Width() as real * EnemyScale &&
                                spriteH == tex(frames[0]).Height() as real * EnemyScale
      ensures |frames| == 0 ==> spriteW == 0.0 && spriteH == 0.0
    {
      x, y := px, py;
      targetX, targetY := px, py;
      speed := s;
      active, facingRight := true, false;
      kind := k;
      sineTimer, shootTimer := 0.0, 0.0;
      wantsToShootFlag := false;
      animTimer := 0.0;
      currentFrame := 0;
      var fs := LoadFrames(tex, k);
      frames := fs;
      if |fs| > 0 {
        spriteW := tex(fs[0]).Width() as real * EnemyScale;
        spriteH := tex(fs[0]).Height() as real * EnemyScale;
      } else {
        spriteW, spriteH := 0.0, 0.0;
      }
    }

    method Update(deltaTime: real, sine: real -> Wave)
      requires Valid()
      modifies this
      ensures Valid()
      ensures Data() == Step(old(Data()), deltaTime, sine, |frames|)
    {
      if !active {
        return;
      }
      wantsToShootFlag := false;
      UpdateMovement(deltaTime, sine);
      UpdateAnimation(deltaTime);
      if x < OffscreenX {
        active := false;
      }
    }

    method UpdateMovement(deltaTime: real, sine: real -> Wave)
      modifies this
      ensures Valid() == old(Valid())
      ensures Data() == Move(old(Data()), deltaTime, sine)
    {
      match kind
      case Flyer => MoveFlyer(deltaTime, sine);
      case Shooter => MoveShooter(deltaTime, sine);
      case Chaser =>
        var acceleration := ChaseFactor(targetX, x);
        x := x - speed * acceleration * deltaTime;
      case Walker =>
        x := x - speed * deltaTime;
    }

    method MoveFlyer(deltaTime: real, sine: real -> Wave)
      requires kind == Flyer
      modifies this
      ensures Data() == Move(old(Data()), deltaTime, sine)
    {
      sineTimer := sineTimer + deltaTime * FlyerPhaseRate;
      x := x - speed * deltaTime;
      y := y + sine(sineTimer) * FlyerBob * deltaTime;
    }

    method MoveShooter(deltaTime: real, sine: real -> Wave)
      requires kind == Shooter
      modifies this
      ensures Data() == Move(old(Data()), deltaTime, sine)
    {
      shootTimer := shootTimer + deltaTime;
      x := x - (speed * ShooterSlowdown) * deltaTime;
      if shootTimer >= ShootPeriod {
        wantsToShootFlag := true;
        shootTimer := 0.0;
      }
    }

    method UpdateAnimation(deltaTime: real)
      requires Valid()
      modifies this
      ensures Valid()
      ensures Data() == Animate(old(Data()), deltaTime, |frames|)
    {
      if |frames| == 0 {
        return;
      }
      animTimer := animTimer + deltaTime;
      if animTimer >= EnemyFrameTime {
        animTimer := 0.0;
        currentFrame := (currentFrame + 1) % |frames|;
      }
    }

    function GetBounds(): (r: Rect)
      reads this
      ensures r == Rect(x, y, spriteW, spriteH)
    {
      Rect(x, y, spriteW, spriteH)
    }

    function IsActive(): (r: bool)
      reads this
      ensures r == Data().active
    {
      active
    }

    method SetActive(a: bool)
      modifies this
      ensures Data() == old(Data()).(active := a)
    {
      active := a;
    }

    method Reset(px: real, py: real)
      modifies this
      ensures Valid()
      ensures Data() == Respawn(old(Data()), px, py)
    {
      x, y := px, py;
      active := true;
      sineTimer, shootTimer, animTimer := 0.0, 0.0, 0.0;
      currentFrame := 0;
    }

    method SetTargetPosition(tx: real, ty: real)
      modifies this
      ensures Data() == old(Data()).(targetX := tx, targetY := ty)
    {
      targetX, targetY := tx, ty;
    }

    function WantsToShoot(): (r: bool)
      reads this
      ensures r == Data().wantsToShoot
    {
      wantsToShootFlag
    }

    function GetShootOrigin(): (p: (real, real))
      reads this
      ensures p == ShootOrigin(Data())
    {
      (x + -20.0, y + 10.0)
    }
  }
}
