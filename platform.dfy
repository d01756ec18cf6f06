// Platforms: ping-pong movement about the spawn point, the one-second
// crumble of breaking platforms, and the effect each type has on the player.
module Ledges {
  import opened Geometry
  import opened Assets
  import PlayerPhysics

  datatype PlatformType = Normal | MovingHorizontal | MovingVertical | Breaking | Bouncy | Ice

  const BreakDelay: real := 1.0
  const BouncyStrength: real := -900.0
  const IceDuration: real := 0.8
  const OutlineThickness: real := 2.0
  const PlainTexture: string := "platform"

  /** The texture each type asks for. */
  function TextureFor(t: PlatformType): (name: string)
    ensures t == Ice ==> name == "platform_snow"
    ensures t == Bouncy ==> name == "platform_cake"
    ensures (t == MovingHorizontal || t == MovingVertical) ==> name == "platform_sand"
    ensures (t == Normal || t == Breaking) ==> name == PlainTexture
  {
    match t
    case Ice => "platform_snow"
    case Bouncy => "platform_cake"
    case MovingHorizontal => "platform_sand"
    case MovingVertical => "platform_sand"
    case _ => PlainTexture
  }

  /** The outline drawn round an untextured platform: 2 when neither its texture nor the plain one exists. */
  function Outline(tex: Textures, t: PlatformType): (o: real)
    ensures o == 0.0 || o == OutlineThickness
    ensures o == OutlineThickness <==> (!Has(tex, TextureFor(t)) && !Has(tex, PlainTexture))
  {
    if Has(tex, TextureFor(t)) || Has(tex, PlainTexture) then 0.0 else OutlineThickness
  }

  /** The whole state of a `Platform`. */
  datatype Ledge = Ledge(
    x: real, y: real, w: real, h: real,
    kind: PlatformType,
    originX: real, originY: real,
    range: real, speed: real,
    movementTimer: real,
    forward: bool,
    breaking: bool, breakTimer: real,
    active: bool)

  /** A new platform: active, at its origin, heading forward, not breaking. */
  function Built(px: real, py: real, w: real, h: real, t: PlatformType, range: real, speed: real): (r: Ledge)
    ensures r.active && !r.breaking && r.forward && r.x == r.originX == px && r.y == r.originY == py
  {
    Ledge(px, py, w, h, t, px, py, range, speed, 0.0, true, false, 0.0, true)
  }

  /** The rectangle a platform covers: its own, grown by the outline on every side. */
  function Bounds(p: Ledge, outline: real): (r: Rect)
    ensures r.left == p.x - outline && r.top == p.y - outline
    ensures r.Right() == p.x + p.w + outline && r.Bottom() == p.y + p.h + outline
  {
    Rect(p.x - outline, p.y - outline, p.w + 2.0 * outline, p.h + 2.0 * outline)
  }

  /** One ping-pong step of a displacement `d` from the origin: move by `step` in the current direction, turn round once `|d| >= range`. */
  function Swing(d: real, forward: bool, step: real, range: real): (r: (real, bool))
    ensures r.0 == (if forward then d + step else d - step)
    ensures r.1 == (if Abs(r.0) >= range then !forward else forward)
  {
    var d' := d + step * (if forward then 1.0 else -1.0);
    (d', if Abs(d' ) >= range then !forward else forward)
  }

  /** `updateMovement(dt)`: only the two moving types move, each along its own axis. */
  function Sway(p: Ledge, dt: real): (r: Ledge)
    ensures r.kind == p.kind && r.active == p.active && r.breaking == p.breaking && r.breakTimer == p.breakTimer
    ensures r.originX == p.originX && r.originY == p.originY && r.range == p.range && r.speed == p.speed
  {
    if p.kind == MovingHorizontal then
      var x := p.x + p.speed * dt * (if p.forward then 1.0 else -1.0);
      p.(x := x, forward := if Abs(x - p.originX) >= p.range then !p.forward else p.forward)
    else if p.kind == MovingVertical then
      var y := p.y + p.speed * dt * (if p.forward then 1.0 else -1.0);
      p.(y := y, forward := if Abs(y - p.originY) >= p.range then !p.forward else p.forward)
    else p
  }

  /** `updateBreaking(dt)`: a crumbling platform's timer runs down and it vanishes at or below zero. */
  function Crumble(p: Ledge, dt: real): (r: Ledge)
    ensures !p.breaking ==> r == p
    ensures p.breaking ==> r == p.(breakTimer := p.breakTimer - dt, active := p.active && p.breakTimer - dt > 0.0)
  {
    if !p.breaking then p
    else
      var t := p.breakTimer - dt;
      if t <= 0.0 then p.(breakTimer := t, active := false) else p.(breakTimer := t)
  }

  /** `update(dt)`: nothing happens to an inactive platform. */
  function Tick(p: Ledge, dt: real): (r: Ledge)
    ensures r.kind == p.kind && r.originX == p.originX && r.originY == p.originY
    ensures r.range == p.range && r.speed == p.speed
  {
    if !p.active then p else Crumble(Sway(p, dt), dt)
  }

  function TickN(p: Ledge, dt: real, n: nat): (r: Ledge)
    decreases n
  {
    if n == 0 then p else TickN(Tick(p, dt), dt, n - 1)
  }

  /** `startBreaking()`: a Breaking platform starts its one-second countdown, once. */
  function StartBreaking(p: Ledge): (r: Ledge)
    ensures p.kind == Breaking && !p.breaking ==> r == p.(breaking := true, breakTimer := BreakDelay)
    ensures p.kind != Breaking || p.breaking ==> r == p
  {
    if p.kind == Breaking && !p.breaking then p.(breaking := true, breakTimer := BreakDelay) else p
  }

  /** `applyTypeEffect(player)`: Bouncy launches the player, Ice ices them, Breaking starts to crumble. */
  function TypeEffect(p: Ledge, b: PlayerPhysics.Body): (r: (Ledge, PlayerPhysics.Body))
    ensures p.kind == Bouncy ==> r == (p, PlayerPhysics.Bounce(b, BouncyStrength))
    ensures p.kind == Ice ==> r == (p, PlayerPhysics.ExtendIce(b, IceDuration))
    ensures p.kind == Breaking ==> r == (StartBreaking(p), b)
    ensures p.kind in {Normal, MovingHorizontal, MovingVertical} ==> r == (p, b)
  {
    match p.kind
    case Bouncy => (p, PlayerPhysics.Bounce(b, BouncyStrength))
    case Ice => (p, PlayerPhysics.ExtendIce(b, IceDuration))
    case Breaking => (StartBreaking(p), b)
    case _ => (p, b)
  }

  // ---- Properties ----

  /** The horizontal mover follows the ping-pong rule for its displacement from the origin. */
  lemma HorizontalIsSwing(p: Ledge, dt: real)
    requires p.kind == MovingHorizontal
    ensures (Sway(p, dt).x - p.originX, Sway(p, dt).forward) == Swing(p.x - p.originX, p.forward, p.speed * dt, p.range)
    ensures Sway(p, dt).y == p.y
  {
    var v := p.speed * dt * (if p.forward then 1.0 else -1.0);
    assert v == (if p.forward then p.speed * dt else -(p.speed * dt));
    var q := Sway(p, dt);
    assert q.x == p.x + v;
    var sw := Swing(p.x - p.originX, p.forward, p.speed * dt, p.range);
    assert sw.0 == q.x - p.originX;
    assert sw.1 == q.forward;
  }

  /** The vertical mover follows the ping-pong rule for its displacement from the origin. */
  lemma VerticalIsSwing(p: Ledge, dt: real)
    requires p.kind == MovingVertical
    ensures (Sway(p, dt).y - p.originY, Sway(p, dt).forward) == Swing(p.y - p.originY, p.forward, p.speed * dt, p.range)
    ensures Sway(p, dt).x == p.x
  {
    var v := p.speed * dt * (if p.forward then 1.0 else -1.0);
    assert v == (if p.forward then p.speed * dt else -(p.speed * dt));
    var q := Sway(p, dt);
    assert q.y == p.y + v;
    var sw := Swing(p.y - p.originY, p.forward, p.speed * dt, p.range);
    assert sw.0 == q.y - p.originY;
    assert sw.1 == q.forward;
  }

  /** Only the moving types move. */
  lemma StaticTypesStayPut(p: Ledge, dt: real)
    requires p.kind in {Normal, Breaking, Bouncy, Ice}
    ensures Tick(p, dt).x == p.x && Tick(p, dt).y == p.y
  {
  }

  /** The swing envelope: never more than one step past the range, and heading back whenever past it. */
  predicate InEnvelope(d: real, forward: bool, step: real, range: real)
  {
    -range - step < d < range + step && (forward ==> d < range) && (!forward ==> d > -range)
  }

  /** The swing keeps its envelope: a mover overshoots its range by less than one step, then turns. */
  lemma SwingStaysInEnvelope(d: real, forward: bool, step: real, range: real)
    requires step >= 0.0
    requires InEnvelope(d, forward, step, range)
    ensures InEnvelope(Swing(d, forward, step, range).0, Swing(d, forward, step, range).1, step, range)
  {
  }

  /** A mover starts inside its envelope (for a positive range and a non-negative step). */
  lemma StartsInEnvelope(step: real, range: real)
    requires range > 0.0 && step >= 0.0
    ensures InEnvelope(0.0, true, step, range)
  {
  }

  /** One update keeps a horizontal mover, stepping `step` = speed * dt, in its envelope. */
  lemma HorizontalTickInEnvelope(p: Ledge, dt: real, step: real)
    requires p.kind == MovingHorizontal && step == p.speed * dt && step >= 0.0
    requires InEnvelope(p.x - p.originX, p.forward, step, p.range)
    ensures InEnvelope(Tick(p, dt).x - p.originX, Tick(p, dt).forward, step, p.range)
  {
    if p.active {
      HorizontalIsSwing(p, dt);
      SwingStaysInEnvelope(p.x - p.originX, p.forward, step, p.range);
      assert Tick(p, dt).x == Sway(p, dt).x && Tick(p, dt).forward == Sway(p, dt).forward;
    }
  }

  /** A horizontal mover stepping `step` = speed * dt each update, within one step of its range and heading back once past it. */
  predicate HorizontalPoised(p: Ledge, dt: real, step: real)
  {
    p.kind == MovingHorizontal && step == p.speed * dt && step >= 0.0 && InEnvelope(p.x - p.originX, p.forward, step, p.range)
  }

  /** One update keeps a horizontal mover poised, about the same origin and range. */
  lemma HorizontalTickRestarts(p: Ledge, dt: real, step: real)
    requires HorizontalPoised(p, dt, step)
    ensures HorizontalPoised(Tick(p, dt), dt, step) && Tick(p, dt).originX == p.originX
  {
    HorizontalTickInEnvelope(p, dt, step);
  }

  /** Any number of updates keep a horizontal mover poised, about the same origin and range. */
  lemma {:induction false} HorizontalPoisedStays(p: Ledge, dt: real, step: real, n: nat)
    requires HorizontalPoised(p, dt, step)
    ensures HorizontalPoised(TickN(p, dt, n), dt, step) && TickN(p, dt, n).originX == p.originX && TickN(p, dt, n).range == p.range
    decreases n
  {
    if n > 0 {
      HorizontalTickRestarts(p, dt, step);
      HorizontalPoisedStays(Tick(p, dt), dt, step, n - 1);
    }
  }

  /** Any number of equal-length updates keep a horizontal mover within one step of its range. */
  lemma HorizontalStaysInEnvelope(p: Ledge, dt: real, step: real, n: nat)
    requires p.kind == MovingHorizontal && step == p.speed * dt && step >= 0.0
    requires InEnvelope(p.x - p.originX, p.forward, step, p.range)
    ensures InEnvelope(TickN(p, dt, n).x - p.originX, TickN(p, dt, n).forward, step, p.range)
  {
    HorizontalPoisedStays(p, dt, step, n);
  }

  /** One update keeps a vertical mover, stepping `step` = speed * dt, in its envelope. */
  lemma VerticalTickInEnvelope(p: Ledge, dt: real, step: real)
    requires p.kind == MovingVertical && step == p.speed * dt && step >= 0.0
    requires InEnvelope(p.y - p.originY, p.forward, step, p.range)
    ensures InEnvelope(Tick(p, dt).y - p.originY, Tick(p, dt).forward, step, p.range)
  {
    if p.active {
      VerticalIsSwing(p, dt);
      SwingStaysInEnvelope(p.y - p.originY, p.forward, step, p.range);
      assert Tick(p, dt).y == Sway(p, dt).y && Tick(p, dt).forward == Sway(p, dt).forward;
    }
  }

  /** A vertical mover stepping `step` = speed * dt each update, within one step of its range and heading back once past it. */
  predicate VerticalPoised(p: Ledge, dt: real, step: real)
  {
    p.kind == MovingVertical && step == p.speed * dt && step >= 0.0 && InEnvelope(p.y - p.originY, p.forward, step, p.range)
  }

  /** One update keeps a vertical mover poised, about the same origin and range. */
  lemma VerticalTickRestarts(p: Ledge, dt: real, step: real)
    requires VerticalPoised(p, dt, step)
    ensures VerticalPoised(Tick(p, dt), dt, step) && Tick(p, dt).originY == p.originY
  {
    VerticalTickInEnvelope(p, dt, step);
  }

  /** Any number of updates keep a vertical mover poised, about the same origin and range. */
  lemma {:induction false} VerticalPoisedStays(p: Ledge, dt: real, step: real, n: nat)
    requires VerticalPoised(p, dt, step)
    ensures VerticalPoised(TickN(p, dt, n), dt, step) && TickN(p, dt, n).originY == p.originY && TickN(p, dt, n).range == p.range
    decreases n
  {
    if n > 0 {
      VerticalTickRestarts(p, dt, step);
      VerticalPoisedStays(Tick(p, dt), dt, step, n - 1);
    }
  }

  /** Any number of equal-length updates keep a vertical mover within one step of its range. */
  lemma VerticalStaysInEnvelope(p: Ledge, dt: real, step: real, n: nat)
    requires p.kind == MovingVertical && step == p.speed * dt && step >= 0.0
    requires InEnvelope(p.y - p.originY, p.forward, step, p.range)
    ensures InEnvelope(TickN(p, dt, n).y - p.originY, TickN(p, dt, n).forward, step, p.range)
  {
    VerticalPoisedStays(p, dt, step, n);
  }

  /** A vanished platform stays vanished: `isBroken()` latches. */
  lemma {:induction false} BrokenStaysBroken(p: Ledge, dt: real, n: nat)
    requires !p.active
    ensures TickN(p, dt, n) == p
    decreases n
  {
    if n > 0 {
      BrokenStaysBroken(Tick(p, dt), dt, n - 1);
    }
  }

  /** Nothing an update does can bring a platform back. */
  lemma NeverReactivates(p: Ledge, dt: real)
    ensures Tick(p, dt).active ==> p.active
  {
  }

  /** A second landing on a crumbling platform does not restart its countdown. */
  lemma CountdownNotRestarted(p: Ledge)
    requires p.breaking
    ensures StartBreaking(p) == p
  {
  }

  /** Total time elapsed over n updates of dt. */
  function Elapsed(dt: real, n: nat): (t: real)
    ensures dt >= 0.0 ==> t >= 0.0
    decreases n
  {
    if n == 0 then 0.0 else Elapsed(dt, n - 1) + dt
  }

  /** A crumbling platform is gone once its remaining time has elapsed. */
  lemma {:induction false} CrumblesInTime(p: Ledge, dt: real, n: nat)
    requires p.breaking && (p.active ==> p.breakTimer > 0.0)
    requires p.breakTimer <= Elapsed(dt, n)
    ensures !TickN(p, dt, n).active
    decreases n
  {
    if n == 0 {
    } else if !p.active {
      BrokenStaysBroken(p, dt, n);
    } else {
      var q := Tick(p, dt);
      assert q.breaking && q.breakTimer == p.breakTimer - dt;
      assert q.breakTimer <= Elapsed(dt, n - 1);
      CrumblesInTime(q, dt, n - 1);
    }
  }

  /** Landing on a Breaking platform leaves it exactly one second to live at one update per second's worth of time. */
  lemma LandedPlatformGoesInOneSecond(p: Ledge, dt: real, n: nat)
    requires p.kind == Breaking && p.active && !p.breaking
    requires BreakDelay <= Elapsed(dt, n)
    ensures !TickN(StartBreaking(p), dt, n).active
  {
    CrumblesInTime(StartBreaking(p), dt, n);
  }
}

// `class Platform`: the source's fields, each method proved to act on them
// as the matching function of Ledges acts on the snapshot.
module Platforms {
  import opened Geometry
  import opened Assets
  import opened Ledges
  import PlayerPhysics
  import Players

  class Platform {
    var x: real
    var y: real
    const w: real
    const h: real
    const kind: PlatformType
    const originX: real
    const originY: real
    const range: real
    const speed: real
    const movementTimer: real
    var movingForward: bool
    var breaking: bool
    var breakTimer: real
    var active: bool
    /** Outline thickness of the drawn shape: 2 when untextured, else 0. */
    const outline: real

    function Data(): Ledge
      reads this
    {
      Ledge(x, y, w, h, kind, originX, originY, range, speed, movementTimer, movingForward,
            breaking, breakTimer, active)
    }

    constructor (tex: Textures, px: real, py: real, sw: real, sh: real, t: PlatformType, movementRange: real, movementSpeed: real)
      ensures Data() == Built(px, py, sw, sh, t, movementRange, movementSpeed)
      ensures outline == Outline(tex, t)
    {
      x, y := px, py;
      w, h := sw, sh;
      kind := t;
      originX, originY := px, py;
      range, speed := movementRange, movementSpeed;
      movementTimer := 0.0;
      movingForward := true;
      breaking, breakTimer := false, 0.0;
      active := true;
      outline := Outline(tex, t);
    }

    method Update(deltaTime: real)
      modifies this
      ensures Data() == Tick(old(Data()), deltaTime)
    {
      if !active {
        return;
      }
      UpdateMovement(deltaTime);
      UpdateBreaking(deltaTime);
    }

    method UpdateMovement(deltaTime: real)
      modifies this
      ensures Data() == Sway(old(Data()), deltaTime)
    {
      if kind == MovingHorizontal {
        var displacement := speed * deltaTime * (if movingForward then 1.0 else -1.0);
        x := x + displacement;
        if Abs(x - originX) >= range {
          movingForward := !movingForward;
        }
      } else if kind == MovingVertical {
        var displacement := speed * deltaTime * (if movingForward then 1.0 else -1.0);
        y := y + displacement;
        if Abs(y - originY) >= range {
          movingForward := !movingForward;
        }
      }
    }

    method StartBreaking()
      modifies this
      ensures Data() == Ledges.StartBreaking(old(Data()))
    {
      if kind == Breaking && !breaking {
        breaking := true;
        breakTimer := BreakDelay;
      }
    }

    method UpdateBreaking(deltaTime: real)
      modifies this
      ensures Data() == Crumble(old(Data()), deltaTime)
    {
      if !breaking {
        return;
      }
      breakTimer := breakTimer - deltaTime;
      if breakTimer <= 0.0 {
        active := false;
      }
    }

    function IsBroken(): (r: bool)
      reads this
      ensures r <==> !Data().active
    {
      !active
    }

    function GetBounds(): (r: Rect)
      reads this
      ensures r == Bounds(Data(), outline)
    {
      Rect(x - outline, y - outline, w + 2.0 * outline, h + 2.0 * outline)
    }

    function GetPosition(): (r: (real, real))
      reads this
      ensures r == (Data().x, Data().y)
    {
      (x, y)
    }

    function GetSize(): (r: (real, real))
      reads this
      ensures r == (Data().w, Data().h)
    {
      (w, h)
    }

    function GetType(): (r: PlatformType)
      reads this
      ensures r == Data().kind
    {
      kind
    }

    function IsActive(): (r: bool)
      reads this
      ensures r == Data().active
    {
      active
    }

    method Deactivate()
      modifies this
      ensures Data() == old(Data()).(active := false)
    {
      active := false;
    }

    method ApplyTypeEffect(player: Players.Player)
      requires player.Valid()
      modifies this, player
      ensures player.Valid()
      ensures (Data(), player.Data()) == TypeEffect(old(Data()), old(player.Data()))
    {
      match kind
      case Bouncy => player.Bounce(BouncyStrength);
      case Ice => player.SetIceTime(IceDuration);
      case Breaking => StartBreaking();
      case _ =>
    }
  }
}
