// The player physics: gravity integration, edge-triggered jump and slide input, the
// Idle/Running/Jumping/Sliding/Dead state machine, the double jump, timed
// speed and ice effects, and the score.
module PlayerPhysics {
  import opened Geometry
  import opened Assets

  datatype PlayerState = Idle | Running | Jumping | Sliding | Dead

  /** The keyboard keys the game distinguishes. */
  datatype Key = Space | Up | W | Down | S | P | Escape | OtherKey

  predicate IsJumpKey(k: Key) { k == Space || k == Up || k == W }
  predicate IsSlideKey(k: Key) { k == Down || k == S }

  /**
   * A snapshot of the keys `update` polls with `sf::Keyboard::isKeyPressed`:
   * Space, Up or W held; Down or S held.
   */
  datatype Input = Input(jumpHeld: bool, slideHeld: bool)

  const Gravity: real := 1200.0
  /** The strong impulse of the second, airborne jump. */
  const JumpStrength: real := -800.0
  /** The weaker impulse of the first jump of a sequence. */
  const SmallJumpStrength: real := -450.0
  const SlideDuration: real := 0.5
  const MaxJumps: int := 2
  const InitialRunSpeed: real := 150.0
  const DeathHop: real := -200.0
  const StartX: real := 100.0
  const StartY: real := 400.0
  const SpriteScale: real := 0.4
  /** The horizontal speed above which a grounded player counts as running. */
  const RunThreshold: real := 5.0
  /** `getRunSpeed` multiplies by this while the ice timer runs. */
  const IceFactor: real := 0.4

  /**
   * The simulation state of a `Player`. `spaceLatch` and `downLatch` are the
   * source's `spacePressed_` and `downPressed_` edge detectors.
   */
  datatype Body = Body(
    state: PlayerState,
    vx: real, vy: real,
    x: real, y: real,
    runSpeed: real,
    boost: real, boostTimer: real,
    iceTimer: real,
    slideTimer: real,
    grounded: bool, facingRight: bool, sliding: bool,
    score: int,
    spaceLatch: bool, downLatch: bool,
    jumpsUsed: int)
  {
    /** The double-jump counter stays within its cap. */
    predicate Valid() { 0 <= jumpsUsed <= MaxJumps }
  }

  /** The body a freshly constructed player has. */
  const Initial := Body(Idle, 0.0, 0.0, StartX, StartY, InitialRunSpeed, 1.0, 0.0, 0.0, 0.0,
                        false, true, false, 0, false, false, 0)

  /** A jump is accepted unless the player is dead or airborne with both jumps used. */
  predicate JumpAccepted(b: Body)
  {
    b.state != Dead && (b.grounded || b.jumpsUsed < MaxJumps)
  }

  /** `jump()`. */
  function Jump(b: Body): (r: Body)
    ensures b.Valid() ==> r.Valid()
    ensures !JumpAccepted(b) ==> r == b
    ensures JumpAccepted(b) ==>
              r.state == Jumping && !r.grounded &&
              r.jumpsUsed == (if b.grounded then 1 else b.jumpsUsed + 1) &&
              r.vy == (if r.jumpsUsed == 1 then SmallJumpStrength else JumpStrength) &&
              r == b.(state := Jumping, grounded := false, jumpsUsed := r.jumpsUsed, vy := r.vy)
  {
    if b.state == Dead then b
    else
      var used := if b.grounded then 0 else b.jumpsUsed;
      if used >= MaxJumps then b.(jumpsUsed := used)
      else
        var n := used + 1;
        b.(jumpsUsed := n,
           vy := if n == 1 then SmallJumpStrength else JumpStrength,
           grounded := false,
           state := Jumping)
  }

  /** `slide()`. */
  function Slide(b: Body): (r: Body)
    ensures b.grounded && !b.sliding && b.state != Dead ==>
              r == b.(sliding := true, slideTimer := SlideDuration, state := Sliding)
    ensures !(b.grounded && !b.sliding && b.state != Dead) ==> r == b
  {
    if b.grounded && !b.sliding && b.state != Dead then
      b.(sliding := true, slideTimer := SlideDuration, state := Sliding)
    else b
  }

  /** `die()`: acts once. */
  function Die(b: Body): (r: Body)
    ensures r.state == Dead
    ensures b.state == Dead ==> r == b
    ensures b.state != Dead ==> r == b.(state := Dead, vx := 0.0, vy := DeathHop)
  {
    if b.state != Dead then b.(state := Dead, vx := 0.0, vy := DeathHop) else b
  }

  /** `reset()`: back to the start pose. Run speed, boost and ice are not reset. */
  function Respawn(b: Body): (r: Body)
    ensures r.Valid() && r.state == Idle && r.score == 0 && r.jumpsUsed == 0
    ensures r.x == StartX && r.y == StartY && r.vx == 0.0 && r.vy == 0.0
    ensures r.runSpeed == b.runSpeed && r.boost == b.boost && r.boostTimer == b.boostTimer
    ensures r.iceTimer == b.iceTimer
  {
    b.(state := Idle, x := StartX, y := StartY, vx := 0.0, vy := 0.0,
       grounded := false, sliding := false, slideTimer := 0.0, facingRight := true,
       score := 0, spaceLatch := false, downLatch := false, jumpsUsed := 0)
  }

  /** `setGrounded(g)`: a landing ends a jump and refills the jumps. */
  function SetGrounded(b: Body, g: bool): (r: Body)
    ensures b.Valid() ==> r.Valid()
    ensures r.grounded == g
    ensures g && b.state == Jumping && !b.sliding ==>
              r == b.(grounded := true, state := Running, jumpsUsed := 0)
    ensures !(g && b.state == Jumping && !b.sliding) ==> r == b.(grounded := g)
  {
    if g && b.state == Jumping && !b.sliding then
      b.(grounded := true, state := Running, jumpsUsed := 0)
    else b.(grounded := g)
  }

  /** `bounce(strength)`: launched with one jump still available (no Dead check, as written). */
  function Bounce(b: Body, strength: real): (r: Body)
    ensures r.Valid() && r.jumpsUsed == 1 && r.vy == strength
    ensures !r.grounded && r.state == Jumping
  {
    b.(vy := strength, grounded := false, state := Jumping, jumpsUsed := 1)
  }

  /** `setScore(s)` never stores a negative score. */
  function ClampScore(s: int): (r: int)
    ensures r >= 0
    ensures s >= 0 ==> r == s
    ensures s < 0 ==> r == 0
  {
    MaxInt(0, s)
  }

  /** `setIceTime(d)`: the ice timer only ever lengthens. */
  function ExtendIce(b: Body, d: real): (r: Body)
    ensures r.iceTimer >= b.iceTimer && r.iceTimer >= d
    ensures r.iceTimer == b.iceTimer || r.iceTimer == d
    ensures r == b.(iceTimer := r.iceTimer)
  {
    b.(iceTimer := Max(b.iceTimer, d))
  }

  /** `getRunSpeed()`: base speed times boost, times 0.4 while iced. */
  function RunSpeed(b: Body): (r: real)
    ensures b.iceTimer <= 0.0 ==> r == b.runSpeed * b.boost
    ensures b.iceTimer > 0.0 ==> r == IceFactor * (b.runSpeed * b.boost)
  {
    var iceBonus := if b.iceTimer > 0.0 then IceFactor else 1.0;
    b.runSpeed * b.boost * iceBonus
  }

  /** Ice slows the player down; it does not speed it up. */
  lemma IceSlowsDown(b: Body)
    requires b.iceTimer > 0.0 && b.runSpeed * b.boost > 0.0
    ensures 0.0 < RunSpeed(b) < b.runSpeed * b.boost
  {
  }

  /** The speed-boost and ice timers of `update`. */
  function DecayEffects(b: Body, dt: real): (r: Body)
    ensures b.boostTimer > 0.0 ==> r.boostTimer == b.boostTimer - dt
    ensures b.boostTimer > 0.0 && b.boostTimer - dt <= 0.0 ==> r.boost == 1.0
    ensures !(b.boostTimer > 0.0 && b.boostTimer - dt <= 0.0) ==> r.boost == b.boost
    ensures b.iceTimer > 0.0 ==> r.iceTimer == Max(0.0, b.iceTimer - dt)
    ensures b.iceTimer >= 0.0 ==> r.iceTimer >= 0.0
    ensures r == b.(boost := r.boost, boostTimer := r.boostTimer, iceTimer := r.iceTimer)
    ensures b.Valid() ==> r.Valid()
    ensures (r.state == Dead) == (b.state == Dead)
  {
    var b1 := if b.boostTimer > 0.0 then
                var t := b.boostTimer - dt;
                b.(boostTimer := t, boost := if t <= 0.0 then 1.0 else b.boost)
              else b;
    if b1.iceTimer > 0.0 then b1.(iceTimer := Max(0.0, b1.iceTimer - dt)) else b1
  }

  /** A jump key going down or up: one jump per press, ignored while sliding. */
  function JumpKey(b: Body, pressed: bool): (r: Body)
    ensures pressed && !b.spaceLatch && !b.sliding ==> r == Jump(b).(spaceLatch := true)
    ensures !pressed ==> r == b.(spaceLatch := false)
    ensures pressed && (b.spaceLatch || b.sliding) ==> r == b
    ensures b.Valid() ==> r.Valid()
    ensures (r.state == Dead) == (b.state == Dead)
    ensures RunSpeed(r) == RunSpeed(b) && r.sliding == b.sliding && r.score == b.score
  {
    if pressed && !b.spaceLatch && !b.sliding then Jump(b).(spaceLatch := true)
    else if !pressed then b.(spaceLatch := false)
    else b
  }

  /** The edge-triggered slide that `update` polls: one slide per press of Down or S. */
  function PollSlide(b: Body, held: bool): (r: Body)
    ensures held && !b.downLatch && b.grounded && !b.sliding ==> r == Slide(b).(downLatch := true)
    ensures !held ==> r == b.(downLatch := false)
    ensures held && (b.downLatch || !b.grounded || b.sliding) ==> r == b
    ensures b.Valid() ==> r.Valid()
    ensures (r.state == Dead) == (b.state == Dead) && r.score == b.score
  {
    if held then
      if !b.downLatch && b.grounded && !b.sliding then Slide(b).(downLatch := true) else b
    else b.(downLatch := false)
  }

  /** A slide key event of `handleInput`: the latch follows the key, a press slides when possible. */
  function SlideKey(b: Body, pressed: bool): (r: Body)
    ensures r.downLatch == pressed
    ensures pressed && b.grounded && !b.sliding && b.state != Dead ==>
              r == b.(downLatch := true, sliding := true, slideTimer := SlideDuration, state := Sliding)
    ensures !(pressed && b.grounded && !b.sliding) ==> r == b.(downLatch := pressed)
    ensures b.Valid() ==> r.Valid()
    ensures (r.state == Dead) == (b.state == Dead)
  {
    var b1 := b.(downLatch := pressed);
    if pressed && b1.grounded && !b1.sliding then Slide(b1) else b1
  }

  /** Auto-run: the run speed unless sliding, otherwise standing still. */
  function Propel(b: Body): (r: Body)
    ensures !b.sliding && b.state != Dead ==> r == b.(vx := RunSpeed(b), facingRight := true)
    ensures b.sliding || b.state == Dead ==> r == b.(vx := 0.0)
    ensures b.Valid() ==> r.Valid()
    ensures (r.state == Dead) == (b.state == Dead)
  {
    if !b.sliding && b.state != Dead then b.(vx := RunSpeed(b), facingRight := true)
    else b.(vx := 0.0)
  }

  /** The slide timer: the slide flag clears once the timer runs out, the state is not touched. */
  function SlideClock(b: Body, dt: real): (r: Body)
    ensures r.state == b.state
    ensures b.sliding ==> r.slideTimer == b.slideTimer - dt && (r.sliding <==> b.slideTimer - dt > 0.0)
    ensures b.sliding ==> r == b.(slideTimer := r.slideTimer, sliding := r.sliding)
    ensures !b.sliding ==> r == b
    ensures b.Valid() ==> r.Valid()
    ensures (r.state == Dead) == (b.state == Dead)
  {
    if b.sliding then
      var t := b.slideTimer - dt;
      b.(slideTimer := t, sliding := t > 0.0)
    else b
  }

  /** The integration half of `applyPhysics`: gravity while airborne, then position. */
  function Integrate(b: Body, dt: real): (r: Body)
    ensures b.grounded ==> r.vy == 0.0
    ensures !b.grounded ==> r.vy == b.vy + Gravity * dt
    ensures r.x == b.x + b.vx * dt && r.y == b.y + r.vy * dt
    ensures r == b.(vy := r.vy, x := r.x, y := r.y)
    ensures b.Valid() ==> r.Valid()
    ensures (r.state == Dead) == (b.state == Dead)
  {
    var vy := if !b.grounded then b.vy + Gravity * dt else 0.0;
    b.(vy := vy, x := b.x + b.vx * dt, y := b.y + vy * dt)
  }

  /** The state half of `applyPhysics`: airborne means Jumping, grounded means Running or Idle by speed. */
  function Classify(b: Body): (r: Body)
    ensures b.state == Dead || b.state == Sliding ==> r == b
    ensures b.state != Dead && b.state != Sliding && !b.grounded ==> r == b.(state := Jumping)
    ensures b.state != Dead && b.state != Sliding && b.grounded && !b.sliding ==>
              r == b.(state := if Abs(b.vx) > RunThreshold then Running else Idle)
    ensures b.state != Dead && b.state != Sliding && b.grounded && b.sliding ==> r == b
    ensures b.Valid() ==> r.Valid()
    ensures (r.state == Dead) == (b.state == Dead)
  {
    if b.state != Dead && b.state != Sliding then
      if !b.grounded then b.(state := Jumping)
      else if !b.sliding then b.(state := if Abs(b.vx) > RunThreshold then Running else Idle)
      else b
    else b
  }

  /** `applyPhysics(dt)`. */
  function Physics(b: Body, dt: real): (r: Body)
  {
    Classify(Integrate(b, dt))
  }

  /** A dead player only falls. */
  function Fall(b: Body, dt: real): (r: Body)
    ensures r.vy == b.vy + Gravity * dt && r.y == b.y + r.vy * dt
    ensures r == b.(vy := r.vy, y := r.y)
  {
    var vy := b.vy + Gravity * dt;
    b.(vy := vy, y := b.y + vy * dt)
  }

  /** `update(dt)` with the polled keys as `input`. */
  function Step(b: Body, dt: real, input: Input): (r: Body)
  {
    if b.state == Dead then Fall(b, dt)
    else
      Physics(SlideClock(Propel(PollSlide(JumpKey(DecayEffects(b, dt), input.jumpHeld), input.slideHeld)), dt), dt)
  }

  /** `handleInput(key, pressed)`: key events, ignored once dead. */
  function HandleKey(b: Body, key: Key, pressed: bool): (r: Body)
    ensures b.state == Dead ==> r == b
  {
    if b.state == Dead then b
    else
      var b1 := if IsJumpKey(key) then JumpKey(b, pressed) else b;
      if IsSlideKey(key) then SlideKey(b1, pressed) else b1
  }

  /** `getBounds()`: the sprite box shrunk by 15% per side horizontally and 10% vertically, lower while sliding. */
  function Bounds(b: Body, w: real, h: real): (r: Rect)
    requires w >= 0.0 && h >= 0.0
    ensures r.left == b.x + 0.15 * w && r.top == b.y + 0.1 * h && r.width == 0.7 * w
    ensures !b.sliding ==> r.height == 0.8 * h
    ensures b.sliding ==> r.height == 0.6 * (0.8 * h)
    ensures r.width >= 0.0 && 0.0 <= r.height <= 0.8 * h
  {
    var shrinkX := w * 0.15;
    var shrinkY := h * 0.10;
    var height := h - 2.0 * shrinkY;
    Rect(b.x + shrinkX, b.y + shrinkY, w - 2.0 * shrinkX, if b.sliding then height * 0.6 else height)
  }

  // ---- The sprite `updateAnimation` shows, whose size `getBounds` reads ----

  const IdleTexture: string := "player_idle"
  const RunTexture: string := "player_run"
  const RunTexture2: string := "player_run2"
  const JumpTexture: string := "player_jump"
  const SlideTexture: string := "player_slide"
  const DeathTexture: string := "player_death"
  /** The run cycle: the clock restarts once it reaches this. */
  const RunCycle: real := 0.15

  /**
   * The sprite's drawn size (texture size times the 0.4 scale) and the run
   * cycle's clock, `updateAnimation`'s static `runAnimTime`.
   */
  datatype Look = Look(w: real, h: real, runClock: real)
  {
    predicate Sized() { w >= 0.0 && h >= 0.0 }
  }

  /** `setTexture` with `setTextureRect` over the whole texture, when the texture exists; the clock is kept. */
  function Wear(l: Look, tex: Textures, name: string): (r: Look)
    ensures r.runClock == l.runClock
    ensures Has(tex, name) ==> r.w == SpriteScale * tex(name).w as real && r.h == SpriteScale * tex(name).h as real
    ensures !Has(tex, name) ==> r == l
    ensures l.Sized() ==> r.Sized()
  {
    if Has(tex, name) then l.(w := SpriteScale * tex(name).w as real, h := SpriteScale * tex(name).h as real) else l
  }

  /** `static_cast<int>`: truncation toward zero. */
  function Truncate(x: real): (n: int)
    ensures x >= 0.0 ==> n == x.Floor
    ensures x < 0.0 ==> n == -((-x).Floor)
  {
    if x >= 0.0 then x.Floor else -((-x).Floor)
  }

  /** The running frame for a clock value: the first frame on an even tenth, the second on an odd one. */
  function RunFrame(clock: real): string
  {
    if Truncate(clock * 10.0) % 2 == 0 then RunTexture else RunTexture2
  }

  /** The texture of each state other than Running. */
  function StillTexture(s: PlayerState): string
  {
    match s
    case Idle => IdleTexture
    case Running => RunTexture
    case Jumping => JumpTexture
    case Sliding => SlideTexture
    case Dead => DeathTexture
  }

  /** `updateAnimation(dt)` in state `s`: the run clock ticks and wraps while running; the sprite wears the state's texture. */
  function Pose(l: Look, s: PlayerState, dt: real, tex: Textures): (r: Look)
    ensures l.Sized() ==> r.Sized()
    ensures s != Running ==> r == Wear(l, tex, StillTexture(s))
  {
    if s == Running then
      var t := l.runClock + dt;
      var c := l.(runClock := if t >= RunCycle then 0.0 else t);
      if Has(tex, RunTexture) && Has(tex, RunTexture2) then Wear(c, tex, RunFrame(c.runClock))
      else Wear(c, tex, RunTexture)
    else Wear(l, tex, StillTexture(s))
  }

  /**
   * Outside the run the sprite takes the size of the state's own texture (and
   * keeps its old size when that texture is missing); the run clock stands still.
   */
  lemma PoseWearsStateTexture(l: Look, s: PlayerState, dt: real, tex: Textures)
    requires s != Running
    ensures Pose(l, s, dt, tex).runClock == l.runClock
    ensures Has(tex, StillTexture(s)) ==>
              Pose(l, s, dt, tex).w == SpriteScale * tex(StillTexture(s)).w as real &&
              Pose(l, s, dt, tex).h == SpriteScale * tex(StillTexture(s)).h as real
    ensures !Has(tex, StillTexture(s)) ==> Pose(l, s, dt, tex) == l
  {
  }

  /**
   * While running, a clock in [0, 0.15) stays there on a forward step, and with
   * both run textures the first frame shows for the clock's first tenth of a
   * second and the second frame for the rest of the cycle.
   */
  lemma RunCycleAlternates(l: Look, dt: real, tex: Textures)
    requires 0.0 <= l.runClock < RunCycle && dt >= 0.0
    requires Has(tex, RunTexture) && Has(tex, RunTexture2)
    ensures var r := Pose(l, Running, dt, tex);
            0.0 <= r.runClock < RunCycle &&
            (r.runClock == (if l.runClock + dt >= RunCycle then 0.0 else l.runClock + dt)) &&
            (r.runClock < 0.1 ==> r.w == SpriteScale * tex(RunTexture).w as real && r.h == SpriteScale * tex(RunTexture).h as real) &&
            (r.runClock >= 0.1 ==> r.w == SpriteScale * tex(RunTexture2).w as real && r.h == SpriteScale * tex(RunTexture2).h as real)
  {
    var t := l.runClock + dt;
    var c := if t >= RunCycle then 0.0 else t;
    if c < 0.1 {
      assert (c * 10.0).Floor == 0;
      assert RunFrame(c) == RunTexture;
    } else {
      assert (c * 10.0).Floor == 1;
      assert RunFrame(c) == RunTexture2;
    }
  }

  /** With only the first run texture, a runner always wears it; with neither, the sprite keeps its size. */
  lemma RunWithoutSecondFrame(l: Look, dt: real, tex: Textures)
    requires !Has(tex, RunTexture2)
    ensures Has(tex, RunTexture) ==>
              Pose(l, Running, dt, tex).w == SpriteScale * tex(RunTexture).w as real &&
              Pose(l, Running, dt, tex).h == SpriteScale * tex(RunTexture).h as real
    ensures !Has(tex, RunTexture) ==>
              Pose(l, Running, dt, tex).w == l.w && Pose(l, Running, dt, tex).h == l.h
  {
  }

  /** The hitbox is measured on the texture of the current state: a jumping player's box is the jump texture's, shrunk. */
  lemma HitboxFollowsPose(b: Body, l: Look, dt: real, tex: Textures)
    requires l.Sized() && b.state != Running && Has(tex, StillTexture(b.state))
    ensures var r := Pose(l, b.state, dt, tex);
            Bounds(b, r.w, r.h).width == 0.7 * (SpriteScale * tex(StillTexture(b.state)).w as real) &&
            Bounds(b, r.w, r.h).height ==
              (if b.sliding then 0.48 else 0.8) * (SpriteScale * tex(StillTexture(b.state)).h as real)
  {
  }

  // ---- Properties of the state machine ----

  /** Death is one-way: nothing but `reset` leaves the Dead state. (`bounce` is the exception, see Bounce.) */
  lemma DeadIsAbsorbing(b: Body, dt: real, input: Input, key: Key, pressed: bool, g: bool)
    requires b.state == Dead
    ensures Jump(b) == b && Slide(b) == b && Die(b) == b && HandleKey(b, key, pressed) == b
    ensures SetGrounded(b, g).state == Dead && Physics(b, dt).state == Dead
    ensures Step(b, dt, input) == Fall(b, dt)
  {
  }

  /** `update` never kills and never revives. */
  lemma StepKeepsLife(b: Body, dt: real, input: Input)
    ensures (Step(b, dt, input).state == Dead) <==> (b.state == Dead)
  {
  }

  /** `update` never touches the score. */
  lemma StepKeepsScore(b: Body, dt: real, input: Input)
    ensures Step(b, dt, input).score == b.score
  {
    if b.state != Dead {
      var c := SlideClock(Propel(PollSlide(JumpKey(DecayEffects(b, dt), input.jumpHeld), input.slideHeld)), dt);
      assert c.score == b.score;
      assert Step(b, dt, input) == Classify(Integrate(c, dt));
    }
  }

  /** A key event never touches the score and never moves the player. */
  lemma KeyKeepsScore(b: Body, key: Key, pressed: bool)
    ensures HandleKey(b, key, pressed).score == b.score && HandleKey(b, key, pressed).x == b.x
    ensures b.Valid() ==> HandleKey(b, key, pressed).Valid()
  {
  }

  /** `update` keeps the jump counter within its cap. */
  lemma StepValid(b: Body, dt: real, input: Input)
    requires b.Valid()
    ensures Step(b, dt, input).Valid()
  {
  }

  /** From the ground: a small jump, then a big one, then a third press changes nothing. */
  lemma DoubleJumpFromGround(b: Body)
    requires b.Valid() && b.state != Dead && b.grounded
    ensures Jump(b).vy == SmallJumpStrength && Jump(b).jumpsUsed == 1
    ensures Jump(Jump(b)).vy == JumpStrength && Jump(Jump(b)).jumpsUsed == 2
    ensures Jump(Jump(Jump(b))) == Jump(Jump(b))
    ensures SmallJumpStrength > JumpStrength
  {
  }

  /** After a bounce exactly one more (big) jump is accepted. */
  lemma BounceLeavesOneJump(b: Body, strength: real)
    requires b.state != Dead
    ensures JumpAccepted(Bounce(b, strength))
    ensures Jump(Bounce(b, strength)).vy == JumpStrength
    ensures !JumpAccepted(Jump(Bounce(b, strength)))
  {
  }

  /** Landing from a jump gives Running with both jumps available again. */
  lemma LandingRefillsJumps(b: Body)
    requires b.state == Jumping && !b.sliding
    ensures SetGrounded(b, true).state == Running && SetGrounded(b, true).jumpsUsed == 0
    ensures JumpAccepted(SetGrounded(b, true))
  {
  }

  /**
   * The Sliding state outlives the slide: once the timer clears the slide flag,
   * `update` still reports Sliding until a jump, a bounce or death.
   */
  lemma SlidingStateOutlivesSlide(b: Body, dt: real)
    requires b.state == Sliding && b.sliding && b.slideTimer - dt <= 0.0
    ensures !Step(b, dt, Input(false, false)).sliding
    ensures Step(b, dt, Input(false, false)).state == Sliding
    ensures Step(Step(b, dt, Input(false, false)), dt, Input(false, false)).state == Sliding
  {
  }

  /** Holding the jump key fires one jump, not one per frame. */
  lemma HeldJumpFiresOnce(b: Body, dt: real)
    requires b.Valid() && b.state != Dead && b.grounded && !b.sliding && !b.spaceLatch
    requires b.boostTimer <= 0.0
    ensures Step(b, dt, Input(true, false)).spaceLatch
    ensures Step(b, dt, Input(true, false)).jumpsUsed == 1
    ensures Step(Step(b, dt, Input(true, false)), dt, Input(true, false)).jumpsUsed == 1
  {
  }

  /** While not sliding and alive, the horizontal speed after `update` is the (decayed) run speed. */
  lemma StepRunsAtRunSpeed(b: Body, dt: real, input: Input)
    requires b.state != Dead && !b.sliding && !input.slideHeld
    ensures Step(b, dt, input).vx == RunSpeed(DecayEffects(b, dt))
  {
    var b1 := DecayEffects(b, dt);
    var b2 := JumpKey(b1, input.jumpHeld);
    assert !b2.sliding && b2.state != Dead && RunSpeed(b2) == RunSpeed(b1);
    var b3 := Propel(PollSlide(b2, input.slideHeld));
    assert b3.vx == RunSpeed(b1) && !b3.sliding;
  }

}

// `class Player`: the source's fields, each method proved to act on them as
// the matching function of PlayerPhysics acts on the snapshot.
module Players {
  import opened Geometry
  import opened Assets
  import opened PlayerPhysics

  /** `class Player` with the source's fields; the sprite size follows the texture of the current state. */
  class Player {
    var state: PlayerState
    var vx: real
    var vy: real
    var x: real
    var y: real
    var runSpeed: real
    var speedBoostMultiplier: real
    var speedBoostTimer: real
    var iceTimer: real
    var slideTimer: real
    var grounded: bool
    var facingRight: bool
    var isSliding: bool
    var score: int
    var spacePressed: bool
    var downPressed: bool
    var jumpsUsed: int
    /** The drawn sprite's size: the current texture's pixel size times the 0.4 scale. */
    var spriteW: real
    var spriteH: real
    /** `updateAnimation`'s static run-cycle clock. */
    var runAnimTime: real
    /** The textures the resource manager holds. */
    const tex: Textures

    function Data(): Body
      reads this
    {
      Body(state, vx, vy, x, y, runSpeed, speedBoostMultiplier, speedBoostTimer, iceTimer,
           slideTimer, grounded, facingRight, isSliding, score, spacePressed, downPressed, jumpsUsed)
    }

    function Sprite(): Look
      reads this
    {
      Look(spriteW, spriteH, runAnimTime)
    }

    ghost predicate Valid()
      reads this
    {
      Data().Valid() && Sprite().Sized()
    }

    constructor (tex: Textures)
      ensures Valid() && Data() == Initial && this.tex == tex
      ensures Sprite() == Wear(Look(0.0, 0.0, 0.0), tex, IdleTexture)
    {
      this.tex := tex;
      spriteW, spriteH, runAnimTime := 0.0, 0.0, 0.0;
      if Has(tex, IdleTexture) {
        spriteW := SpriteScale * tex(IdleTexture).w as real;
        spriteH := SpriteScale * tex(IdleTexture).h as real;
      }
      state := Idle;
      vx, vy := 0.0, 0.0;
      x, y := StartX, StartY;
      runSpeed := InitialRunSpeed;
      speedBoostMultiplier, speedBoostTimer := 1.0, 0.0;
      iceTimer, slideTimer := 0.0, 0.0;
      grounded, facingRight, isSliding := false, true, false;
      score := 0;
      spacePressed, downPressed := false, false;
      jumpsUsed := 0;
    }

    /** `update(dt)`: the body steps, then the sprite takes the pose of the state reached (a dead player is posed first). */
    method Update(deltaTime: real, input: Input)
      requires Valid()
      modifies this
      ensures Valid()
      ensures Data() == Step(old(Data()), deltaTime, input)
      ensures Sprite() == Pose(old(Sprite()), Data().state, deltaTime, tex)
    {
      if state == Dead {
        UpdateAnimation(deltaTime);
        vy := vy + Gravity * deltaTime;
        y := y + vy * deltaTime;
        return;
      }
      UpdateEffects(deltaTime);
      PressJump(input.jumpHeld);
      PollSlide(input.slideHeld);
      AutoRun();
      UpdateSlide(deltaTime);
      ApplyPhysics(deltaTime);
      UpdateAnimation(deltaTime);
    }

    /** `updateAnimation(dt)`: the texture of the current state, the run frames alternating on the run clock. */
    method UpdateAnimation(deltaTime: real)
      requires Sprite().Sized()
      modifies this
      ensures Data() == old(Data()) && Sprite().Sized()
      ensures Sprite() == Pose(old(Sprite()), state, deltaTime, tex)
    {
      match state {
        case Idle =>
          if Has(tex, IdleTexture) { SetTexture(IdleTexture); }
        case Running =>
          runAnimTime := runAnimTime + deltaTime;
          if runAnimTime >= RunCycle {
            runAnimTime := 0.0;
          }
          if Has(tex, RunTexture) && Has(tex, RunTexture2) {
            if Truncate(runAnimTime * 10.0) % 2 == 0 {
              SetTexture(RunTexture);
            } else {
              SetTexture(RunTexture2);
            }
          } else if Has(tex, RunTexture) {
            SetTexture(RunTexture);
          }
        case Jumping =>
          if Has(tex, JumpTexture) { SetTexture(JumpTexture); }
        case Sliding =>
          if Has(tex, SlideTexture) { SetTexture(SlideTexture); }
        case Dead =>
          if Has(tex, DeathTexture) { SetTexture(DeathTexture); }
      }
    }

    /** `setTexture` and a texture rectangle over the whole of it: the sprite takes the texture's size. */
    method SetTexture(name: string)
      requires Has(tex, name)
      modifies this
      ensures Data() == old(Data())
      ensures Sprite() == Wear(old(Sprite()), tex, name)
    {
      spriteW := SpriteScale * tex(name).w as real;
      spriteH := SpriteScale * tex(name).h as real;
    }

    /** The speed-boost and ice timers at the start of `update`. */
    method UpdateEffects(deltaTime: real)
      modifies this
      ensures Sprite() == old(Sprite())
      ensures Data() == DecayEffects(old(Data()), deltaTime)
    {
      if speedBoostTimer > 0.0 {
        speedBoostTimer := speedBoostTimer - deltaTime;
        if speedBoostTimer <= 0.0 {
          speedBoostMultiplier := 1.0;
        }
      }
      if iceTimer > 0.0 {
        iceTimer := Max(0.0, iceTimer - deltaTime);
      }
    }

    /** A jump key pressed or released, shared by `update`'s polling and `handleInput`. */
    method PressJump(pressed: bool)
      requires Valid()
      modifies this
      ensures Sprite() == old(Sprite())
      ensures Valid()
      ensures Data() == JumpKey(old(Data()), pressed)
    {
      if pressed && !spacePressed && !isSliding {
        Jump();
        spacePressed := true;
      } else if !pressed {
        spacePressed := false;
      }
    }

    /** The slide keys as `update` polls them. */
    method PollSlide(held: bool)
      modifies this
      ensures Sprite() == old(Sprite())
      ensures Data() == PlayerPhysics.PollSlide(old(Data()), held)
    {
      if held {
        if !downPressed && grounded && !isSliding {
          Slide();
          downPressed := true;
        }
      } else {
        downPressed := false;
      }
    }

    /** The automatic forward run of `update`. */
    method AutoRun()
      modifies this
      ensures Sprite() == old(Sprite())
      ensures Data() == Propel(old(Data()))
    {
      if !isSliding && state != Dead {
        vx := GetRunSpeed();
        facingRight := true;
      } else {
        vx := 0.0;
      }
    }

    method UpdateSlide(deltaTime: real)
      modifies this
      ensures Sprite() == old(Sprite())
      ensures Data() == SlideClock(old(Data()), deltaTime)
    {
      if isSliding {
        slideTimer := slideTimer - deltaTime;
        if slideTimer <= 0.0 {
          isSliding := false;
        }
      }
    }

    method HandleInput(key: Key, pressed: bool)
      requires Valid()
      modifies this
      ensures Sprite() == old(Sprite())
      ensures Valid()
      ensures Data() == HandleKey(old(Data()), key, pressed)
    {
      if state == Dead {
        return;
      }
      if IsJumpKey(key) {
        PressJump(pressed);
      }
      if IsSlideKey(key) {
        downPressed := pressed;
        if pressed && grounded && !isSliding {
          Slide();
        }
      }
    }

    method ApplyPhysics(deltaTime: real)
      modifies this
      ensures Sprite() == old(Sprite())
      ensures Data() == Physics(old(Data()), deltaTime)
    {
      Integrate(deltaTime);
      RefreshState();
    }

    method Integrate(deltaTime: real)
      modifies this
      ensures Sprite() == old(Sprite())
      ensures Data() == PlayerPhysics.Integrate(old(Data()), deltaTime)
    {
      if !grounded {
        vy := vy + Gravity * deltaTime;
      } else {
        vy := 0.0;
      }
      x := x + vx * deltaTime;
      y := y + vy * deltaTime;
    }

    method RefreshState()
      modifies this
      ensures Sprite() == old(Sprite())
      ensures Data() == Classify(old(Data()))
    {
      if state != Dead && state != Sliding {
        if !grounded {
          state := Jumping;
        } else if !isSliding {
          if Abs(vx) > RunThreshold {
            state := Running;
          } else {
            state := Idle;
          }
        }
      }
    }

    method Jump()
      requires Valid()
      modifies this
      ensures Sprite() == old(Sprite())
      ensures Valid()
      ensures Data() == PlayerPhysics.Jump(old(Data()))
    {
      if state == Dead {
        return;
      }
      if grounded {
        jumpsUsed := 0;
      }
      if jumpsUsed >= MaxJumps {
        return;
      }
      jumpsUsed := jumpsUsed + 1;
      vy := if jumpsUsed == 1 then SmallJumpStrength else JumpStrength;
      grounded := false;
      state := Jumping;
    }

    method Slide()
      modifies this
      ensures Sprite() == old(Sprite())
      ensures Data() == PlayerPhysics.Slide(old(Data()))
    {
      if grounded && !isSliding && state != Dead {
        isSliding := true;
        slideTimer := SlideDuration;
        state := Sliding;
      }
    }

    method Die()
      modifies this
      ensures Sprite() == old(Sprite())
      ensures Data() == PlayerPhysics.Die(old(Data()))
    {
      if state != Dead {
        state := Dead;
        vx, vy := 0.0, DeathHop;
      }
    }

    method Reset()
      modifies this
      ensures Sprite() == old(Sprite())
      ensures old(Valid()) ==> Valid()
      ensures Data() == Respawn(old(Data()))
    {
      RestartMotion();
      ClearControls();
      score := 0;
    }

    /** The pose part of `reset`: standing at the start, facing right. */
    method RestartMotion()
      modifies this
      ensures Sprite() == old(Sprite())
      ensures Data() == old(Data()).(state := Idle, x := StartX, y := StartY, vx := 0.0, vy := 0.0, facingRight := true)
    {
      state := Idle;
      x, y := StartX, StartY;
      vx, vy := 0.0, 0.0;
      facingRight := true;
    }

    /** The control part of `reset`: airborne, not sliding, latches up, no jump used. */
    method ClearControls()
      modifies this
      ensures Sprite() == old(Sprite())
      ensures Data() == old(Data()).(grounded := false, sliding := false, slideTimer := 0.0,
                                     spaceLatch := false, downLatch := false, jumpsUsed := 0)
    {
      grounded := false;
      isSliding := false;
      slideTimer := 0.0;
      spacePressed, downPressed := false, false;
      jumpsUsed := 0;
    }

    function IsDead(): (r: bool)
      reads this
      ensures r <==> Data().state == Dead
    {
      state == Dead
    }

    method SetGrounded(g: bool)
      modifies this
      ensures Sprite() == old(Sprite())
      ensures Data() == PlayerPhysics.SetGrounded(old(Data()), g)
    {
      grounded := g;
      if grounded && state == Jumping && !isSliding {
        state := Running;
        jumpsUsed := 0;
      }
    }

    method AddScore(points: int)
      modifies this
      ensures Sprite() == old(Sprite())
      ensures Data() == old(Data()).(score := old(score) + points)
    {
      score := score + points;
    }

    method ResetScore()
      modifies this
      ensures Sprite() == old(Sprite())
      ensures Data() == old(Data()).(score := 0)
    {
      score := 0;
    }

    method SetScore(s: int)
      modifies this
      ensures Sprite() == old(Sprite())
      ensures Data() == old(Data()).(score := ClampScore(s))
    {
      score := MaxInt(0, s);
    }

    method SetRunSpeed(speed: real)
      modifies this
      ensures Sprite() == old(Sprite())
      ensures Data() == old(Data()).(runSpeed := speed)
    {
      runSpeed := speed;
    }

    function GetRunSpeed(): (r: real)
      reads this
      ensures r == RunSpeed(Data())
    {
      var iceBonus := if iceTimer > 0.0 then IceFactor else 1.0;
      runSpeed * speedBoostMultiplier * iceBonus
    }

    method ApplySpeedBoost(multiplier: real, duration: real)
      modifies this
      ensures Sprite() == old(Sprite())
      ensures Data() == old(Data()).(boost := multiplier, boostTimer := duration)
    {
      speedBoostMultiplier := multiplier;
      speedBoostTimer := duration;
    }

    method SetIceTime(duration: real)
      modifies this
      ensures Sprite() == old(Sprite())
      ensures Data() == ExtendIce(old(Data()), duration)
    {
      iceTimer := Max(iceTimer, duration);
    }

    method Bounce(strength: real)
      modifies this
      ensures Sprite() == old(Sprite())
      ensures Data() == PlayerPhysics.Bounce(old(Data()), strength)
    {
      vy := strength;
      grounded := false;
      state := Jumping;
      jumpsUsed := 1;
    }

    method SetVelocityY(v: real)
      modifies this
      ensures Sprite() == old(Sprite())
      ensures Data() == old(Data()).(vy := v)
    {
      vy := v;
    }

    method SetPosition(px: real, py: real)
      modifies this
      ensures Sprite() == old(Sprite())
      ensures Data() == old(Data()).(x := px, y := py)
    {
      x, y := px, py;
    }

    /**
     * The setters the collision loops of the playing state call one after the
     * other (setPosition, setVelocityY, applyTypeEffect, die, setGrounded,
     * applySpeedBoost, addScore, setScore), applied as the one body they leave.
     */
    method Assign(b: Body)
      modifies this
      ensures Sprite() == old(Sprite())
      ensures Data() == b
    {
      AssignMotion(b);
      AssignTimers(b);
      AssignFlags(b);
      AssignCounters(b);
    }

    /** The state, the velocity and the position of `Assign`. */
    method AssignMotion(b: Body)
      modifies this
      ensures Sprite() == old(Sprite())
      ensures Data() == old(Data()).(state := b.state, vx := b.vx, vy := b.vy, x := b.x, y := b.y)
    {
      state, vx, vy, x, y := b.state, b.vx, b.vy, b.x, b.y;
    }

    /** The run speed, the boost and the ice timer of `Assign`. */
    method AssignTimers(b: Body)
      modifies this
      ensures Sprite() == old(Sprite())
      ensures Data() == old(Data()).(runSpeed := b.runSpeed, boost := b.boost, boostTimer := b.boostTimer, iceTimer := b.iceTimer)
    {
      runSpeed, speedBoostMultiplier, speedBoostTimer, iceTimer := b.runSpeed, b.boost, b.boostTimer, b.iceTimer;
    }

    /** The slide timer and the flags of `Assign`. */
    method AssignFlags(b: Body)
      modifies this
      ensures Sprite() == old(Sprite())
      ensures Data() == old(Data()).(slideTimer := b.slideTimer, grounded := b.grounded, facingRight := b.facingRight,
                                     sliding := b.sliding)
    {
      slideTimer, grounded, facingRight, isSliding := b.slideTimer, b.grounded, b.facingRight, b.sliding;
    }

    /** The score, the key latches and the jump counter of `Assign`. */
    method AssignCounters(b: Body)
      modifies this
      ensures Sprite() == old(Sprite())
      ensures Data() == old(Data()).(score := b.score, spaceLatch := b.spaceLatch, downLatch := b.downLatch,
                                     jumpsUsed := b.jumpsUsed)
    {
      score, spacePressed, downPressed, jumpsUsed := b.score, b.spaceLatch, b.downLatch, b.jumpsUsed;
    }

    function GetBounds(): (r: Rect)
      reads this
      requires Valid()
      ensures r == Bounds(Data(), spriteW, spriteH)
    {
      Bounds(Data(), spriteW, spriteH)
    }
  }
}
