// The arithmetic of a run (`PlayingState`): distance, spawning, difficulty,
// the camera and its shake, combo and score, lives, power-up timers,
// projectiles, score popups and the pause flag.
module RunRules {
  import opened Geometry
  import opened Assets
  import opened TextFormat
  import PlayerPhysics
  import Pickups
  import EnemyRules
  import Ledges
  import ScreenStack

  /** The random stream: the n-th `std::uniform_real_distribution` draw, normalised to [0, 1). */
  type Draws = nat -> Unit

  const StartLives: int := 3
  const PlayerBaseSpeed: real := 240.0

  // ---- Distance ----

  /** Metres run so far: the furthest of the old value and (x - 100) / 50, never below 0. */
  function Travelled(distance: real, playerX: real): (d: real)
    ensures d >= distance && d >= 0.0 && d >= (playerX - 100.0) / 50.0
    ensures d == distance || d == 0.0 || d == (playerX - 100.0) / 50.0
  {
    Max(distance, Max(0.0, (playerX - 100.0) / 50.0))
  }

  /** Distance never goes back, whatever the player does; it only moves on past its old value by running right. */
  lemma TravelledOnlyGrows(distance: real, x1: real, x2: real)
    requires distance >= 0.0 && x1 <= x2
    ensures Travelled(distance, x1) <= Travelled(distance, x2)
    ensures Travelled(Travelled(distance, x1), x2) == Travelled(distance, x2)
  {
  }

  // ---- Distance-gated spawns ----

  const EnemyEvery: real := 70.0
  const GemEvery: real := 50.0
  const TreatEvery: real := 30.0
  const MaxEnemies: nat := 1

  /** A spawn registered at `last` is due again once `every` metres more have been run. */
  predicate Due(distance: real, last: real, every: real)
  {
    distance - last >= every
  }

  /** The ground Gem placed 450 px ahead of the player every 50 m. */
  function GemAhead(playerX: real): (p: (real, real))
    ensures p == (playerX + 450.0, 570.0)
  {
    (playerX + 450.0, 570.0)
  }

  /** The pair of ground treats placed every 30 m: Heart pickups (the comment says coins), 40 px apart. */
  function TreatsAhead(playerX: real): (r: seq<(real, real, Pickups.Kind)>)
    ensures |r| == 2
    ensures forall i :: 0 <= i < 2 ==> r[i] == (playerX + 400.0 + 40.0 * i as real, 570.0, Pickups.Heart)
  {
    [(playerX + 400.0, 570.0, Pickups.Heart), (playerX + 440.0, 570.0, Pickups.Heart)]
  }

  // ---- Enemy spawning ----

  /** An enemy held by the run, with what its object keeps beside its state: its frame count and sprite size. */
  datatype EnemyEntry = EnemyEntry(foe: EnemyRules.Foe, frameCount: nat, w: real, h: real)

  /** `std::make_unique<Enemy>(position, type, speed)`. */
  function EnemyEntryFor(tex: Textures, px: real, py: real, k: EnemyRules.EnemyKind, speed: real): (r: EnemyEntry)
    ensures r.foe == EnemyRules.Spawned(px, py, k, speed)
    ensures r.frameCount == |EnemyRules.LoadFrames(tex, k)|
  {
    var fs := EnemyRules.LoadFrames(tex, k);
    if |fs| > 0 then
      EnemyEntry(EnemyRules.Spawned(px, py, k, speed), |fs|,
                 tex(fs[0]).Width() as real * EnemyRules.EnemyScale,
                 tex(fs[0]).Height() as real * EnemyRules.EnemyScale)
    else EnemyEntry(EnemyRules.Spawned(px, py, k, speed), 0, 0.0, 0.0)
  }

  /** `enemy->getBounds()`. */
  function EnemyBounds(e: EnemyEntry): Rect
  {
    Rect(e.foe.x, e.foe.y, e.w, e.h)
  }

  /** Enemy speed: 5% over the player's current run speed, scaled by 0.9 + 0.2 * (1 + score / 900). */
  function EnemySpeed(runSpeed: real, score: int): real
  {
    runSpeed * 1.05 * (0.9 + 0.2 * (1.0 + score as real / 900.0))
  }

  /** A fresh enemy always outruns the player it is sent at. */
  lemma EnemiesOutrunThePlayer(runSpeed: real, score: int)
    requires runSpeed > 0.0 && score >= 0
    ensures EnemySpeed(runSpeed, score) >= runSpeed * 1.155
    ensures EnemySpeed(runSpeed, score) > runSpeed
  {
    var base := runSpeed * 1.05;
    var f := 0.9 + 0.2 * (1.0 + score as real / 900.0);
    assert f >= 1.1;
    assert base * (f - 1.1) >= 0.0;
    assert base * f == base * 1.1 + base * (f - 1.1);
  }

  /** `spawnEnemy()` past the cap check: a Walker on the ground, or after a minute a Flyer, 900 to 1150 px right of the camera. */
  function SpawnEnemy(tex: Textures, cameraX: real, worldTime: real, runSpeed: real, score: int,
                      playerX: real, playerY: real, draws: Draws, cursor: nat): (r: (EnemyEntry, nat))
  {
    var flyer := worldTime >= 60.0;
    var x := cameraX + 900.0 + Scale(0.0, 250.0, draws(cursor));
    var y := if flyer then Scale(260.0, 360.0, draws(cursor + 1)) else 540.0;
    var e := EnemyEntryFor(tex, x, y, if flyer then EnemyRules.Flyer else EnemyRules.Walker,
                           EnemySpeed(runSpeed, score));
    (e.(foe := e.foe.(targetX := playerX, targetY := playerY)), if flyer then cursor + 2 else cursor + 1)
  }

  /** Where and what `spawnEnemy` creates, and how many draws it takes. */
  lemma SpawnedEnemyPlacement(tex: Textures, cameraX: real, worldTime: real, runSpeed: real, score: int,
                              playerX: real, playerY: real, draws: Draws, cursor: nat)
    ensures var (e, next) := SpawnEnemy(tex, cameraX, worldTime, runSpeed, score, playerX, playerY, draws, cursor);
            cameraX + 900.0 <= e.foe.x <= cameraX + 1150.0 &&
            (e.foe.kind == EnemyRules.Flyer <==> worldTime >= 60.0) &&
            (e.foe.kind == EnemyRules.Walker <==> worldTime < 60.0) &&
            (worldTime >= 60.0 ==> 260.0 <= e.foe.y <= 360.0 && next == cursor + 2) &&
            (worldTime < 60.0 ==> e.foe.y == 540.0 && next == cursor + 1) &&
            e.foe.active && e.foe.targetX == playerX && e.foe.targetY == playerY &&
            e.foe.speed == EnemySpeed(runSpeed, score) && e.foe.currentFrame == 0
  {
  }

  // ---- Difficulty ----

  /** `updateDifficulty()`'s level: 1 + score / 800 + distance / 800. */
  function Difficulty(score: int, distance: real): real
  {
    1.0 + score as real / 800.0 + distance / 800.0
  }

  /** The run speed it sets: 240 + 32 per level. */
  function RunSpeedAt(d: real): real
  {
    PlayerBaseSpeed + d * 32.0
  }

  /** The gap range it sets for the next platforms. */
  function MinGapAt(d: real): real
  {
    Max(80.0, 140.0 - d * 6.0)
  }

  function MaxGapAt(d: real): real
  {
    Max(140.0, 280.0 - d * 10.0)
  }

  /** The gap range stays a proper range: the minimum in [80, 134], the maximum from 140 up. */
  lemma GapsStayOrdered(score: int, distance: real)
    requires score >= 0 && distance >= 0.0
    ensures var d := Difficulty(score, distance);
            80.0 <= MinGapAt(d) <= 134.0 && MaxGapAt(d) >= 140.0 && MinGapAt(d) < MaxGapAt(d) &&
            RunSpeedAt(d) >= 272.0
  {
  }

  /** A harder run is faster with gaps that never widen. */
  lemma HarderIsFaster(d1: real, d2: real)
    requires d1 <= d2
    ensures RunSpeedAt(d1) <= RunSpeedAt(d2)
    ensures MinGapAt(d2) <= MinGapAt(d1) && MaxGapAt(d2) <= MaxGapAt(d1)
  {
  }

  // ---- Camera ----

  const CameraLead: real := 300.0
  const CameraSmoothing: real := 0.12

  /** `cameraSmoothX_` after one frame: 12% of the way to 300 px left of the player. */
  function Follow(smooth: real, playerX: real): (s: real)
    ensures (playerX - CameraLead) - s == 0.88 * ((playerX - CameraLead) - smooth)
  {
    smooth + ((playerX - CameraLead) - smooth) * CameraSmoothing
  }

  /** `cameraX_`: the smoothed position, held at 0 at the start of the level. */
  function CameraAt(smooth: real): (c: real)
    ensures c >= 0.0 && c >= smooth
    ensures smooth >= 0.0 ==> c == smooth
    ensures smooth < 0.0 ==> c == 0.0
  {
    Max(0.0, smooth)
  }

  function FollowN(smooth: real, playerX: real, n: nat): real
    decreases n
  {
    if n == 0 then smooth else Follow(FollowN(smooth, playerX, n - 1), playerX)
  }

  /** With the player standing still, the camera closes in on its target and never passes it. */
  lemma {:induction false} CameraNeverOvershoots(smooth: real, playerX: real, n: nat)
    ensures var t := playerX - CameraLead;
            (smooth <= t ==> smooth <= FollowN(smooth, playerX, n) <= t) &&
            (smooth >= t ==> t <= FollowN(smooth, playerX, n) <= smooth)
    decreases n
  {
    if n > 0 {
      CameraNeverOvershoots(smooth, playerX, n - 1);
    }
  }

  // ---- Screen shake ----

  const ShakeFrame: real := 1.0 / 60.0

  /** The shake amplitude, as written: intensity * (time / max(0.01, intensity)). */
  function ShakeMagnitude(intensity: real, time: real): real
  {
    intensity * (time / Max(0.01, intensity))
  }

  /** The amplitude is the remaining shake time, not the intensity, once the intensity is at least 0.01. */
  lemma ShakeMagnitudeIsTime(intensity: real, time: real)
    ensures intensity >= 0.01 ==> ShakeMagnitude(intensity, time) == time
    ensures 0.0 <= intensity < 0.01 && time >= 0.0 ==> 0.0 <= ShakeMagnitude(intensity, time) <= time
  {
    if 0.0 <= intensity < 0.01 && time >= 0.0 {
      assert Max(0.01, intensity) == 0.01;
      var q := time / 0.01;
      assert q == 100.0 * time;
      assert intensity * q == (100.0 * intensity) * time;
      assert (1.0 - 100.0 * intensity) * time >= 0.0;
    }
  }

  /** The camera shake: time left, intensity and the offset drawn this frame. */
  datatype Shake = Shake(time: real, intensity: real, offsetX: real, offsetY: real)

  const Still := Shake(0.0, 0.0, 0.0, 0.0)

  /** `triggerScreenShake(intensity, duration)`. */
  function Trigger(s: Shake, intensity: real, duration: real): (r: Shake)
    ensures r == s.(time := duration, intensity := intensity)
  {
    s.(time := duration, intensity := intensity)
  }

  /** The shake part of `updateCamera()`: while time is left it runs down a frame and two offsets are drawn. */
  function ShakeStep(s: Shake, draws: Draws, cursor: nat): (r: (Shake, nat))
    ensures s.time <= 0.0 ==> r == (s.(offsetX := 0.0, offsetY := 0.0), cursor)
    ensures s.time > 0.0 ==> r.0.time == s.time - ShakeFrame && r.0.intensity == s.intensity && r.1 == cursor + 2
  {
    if s.time > 0.0 then
      var t := s.time - ShakeFrame;
      var m := ShakeMagnitude(s.intensity, t);
      (s.(time := t, offsetX := Scale(-m, m, draws(cursor)), offsetY := Scale(-m * 0.5, m * 0.5, draws(cursor + 1))),
       cursor + 2)
    else (s.(offsetX := 0.0, offsetY := 0.0), cursor)
  }

  /** The drawn offsets stay within the amplitude horizontally and half of it vertically. */
  lemma ShakeOffsetsBounded(s: Shake, draws: Draws, cursor: nat)
    requires s.time > 0.0
    ensures var m := ShakeMagnitude(s.intensity, s.time - ShakeFrame);
            var r := ShakeStep(s, draws, cursor).0;
            Abs(r.offsetX) <= Abs(m) && Abs(r.offsetY) <= Abs(m) * 0.5
  {
  }

  /** The shake clock on its own. */
  function ShakeClock(time: real, n: nat): real
    decreases n
  {
    if n == 0 then time
    else var t := ShakeClock(time, n - 1); if t > 0.0 then t - ShakeFrame else t
  }

  lemma {:induction false} ShakeClockRunsDown(n: nat)
    requires n <= 12
    ensures ShakeClock(0.2, n) == 0.2 - n as real / 60.0
    decreases n
  {
    if n > 0 {
      ShakeClockRunsDown(n - 1);
    }
  }

  /** A stomp's shake (duration 0.2) shakes for exactly 12 frames, whatever the frame time. */
  lemma StompShakeLastsTwelveFrames(n: nat)
    ensures n < 12 ==> ShakeClock(0.2, n) > 0.0
    ensures n >= 12 ==> ShakeClock(0.2, n) == 0.0
  {
    if n <= 12 {
      ShakeClockRunsDown(n);
    } else {
      ShakeClockStays(n);
    }
  }

  lemma {:induction false} ShakeClockStays(n: nat)
    requires n >= 12
    ensures ShakeClock(0.2, n) == 0.0
    decreases n
  {
    if n == 12 {
      ShakeClockRunsDown(12);
    } else {
      ShakeClockStays(n - 1);
    }
  }

  // ---- Combo and score ----

  const ComboFrame: real := 1.0 / 60.0
  const ComboWindow: real := 2.5
  const StompBonus: int := 50
  const BrownPenalty: int := 15

  /** The combo streak: its count and the time since the last pickup or stomp. */
  datatype Combo = Combo(count: int, timer: real)

  /** The combo clock in `checkCollisions`: a fixed 1/60 per frame; past 2.5 the streak is lost. */
  function ComboTick(c: Combo): (r: Combo)
    ensures c.timer + ComboFrame > ComboWindow ==> r == Combo(0, 0.0)
    ensures c.timer + ComboFrame <= ComboWindow ==> r == c.(timer := c.timer + ComboFrame)
  {
    var t := c.timer + ComboFrame;
    if t > ComboWindow then Combo(0, 0.0) else c.(timer := t)
  }

  /** A point pickup or a stomp: one more in the streak, and its clock restarts. */
  function ComboBump(c: Combo): (r: Combo)
    ensures r.count == c.count + 1 && r.timer == 0.0
  {
    Combo(c.count + 1, 0.0)
  }

  function ComboTickN(c: Combo, n: nat): Combo
    decreases n
  {
    if n == 0 then c else ComboTick(ComboTickN(c, n - 1))
  }

  lemma {:induction false} ComboHolds(c: Combo, n: nat)
    requires c.timer == 0.0 && n <= 150
    ensures ComboTickN(c, n) == c.(timer := n as real / 60.0)
    decreases n
  {
    if n > 0 {
      ComboHolds(c, n - 1);
    }
  }

  /** Frame-counted, as written: a streak survives 150 frames without a pickup and is lost on the 151st, whatever the frame time. */
  lemma ComboLapsesOnFrame151(c: Combo)
    requires c.timer == 0.0
    ensures forall n :: 0 <= n <= 150 ==> ComboTickN(c, n).count == c.count
    ensures ComboTickN(c, 151) == Combo(0, 0.0)
  {
    forall n | 0 <= n <= 150
      ensures ComboTickN(c, n).count == c.count
    {
      ComboHolds(c, n);
    }
    ComboHolds(c, 150);
  }

  /** The combo multiplier, doubled under Double Points (also what the HUD is shown). */
  function Multiplier(count: int, doubled: bool): real
  {
    (1.0 + count as real * 0.1) * (if doubled then 2.0 else 1.0)
  }

  /** `static_cast<int>(std::round(basePoints * comboMultiplier))`. */
  function PointsFor(base: nat, count: int, doubled: bool): (g: int)
    requires count >= 0
    ensures g >= base
  {
    var m := Multiplier(count, doubled);
    assert m >= 1.0;
    assert base as real * (m - 1.0) >= 0.0;
    RoundHalfUp(base as real * m)
  }

  /** A Coin that starts a streak is worth 11, 22 under Double Points; a Gem is worth 28. */
  lemma FirstPickupValues()
    ensures PointsFor(Pickups.Points(Pickups.Coin), 1, false) == 11
    ensures PointsFor(Pickups.Points(Pickups.Coin), 1, true) == 22
    ensures PointsFor(Pickups.Points(Pickups.Gem), 1, false) == 28
  {
    assert RoundHalfUp(11.0) == 11;
    assert RoundHalfUp(22.0) == 22;
    assert RoundHalfUp(27.5) == 28;
  }

  /** A longer streak never scores less. */
  lemma PointsGrowWithCombo(base: nat, c1: int, c2: int, doubled: bool)
    requires 0 <= c1 <= c2
    ensures PointsFor(base, c1, doubled) <= PointsFor(base, c2, doubled)
  {
    var k := if doubled then 2.0 else 1.0;
    assert Multiplier(c2, doubled) - Multiplier(c1, doubled) == (c2 - c1) as real * 0.1 * k;
    assert base as real * (Multiplier(c2, doubled) - Multiplier(c1, doubled)) >= 0.0;
  }

  // ---- Lives ----

  /** The four things that cost a life: bumping a platform from below, an enemy, a projectile, a cactus. */
  datatype Hazard = Ceiling | EnemyTouch | ProjectileHit | CactusTouch

  /** What a hit does: the lives left, whether the player dies, whether the HUD's lives are refreshed. */
  datatype Harm = Harm(lives: int, dies: bool, shown: bool)

  /** The life accounting of each hazard, as written. */
  function Hurt(lives: int, h: Hazard): (r: Harm)
    ensures lives >= 0 ==> r.lives >= 0
    ensures r.lives == lives || r.lives == lives - 1
    ensures r.shown <==> r.lives != lives
  {
    match h
    case EnemyTouch =>
      if lives > 0 then Harm(lives - 1, false, true) else Harm(lives, true, false)
    case CactusTouch =>
      if lives > 1 then Harm(lives - 1, false, true)
      else if lives == 1 then Harm(0, true, true)
      else Harm(lives, false, false)
    case _ =>
      if lives > 1 then Harm(lives - 1, false, true) else Harm(lives, true, false)
  }

  /** At one life an enemy takes the last life but does not kill; every other hazard kills there. */
  lemma LastLife(h: Hazard)
    ensures h == EnemyTouch ==> Hurt(1, h) == Harm(0, false, true)
    ensures h == CactusTouch ==> Hurt(1, h) == Harm(0, true, true)
    ensures h in {Ceiling, ProjectileHit} ==> Hurt(1, h) == Harm(1, true, false)
    ensures h != EnemyTouch ==> Hurt(1, h).dies
  {
  }

  /** With no life left a cactus is harmless, while an enemy, a projectile or a ceiling kills. */
  lemma NoLifeLeft(h: Hazard)
    ensures h == CactusTouch ==> Hurt(0, h) == Harm(0, false, false)
    ensures h != CactusTouch ==> Hurt(0, h) == Harm(0, true, false)
  {
  }

  /** Above one life every hazard costs exactly one life and nobody dies. */
  lemma SpareLife(lives: int, h: Hazard)
    requires lives > 1
    ensures Hurt(lives, h) == Harm(lives - 1, false, true)
  {
  }

  /** Consecutive enemy touches, one a frame (the enemy stays active after a touch). */
  function EnemyTouches(lives: int, n: nat): Harm
    decreases n
  {
    if n == 0 then Harm(lives, false, false)
    else
      var before := EnemyTouches(lives, n - 1);
      if before.dies then before
      else Hurt(before.lives, EnemyTouch)
  }

  /** An enemy kills only on the touch after the last life is gone: touch number lives + 1. */
  lemma {:induction false} EnemyKillsOnTouchAfterLastLife(lives: int, n: nat)
    requires lives >= 0
    ensures n <= lives ==> EnemyTouches(lives, n).lives == lives - n && !EnemyTouches(lives, n).dies
    ensures n > lives ==> EnemyTouches(lives, n).lives == 0 && EnemyTouches(lives, n).dies
    decreases n
  {
    if n > 0 {
      EnemyKillsOnTouchAfterLastLife(lives, n - 1);
    }
  }

  // ---- Power-ups ----

  const MagnetDuration: real := 10.0
  const ShieldDuration: real := 8.0
  const DoubleDuration: real := 15.0
  const BoostFactor: real := 2.0
  const BoostDuration: real := 5.0
  const MagnetRadius: real := 220.0
  const MagnetStrength: real := 700.0

  /** The three timed power-ups the run owns (the speed boost lives in the player). */
  datatype Powers = Powers(magnet: bool, magnetTimer: real,
                           shield: bool, shieldTimer: real,
                           doubled: bool, doubledTimer: real)

  const NoPowers := Powers(false, 0.0, false, 0.0, false, 0.0)

  /** A flag is only up while its timer has time left. */
  predicate Settled(p: Powers)
  {
    (p.magnet ==> p.magnetTimer > 0.0) && (p.shield ==> p.shieldTimer > 0.0) &&
    (p.doubled ==> p.doubledTimer > 0.0)
  }

  /** A collected Magnet, Shield or Double Points sets its flag and its full duration; other kinds leave the flags. */
  function Grant(p: Powers, k: Pickups.Kind): (r: Powers)
    ensures k == Pickups.Magnet ==> r == p.(magnet := true, magnetTimer := MagnetDuration)
    ensures k == Pickups.Shield ==> r == p.(shield := true, shieldTimer := ShieldDuration)
    ensures k == Pickups.DoublePoints ==> r == p.(doubled := true, doubledTimer := DoubleDuration)
    ensures k !in {Pickups.Magnet, Pickups.Shield, Pickups.DoublePoints} ==> r == p
    ensures Settled(p) ==> Settled(r)
  {
    match k
    case Magnet => p.(magnet := true, magnetTimer := MagnetDuration)
    case Shield => p.(shield := true, shieldTimer := ShieldDuration)
    case DoublePoints => p.(doubled := true, doubledTimer := DoubleDuration)
    case _ => p
  }

  /** A stomp or a blocked projectile uses the shield up. */
  function UseShield(p: Powers): (r: Powers)
    ensures !r.shield && r.shieldTimer == 0.0
    ensures Settled(p) ==> Settled(r)
  {
    p.(shield := false, shieldTimer := 0.0)
  }

  /** One timer of `updatePowerUps`: an active one runs down, and the flag drops at or below zero. */
  function Countdown(active: bool, timer: real, dt: real): (r: (bool, real))
    ensures !active ==> r == (active, timer)
    ensures active ==> r == (timer - dt > 0.0, timer - dt)
  {
    if active then (timer - dt > 0.0, timer - dt) else (active, timer)
  }

  /** `updatePowerUps(dt)`. */
  function Decay(p: Powers, dt: real): (r: Powers)
    ensures (r.magnet, r.magnetTimer) == Countdown(p.magnet, p.magnetTimer, dt)
    ensures (r.shield, r.shieldTimer) == Countdown(p.shield, p.shieldTimer, dt)
    ensures (r.doubled, r.doubledTimer) == Countdown(p.doubled, p.doubledTimer, dt)
    ensures Settled(p) ==> Settled(r)
  {
    var m := Countdown(p.magnet, p.magnetTimer, dt);
    var s := Countdown(p.shield, p.shieldTimer, dt);
    var d := Countdown(p.doubled, p.doubledTimer, dt);
    Powers(m.0, m.1, s.0, s.1, d.0, d.1)
  }

  function CountdownN(active: bool, timer: real, dt: real, n: nat): (bool, real)
    decreases n
  {
    if n == 0 then (active, timer)
    else var r := CountdownN(active, timer, dt, n - 1); Countdown(r.0, r.1, dt)
  }

  /** A granted power lasts exactly as long as its duration: up while less time than that has elapsed, down from then on. */
  lemma {:induction false} PowerLastsItsDuration(duration: real, dt: real, n: nat)
    requires duration > 0.0 && dt > 0.0
    ensures CountdownN(true, duration, dt, n).0 <==> duration - Ledges.Elapsed(dt, n) > 0.0
    ensures CountdownN(true, duration, dt, n).0 ==> CountdownN(true, duration, dt, n).1 == duration - Ledges.Elapsed(dt, n)
    decreases n
  {
    if n > 0 {
      PowerLastsItsDuration(duration, dt, n - 1);
      var r := CountdownN(true, duration, dt, n - 1);
      var e := Ledges.Elapsed(dt, n - 1);
      assert CountdownN(true, duration, dt, n) == Countdown(r.0, r.1, dt);
      assert Ledges.Elapsed(dt, n) == e + dt;
      if r.0 {
        assert r.1 == duration - e;
        assert Countdown(r.0, r.1, dt) == (duration - e - dt > 0.0, duration - e - dt);
      } else {
        assert duration - e <= 0.0;
        assert Countdown(r.0, r.1, dt) == r;
      }
    }
  }

  /** What collecting a pickup does to the powers, the player and the streak, and the points it gains. */
  datatype Gain = Gain(powers: Powers, body: PlayerPhysics.Body, combo: Combo, gained: int)

  /** The pickup branch of `checkCollisions` after `collect()`: power-ups or points. */
  function Pick(p: Powers, b: PlayerPhysics.Body, c: Combo, k: Pickups.Kind): (r: Gain)
    requires c.count >= 0
  {
    if Pickups.IsPowerUp(k) then
      Gain(Grant(p, k),
           if k == Pickups.SpeedBoost then b.(boost := BoostFactor, boostTimer := BoostDuration) else b,
           c, 0)
    else
      var c1 := ComboBump(c);
      var g := PointsFor(Pickups.Points(k), c1.count, p.doubled);
      Gain(p, b.(score := b.score + g), c1, g)
  }

  /** Power-ups score nothing and leave the streak alone; an Extra Life does nothing at all. */
  lemma PowerUpsScoreNothing(p: Powers, b: PlayerPhysics.Body, c: Combo, k: Pickups.Kind)
    requires c.count >= 0 && Pickups.IsPowerUp(k)
    ensures Pick(p, b, c, k).gained == 0 && Pick(p, b, c, k).combo == c
    ensures Pick(p, b, c, k).body.score == b.score
    ensures k == Pickups.SpeedBoost ==> Pick(p, b, c, k).body == b.(boost := 2.0, boostTimer := 5.0)
    ensures k == Pickups.ExtraLife ==> Pick(p, b, c, k) == Gain(p, b, c, 0)
  {
  }

  /** A point pickup extends the streak and scores its base points times the new multiplier, at least the base. */
  lemma PointPickupScores(p: Powers, b: PlayerPhysics.Body, c: Combo, k: Pickups.Kind)
    requires c.count >= 0 && !Pickups.IsPowerUp(k)
    ensures var r := Pick(p, b, c, k);
            r.combo == Combo(c.count + 1, 0.0) && r.powers == p &&
            r.gained == PointsFor(Pickups.Points(k), c.count + 1, p.doubled) &&
            r.gained >= Pickups.Points(k) && r.body == b.(score := b.score + r.gained)
  {
  }

  /** Touching an enemy defeats it when the player is in the Sliding state or shielded. */
  predicate Stomps(b: PlayerPhysics.Body, p: Powers)
  {
    b.state == PlayerPhysics.Sliding || p.shield
  }

  /** The Sliding state, not the slide itself, is what counts: after the slide ends the player still stomps. */
  lemma StompsAfterSlideEnds(b: PlayerPhysics.Body, dt: real, p: Powers)
    requires b.state == PlayerPhysics.Sliding && b.sliding && b.slideTimer - dt <= 0.0
    ensures !PlayerPhysics.SlideClock(b, dt).sliding && Stomps(PlayerPhysics.SlideClock(b, dt), p)
  {
  }

  /** A brown mushroom takes 15 points, never going below 0, and only from a positive score. */
  function Penalty(score: int): (s: int)
    ensures score <= 0 ==> s == score
    ensures score > 0 ==> s == MaxInt(0, score - BrownPenalty) && 0 <= s < score
  {
    if score > 0 then PlayerPhysics.ClampScore(score - BrownPenalty) else score
  }

  // ---- Landing and bumping ----

  const LandingTolerance: real := 20.0
  const GroundTop: real := 600.0

  /** Landing: last frame's bottom at most 20 below the top, not moving up, and now below the top. */
  predicate FromAbove(prev: Rect, curr: Rect, plat: Rect)
  {
    prev.Bottom() <= plat.top + LandingTolerance && curr.Bottom() >= prev.Bottom() && curr.Bottom() > plat.top
  }

  /** Bumping from below: last frame's top at most 20 above the bottom, not moving down, and now above the bottom. */
  predicate FromBelow(prev: Rect, curr: Rect, plat: Rect)
  {
    prev.top >= plat.Bottom() - LandingTolerance && curr.top <= prev.top && curr.top < plat.Bottom()
  }

  /** A rising player never lands and a falling player never bumps. */
  lemma DirectionMatters(prev: Rect, curr: Rect, plat: Rect)
    ensures curr.Bottom() < prev.Bottom() ==> !FromAbove(prev, curr, plat)
    ensures curr.top > prev.top ==> !FromBelow(prev, curr, plat)
    ensures prev.Bottom() > plat.top + LandingTolerance ==> !FromAbove(prev, curr, plat)
  {
  }

  /**
   * The landing snap as written moves the sprite's top to `top - hitbox height`; since the
   * hitbox starts 10% of the sprite height below the sprite's top, its bottom ends 0.1 h
   * below the surface, not on it.
   */
  lemma SnapSinksHitbox(b: PlayerPhysics.Body, w: real, h: real, top: real)
    requires w >= 0.0 && h >= 0.0
    ensures var hb := PlayerPhysics.Bounds(b, w, h);
            var snapped := PlayerPhysics.Bounds(b.(y := top - hb.height), w, h);
            snapped.Bottom() == top + 0.1 * h && snapped.height == hb.height && snapped.left == hb.left
  {
  }

  /** A bump puts the sprite's top on the platform's bottom, which leaves the hitbox clear below it. */
  lemma BumpClearsPlatform(b: PlayerPhysics.Body, w: real, h: real, plat: Rect)
    requires w >= 0.0 && h >= 0.0
    ensures PlayerPhysics.Bounds(b.(y := plat.Bottom()), w, h).top >= plat.Bottom()
    ensures !Intersects(PlayerPhysics.Bounds(b.(y := plat.Bottom()), w, h), plat)
  {
  }

  /** The ground safety net catches a hitbox whose bottom lies in [596, 620]. */
  predicate NearGround(hb: Rect)
  {
    GroundTop - 4.0 <= hb.Bottom() <= GroundTop + 20.0
  }

  // ---- Projectiles ----

  const ProjectileSpeed: real := 420.0

  /** A projectile: its centre, velocity and flag. */
  datatype Shot = Shot(x: real, y: real, vx: real, vy: real, active: bool)

  /** The projectile an enemy that wants to shoot fires from its shoot origin: leftwards at 420 px/s. */
  function Fired(origin: (real, real)): (s: Shot)
    ensures s.active && s.vx < 0.0 && s.vy == 0.0 && (s.x, s.y) == origin
  {
    Shot(origin.0, origin.1, -ProjectileSpeed, 0.0, true)
  }

  /** The circle's global bounds: radius 10 about its centre. */
  function ShotBounds(s: Shot): (r: Rect)
    ensures r.width == 20.0 && r.height == 20.0 && r.left + 10.0 == s.x && r.top + 10.0 == s.y
  {
    Rect(s.x - 10.0, s.y - 10.0, 20.0, 20.0)
  }

  /** `handleProjectiles(dt)` for one projectile: it moves, and dies 200 px behind the camera. */
  function Fly(s: Shot, dt: real, cameraX: real): (r: Shot)
    ensures !s.active ==> r == s
    ensures s.active ==> r.x == s.x + s.vx * dt && r.y == s.y + s.vy * dt && r.vx == s.vx && r.vy == s.vy
    ensures s.active ==> (r.active <==> r.x >= cameraX - 200.0)
  {
    if !s.active then s
    else
      var m := s.(x := s.x + s.vx * dt, y := s.y + s.vy * dt);
      if m.x < cameraX - 200.0 then m.(active := false) else m
  }

  /** Fired projectiles only ever fly left, and one that is gone never comes back. */
  lemma ShotsFlyLeft(s: Shot, dt: real, cameraX: real)
    requires s.vx <= 0.0 && dt >= 0.0
    ensures Fly(s, dt, cameraX).x <= s.x
    ensures !s.active ==> !Fly(s, dt, cameraX).active
  {
    assert s.vx * dt <= 0.0;
  }

  // ---- Score popups ----

  /** A "+points" text rising at 30 px/s, alive for one second. */
  datatype Popup = Popup(x: real, y: real, vx: real, vy: real, lifetime: real, text: string)

  /** `addScorePopup(position, points)` when a font exists. */
  function NewPopup(x: real, y: real, points: int): (p: Popup)
    ensures p.lifetime == 1.0 && p.vx == 0.0 && p.vy == -30.0 && p.text == "+" + IntString(points)
  {
    Popup(x, y, 0.0, -30.0, 1.0, "+" + IntString(points))
  }

  /** The popup shows the points it was made for. */
  lemma PopupReadsBack(x: real, y: real, points: nat)
    ensures NewPopup(x, y, points).text[0] == '+'
    ensures ParseDigits(NewPopup(x, y, points).text[1..]) == points
  {
    var t := NewPopup(x, y, points).text;
    assert t[1..] == NatString(points);
    NatStringRoundTrip(points);
  }

  /** One frame of `updateScorePopups`. */
  function Age(p: Popup, dt: real): (r: Popup)
    ensures r == p.(lifetime := p.lifetime - dt, x := p.x + p.vx * dt, y := p.y + p.vy * dt)
  {
    p.(lifetime := p.lifetime - dt, x := p.x + p.vx * dt, y := p.y + p.vy * dt)
  }

  function AgeN(p: Popup, dt: real, n: nat): Popup
    decreases n
  {
    if n == 0 then p else Age(AgeN(p, dt, n - 1), dt)
  }

  /** A popup's remaining life is one second less the time elapsed; it is dropped once a second has gone. */
  lemma {:induction false} PopupLivesOneSecond(p: Popup, dt: real, n: nat)
    ensures AgeN(p, dt, n).lifetime == p.lifetime - Ledges.Elapsed(dt, n)
    ensures AgeN(p, dt, n).text == p.text
    decreases n
  {
    if n > 0 {
      PopupLivesOneSecond(p, dt, n - 1);
    }
  }

  // ---- Pause ----

  /** `handleInput` on a key press: P or Escape toggles the pause, and pausing asks the game for a pause screen. */
  function PauseKey(paused: bool, key: PlayerPhysics.Key, attached: bool): (r: (bool, ScreenStack.Reaction))
    ensures key in {PlayerPhysics.P, PlayerPhysics.Escape} ==> r.0 == !paused
    ensures key !in {PlayerPhysics.P, PlayerPhysics.Escape} ==> r == (paused, ScreenStack.Stay)
    ensures r.1 != ScreenStack.Stay <==> key in {PlayerPhysics.P, PlayerPhysics.Escape} && !paused && attached
    ensures r.1 != ScreenStack.Stay ==> r.1 == ScreenStack.AskPush(ScreenStack.Some(ScreenStack.Screen(ScreenStack.PauseScreen, false)))
  {
    if key == PlayerPhysics.P || key == PlayerPhysics.Escape then
      if !paused && attached then (true, ScreenStack.AskPush(ScreenStack.Some(ScreenStack.Screen(ScreenStack.PauseScreen, false))))
      else (!paused, ScreenStack.Stay)
    else (paused, ScreenStack.Stay)
  }

  /** The pause screen's `handleInput`: P or Escape pops it. */
  function PauseScreenKey(key: PlayerPhysics.Key): ScreenStack.Reaction
  {
    if key == PlayerPhysics.P || key == PlayerPhysics.Escape then ScreenStack.AskPop else ScreenStack.Stay
  }

  /**
   * Resuming takes two presses: the first P pushes the pause screen, the second pops it
   * but leaves the run's own flag set, so the run stays frozen until a third press,
   * which only clears the flag.
   */
  lemma ResumeNeedsASecondPress(m: ScreenStack.Machine)
    requires m.states == [ScreenStack.Screen(ScreenStack.PlayingScreen, true)]
    ensures var (p1, r1) := PauseKey(false, PlayerPhysics.P, true);
            var m1 := ScreenStack.Apply(m, r1);
            var m2 := ScreenStack.Apply(m1, PauseScreenKey(PlayerPhysics.P));
            var (p3, r3) := PauseKey(p1, PlayerPhysics.P, true);
            p1 && |m1.states| == 2 && ScreenStack.Top(m1.states).screen.kind == ScreenStack.PauseScreen &&
            m2.states == m.states && p1 && !p3 && r3 == ScreenStack.Stay
  {
    var (p1, r1) := PauseKey(false, PlayerPhysics.P, true);
    ScreenStack.PushPopRoundTrip(m.states, ScreenStack.Screen(ScreenStack.PauseScreen, false));
  }
}
