// `class PlayingState`: one run of the endless runner. The entities the run
// owns through `unique_ptr`s are held as values in sequences; the player and
// the HUD are objects, changed only through their own methods.
module Playing {
  import opened Geometry
  import opened Assets
  import opened Sequences
  import PlayerPhysics
  import Players
  import Pickups
  import EnemyRules
  import Ledges
  import Hud
  import HudRules
  import ScreenStack
  import opened RunRules
  import opened WorldGen
  import opened Contacts
  import opened Frame
  import Generation
  import Collisions

  /** The constructor's `ensureGround()` then `ensurePlatforms()`, from empty lists, the first draw, ground from x = 0 and platforms from x = 800. */
  method OpeningWorld(tex: Textures, draws: Draws, playerX: real) returns (sky: Sky, groundX: real)
    ensures groundX >= playerX + GroundLookahead && sky.frontier >= playerX + PlatformLookahead
    ensures MushroomsClear(sky.decos)
  {
    var ground := Generation.Reground(tex, draws, [], [], 0.0, 0, playerX + GroundLookahead);
    sky := Generation.PlatformLoop(tex, draws, 120.0, 260.0, Sky(ground.plats, ground.decos, [], 800.0, ground.cursor),
                                   playerX + PlatformLookahead);
    groundX := ground.frontier;
  }


  /** A key event as `handleInput` sees it. */
  datatype KeyEvent = Pressed(key: PlayerPhysics.Key) | Released(key: PlayerPhysics.Key) | OtherEvent

  /** `PlayingState` with the fields the model keeps. */
  class PlayingState {
    const player: Players.Player
    const hud: Hud.HUD
    /** The textures the resource manager holds. */
    const tex: Textures
    /** Whether the "default" font exists (`font_` is set). */
    const hasFont: bool
    /** `rng_`'s stream of unit draws; `cursor` is the next one to use. */
    const draws: Draws
    var cursor: nat

    var enemies: seq<EnemyEntry>
    var collectibles: seq<PickupEntry>
    var platforms: seq<PlatformEntry>
    var projectiles: seq<Shot>
    var scorePopups: seq<Popup>
    var decorations: seq<Decoration>
    var clouds: seq<Cloud>

    var lives: int
    var cameraX: real
    var cameraSmoothX: real
    /** `cameraShakeTime_`, `cameraShakeIntensity_` and `cameraShakeOffset_`. */
    var shake: Shake
    var generationX: real
    var groundGenerationX: real
    /** `comboCount_` and `comboTimer_`. */
    var combo: Combo
    /** The magnet, shield and double-points flags and timers. */
    var powers: Powers
    var highScore: int
    var distance: real
    var platformMinGap: real
    var platformMaxGap: real
    var lastEnemyBatchDistance: real
    var lastGoldenCarrotDistance: real
    var lastCoinDistance: real
    var paused: bool
    var worldTime: real

    /**
     * What holds between frames: the player's jump counter is in range and its
     * score is never negative; the lives are between 0 and 3 and the HUD knows
     * them; the platform gaps are a range; the combo count is not negative; a
     * power is up only while its timer has time left; at most one enemy;
     * mushrooms never overlap what was placed before them; distance is not negative.
     */
    ghost predicate Valid()
      reads player, hud`currentLives, this`lives, this`platformMinGap, this`platformMaxGap, this`combo, this`powers,
            this`enemies, this`decorations, this`distance
    {
      player.Valid() && player.score >= 0 &&
      0 <= lives <= StartLives && hud.currentLives == lives && hud.hasFont == hasFont &&
      0.0 <= platformMinGap <= platformMaxGap &&
      combo.count >= 0 && Settled(powers) &&
      |enemies| <= MaxEnemies && MushroomsClear(decorations) && distance >= 0.0
    }

    /** The ground is laid 2400 px and the floating platforms 1200 px past the player. */
    predicate Ahead()
      reads this`groundGenerationX, this`generationX, player`x
    {
      groundGenerationX >= player.x + GroundLookahead && generationX >= player.x + PlatformLookahead
    }

    /** The fields a new run starts with: three lives, the saved high score, no distance, time, combo or powers, no enemies, shots or popups. */
    predicate Starting(savedHighScore: int)
      reads this`lives, this`highScore, this`paused, this`distance, this`worldTime, this`combo, this`powers,
            this`enemies, this`projectiles, this`scorePopups
    {
      lives == StartLives && highScore == savedHighScore && !paused &&
      distance == 0.0 && worldTime == 0.0 && combo == Combo(0, 0.0) && powers == NoPowers &&
      enemies == [] && projectiles == [] && scorePopups == []
    }

    /** `PlayingState()`, with the high score read from the save file passed in as `savedHighScore`: the player at its base speed, ground and platforms generated ahead of it, then the clouds. */
    constructor (textures: Textures, fontLoaded: bool, rng: Draws, savedHighScore: int)
      ensures Valid() && Ahead() && fresh(player) && fresh(hud)
      ensures tex == textures && hasFont == fontLoaded && draws == rng
      ensures player.Data() == PlayerPhysics.Initial.(runSpeed := PlayerBaseSpeed)
      ensures Starting(savedHighScore)
      ensures |clouds| == (if Has(textures, "cloud") then CloudCount else 0)
    {
      tex, hasFont, draws := textures, fontLoaded, rng;
      var p := new Players.Player(textures);
      p.SetRunSpeed(PlayerBaseSpeed);
      player := p;
      hud := new Hud.HUD(fontLoaded, textures);
      var sky, groundX := OpeningWorld(textures, rng, p.x);
      var sprites, next := SetUpClouds(textures, rng, sky.cursor);
      platforms, decorations, collectibles := sky.plats, sky.decos, sky.pickups;
      generationX, groundGenerationX := sky.frontier, groundX;
      cursor := next;
      clouds := sprites;
      enemies, projectiles, scorePopups := [], [], [];
      lives := StartLives;
      cameraX, cameraSmoothX := 0.0, 0.0;
      shake := Still;
      combo := Combo(0, 0.0);
      powers := NoPowers;
      highScore := savedHighScore;
      distance := 0.0;
      platformMinGap, platformMaxGap := 120.0, 260.0;
      lastEnemyBatchDistance, lastGoldenCarrotDistance, lastCoinDistance := 0.0, 0.0, 0.0;
      paused := false;
      worldTime := 0.0;
    }

    /** `handleInput(event)`: P or Escape toggles the pause (pushing the pause screen when pausing); other keys reach the player unless paused. */
    method HandleInput(ev: KeyEvent, attached: bool) returns (ask: ScreenStack.Reaction)
      requires Valid()
      modifies this`paused, player
      ensures Valid()
      ensures ev.Pressed? && ev.key in {PlayerPhysics.P, PlayerPhysics.Escape} ==>
                (paused, ask) == PauseKey(old(paused), ev.key, attached) && player.Data() == old(player.Data())
      ensures ev.Pressed? && ev.key !in {PlayerPhysics.P, PlayerPhysics.Escape} ==>
                ask == ScreenStack.Stay && paused == old(paused) &&
                player.Data() == (if old(paused) then old(player.Data()) else PlayerPhysics.HandleKey(old(player.Data()), ev.key, true))
      ensures ev.Released? ==>
                ask == ScreenStack.Stay && paused == old(paused) &&
                player.Data() == (if old(paused) then old(player.Data()) else PlayerPhysics.HandleKey(old(player.Data()), ev.key, false))
      ensures ev.OtherEvent? ==> ask == ScreenStack.Stay && paused == old(paused) && player.Data() == old(player.Data())
    {
      ask := ScreenStack.Stay;
      match ev
      case Pressed(key) =>
        if key == PlayerPhysics.P || key == PlayerPhysics.Escape {
          paused := !paused;
          if paused && attached {
            ask := ScreenStack.AskPush(ScreenStack.Some(ScreenStack.Screen(ScreenStack.PauseScreen, false)));
          }
        } else if !paused {
          PlayerPhysics.KeyKeepsScore(player.Data(), key, true);
          player.HandleInput(key, true);
        }
      case Released(key) =>
        if !paused {
          PlayerPhysics.KeyKeepsScore(player.Data(), key, false);
          player.HandleInput(key, false);
        }
      case OtherEvent =>
    }

    // ---- ensureGround and ensurePlatforms ----

    /** `ensureGround()`: ground segments until 2400 px past the player, then the cacti that no platform shelters. */
    method EnsureGround()
      modifies this`platforms, this`decorations, this`groundGenerationX, this`cursor
      ensures var g := Regrounded(tex, draws, old(platforms), old(decorations), old(groundGenerationX), old(cursor),
                                  old(player.x) + GroundLookahead);
              Front(platforms, decorations, groundGenerationX, cursor, []) == g
      ensures groundGenerationX >= player.x + GroundLookahead && old(platforms) <= platforms && old(decorations) <= decorations
      ensures MushroomsClear(old(decorations)) ==> MushroomsClear(decorations)
    {
      var g := Generation.Reground(tex, draws, platforms, decorations, groundGenerationX, cursor, player.x + GroundLookahead);
      StoreFront(g);
    }

    /** The lists and the frontier `ensureGround` appended to and advanced. */
    method StoreFront(g: Front)
      requires g.cacti == []
      modifies this`platforms, this`decorations, this`groundGenerationX, this`cursor
      ensures Front(platforms, decorations, groundGenerationX, cursor, []) == g
    {
      platforms, decorations, groundGenerationX, cursor := g.plats, g.decos, g.frontier, g.cursor;
    }

    /** `ensurePlatforms()`: floating platforms until 1200 px past the player. */
    method EnsurePlatforms()
      requires 0.0 <= platformMinGap <= platformMaxGap
      modifies this`platforms, this`decorations, this`collectibles, this`generationX, this`cursor
      ensures Sky(platforms, decorations, collectibles, generationX, cursor) ==
              PlatformsUntil(tex, draws, old(platformMinGap), old(platformMaxGap),
                             Sky(old(platforms), old(decorations), old(collectibles), old(generationX), old(cursor)),
                             old(player.x) + PlatformLookahead)
      ensures generationX >= player.x + PlatformLookahead && old(platforms) <= platforms &&
              old(collectibles) <= collectibles && old(decorations) <= decorations
      ensures MushroomsClear(old(decorations)) ==> MushroomsClear(decorations)
    {
      var s := Generation.PlatformLoop(tex, draws, platformMinGap, platformMaxGap,
                                       Sky(platforms, decorations, collectibles, generationX, cursor),
                                       player.x + PlatformLookahead);
      StoreSky(s);
    }

    /** The lists and the frontier `ensurePlatforms` appended to and advanced. */
    method StoreSky(s: Sky)
      modifies this`platforms, this`decorations, this`collectibles, this`generationX, this`cursor
      ensures Sky(platforms, decorations, collectibles, generationX, cursor) == s
    {
      platforms, decorations, collectibles, generationX, cursor := s.plats, s.decos, s.pickups, s.frontier, s.cursor;
    }

    // ---- The other phases of `update` ----

    /** `cleanupOldEntities()`: platforms that are gone or end 900 px behind the player are erased, and so are spent projectiles. */
    method CleanupOldEntities()
      modifies this`platforms, this`projectiles
      ensures platforms == Select(old(platforms), Flags(old(platforms), KeptPlatform(player.x - 900.0)))
      ensures projectiles == Select(old(projectiles), Flags(old(projectiles), ShotLive))
    {
      platforms := Retain(platforms, KeptPlatform(player.x - 900.0));
      projectiles := Retain(projectiles, ShotLive);
    }

    /** `updateDifficulty()`: the run speed and the platform gaps follow the level reached by score and distance. */
    method UpdateDifficulty()
      modifies player, this`platformMinGap, this`platformMaxGap
      ensures player.Sprite() == old(player.Sprite())
      ensures var d := Difficulty(old(player.score), distance);
              player.Data() == old(player.Data()).(runSpeed := RunSpeedAt(d)) &&
              platformMinGap == MinGapAt(d) && platformMaxGap == MaxGapAt(d)
    {
      var d := Difficulty(player.score, distance);
      player.SetRunSpeed(PlayerBaseSpeed + d * 32.0);
      platformMinGap := Max(80.0, 140.0 - d * 6.0);
      platformMaxGap := Max(140.0, 280.0 - d * 10.0);
    }

    /** `updatePowerUps(dt)`. */
    method UpdatePowerUps(dt: real)
      modifies this`powers
      ensures powers == Decay(old(powers), dt)
    {
      var p := powers;
      if p.magnet {
        p := p.(magnetTimer := p.magnetTimer - dt);
        if p.magnetTimer <= 0.0 {
          p := p.(magnet := false);
        }
      }
      if p.shield {
        p := p.(shieldTimer := p.shieldTimer - dt);
        if p.shieldTimer <= 0.0 {
          p := p.(shield := false);
        }
      }
      if p.doubled {
        p := p.(doubledTimer := p.doubledTimer - dt);
        if p.doubledTimer <= 0.0 {
          p := p.(doubled := false);
        }
      }
      powers := p;
    }

    /** `updateCamera()`: the smoothed camera closes 12% of the way on 300 px left of the player, and a running shake draws its offsets. */
    method UpdateCamera()
      modifies this`cameraSmoothX, this`cameraX, this`shake, this`cursor
      ensures cameraSmoothX == Follow(old(cameraSmoothX), player.x) && cameraX == CameraAt(cameraSmoothX)
      ensures (shake, cursor) == ShakeStep(old(shake), draws, old(cursor))
    {
      var targetX := player.x - 300.0;
      cameraSmoothX := cameraSmoothX + (targetX - cameraSmoothX) * 0.12;
      cameraX := Max(0.0, cameraSmoothX);
      if shake.time > 0.0 {
        var t := shake.time - 1.0 / 60.0;
        var intensity := shake.intensity * (t / Max(0.01, shake.intensity));
        var ox := Scale(-intensity, intensity, draws(cursor));
        var oy := Scale(-intensity * 0.5, intensity * 0.5, draws(cursor + 1));
        shake := shake.(time := t, offsetX := ox, offsetY := oy);
        cursor := cursor + 2;
        assert ShakeStep(old(shake), draws, old(cursor)).0 == shake;
      } else {
        shake := shake.(offsetX := 0.0, offsetY := 0.0);
      }
    }

    /** `spawnEnemy()`: nothing while an enemy is on screen; otherwise one enemy, aimed at the player. */
    method SpawnEnemy()
      modifies this`enemies, this`cursor
      ensures |old(enemies)| >= MaxEnemies ==> enemies == old(enemies) && cursor == old(cursor)
      ensures |old(enemies)| < MaxEnemies ==>
                var r := RunRules.SpawnEnemy(tex, cameraX, worldTime, player.GetRunSpeed(), player.score,
                                             player.x, player.y, draws, old(cursor));
                enemies == old(enemies) + [r.0] && cursor == r.1
    {
      if |enemies| >= MaxEnemies {
        return;
      }
      var r := RunRules.SpawnEnemy(tex, cameraX, worldTime, player.GetRunSpeed(), player.score, player.x, player.y, draws, cursor);
      enemies, cursor := enemies + [r.0], r.1;
    }

    /** The enemy gate of `update`: every 70 m, `spawnEnemy()`, and the gate moves on whether or not it spawned. */
    method EnemyGate()
      modifies this`enemies, this`cursor, this`lastEnemyBatchDistance
      ensures !Due(distance, old(lastEnemyBatchDistance), EnemyEvery) ==>
                enemies == old(enemies) && cursor == old(cursor) && lastEnemyBatchDistance == old(lastEnemyBatchDistance)
      ensures Due(distance, old(lastEnemyBatchDistance), EnemyEvery) ==> lastEnemyBatchDistance == distance
      ensures Due(distance, old(lastEnemyBatchDistance), EnemyEvery) && |old(enemies)| >= MaxEnemies ==>
                enemies == old(enemies) && cursor == old(cursor)
      ensures Due(distance, old(lastEnemyBatchDistance), EnemyEvery) && |old(enemies)| < MaxEnemies ==>
                var r := RunRules.SpawnEnemy(tex, cameraX, worldTime, player.GetRunSpeed(), player.score,
                                             player.x, player.y, draws, old(cursor));
                enemies == old(enemies) + [r.0] && cursor == r.1
    {
      if distance - lastEnemyBatchDistance >= 70.0 {
        SpawnEnemy();
        lastEnemyBatchDistance := distance;
      }
    }

    /** The Gem gate of `update`: every 50 m a Gem on the ground 450 px ahead of the player. */
    method GemGate()
      modifies this`collectibles, this`lastGoldenCarrotDistance
      ensures !Due(distance, old(lastGoldenCarrotDistance), GemEvery) ==>
                collectibles == old(collectibles) && lastGoldenCarrotDistance == old(lastGoldenCarrotDistance)
      ensures Due(distance, old(lastGoldenCarrotDistance), GemEvery) ==>
                var p := GemAhead(player.x);
                collectibles == old(collectibles) + [PickupEntryFor(tex, p.0, p.1, Pickups.Gem)] &&
                lastGoldenCarrotDistance == distance
    {
      if distance - lastGoldenCarrotDistance >= 50.0 {
        var x := player.x + 450.0;
        var y := 570.0;
        collectibles := collectibles + [PickupEntryFor(tex, x, y, Pickups.Gem)];
        lastGoldenCarrotDistance := distance;
      }
    }

    /** The treat gate of `update`: every 30 m two Hearts on the ground from 400 px ahead of the player. */
    method TreatGate()
      modifies this`collectibles, this`lastCoinDistance
      ensures !Due(distance, old(lastCoinDistance), TreatEvery) ==>
                collectibles == old(collectibles) && lastCoinDistance == old(lastCoinDistance)
      ensures Due(distance, old(lastCoinDistance), TreatEvery) ==>
                lastCoinDistance == distance && |collectibles| == |old(collectibles)| + 2 &&
                collectibles[..|old(collectibles)|] == old(collectibles) &&
                forall i :: 0 <= i < 2 ==>
                  var t := TreatsAhead(player.x)[i];
                  collectibles[|old(collectibles)| + i] == PickupEntryFor(tex, t.0, t.1, t.2)
    {
      if distance - lastCoinDistance >= 30.0 {
        var startX := player.x + 400.0;
        var y := 570.0;
        ghost var before := collectibles;
        for i := 0 to 2
          invariant |collectibles| == |before| + i && collectibles[..|before|] == before
          invariant forall j :: |before| <= j < |collectibles| ==>
                      collectibles[j] == PickupEntryFor(tex, startX + (j - |before|) as real * 40.0, y, Pickups.Heart)
        {
          collectibles := collectibles + [PickupEntryFor(tex, startX + i as real * 40.0, y, Pickups.Heart)];
        }
        lastCoinDistance := distance;
      }
    }

    /** The platform loop of `update`. */
    method UpdatePlatforms(dt: real)
      modifies this`platforms
      ensures |platforms| == |old(platforms)|
      ensures forall i :: 0 <= i < |platforms| ==> platforms[i] == old(platforms)[i].(ledge := Ledges.Tick(old(platforms)[i].ledge, dt))
    {
      platforms := TickPlatforms(platforms, dt);
    }

    /** The enemy loop of `update`: each enemy chases the player, and each that wants to shoot adds a projectile. */
    method UpdateEnemies(dt: real, sine: real -> Wave)
      modifies this`enemies, this`projectiles
      ensures |enemies| == |old(enemies)|
      ensures forall i :: 0 <= i < |enemies| ==> enemies[i] == Chase(old(enemies)[i], player.x, player.y, dt, sine)
      ensures projectiles == old(projectiles) + Volley(enemies)
    {
      var es, fired := ChaseAll(enemies, player.x, player.y, dt, sine);
      enemies, projectiles := es, projectiles + fired;
    }

    /** The cloud loop of `update`. */
    method UpdateClouds(dt: real)
      modifies this`clouds, this`cursor
      ensures (clouds, cursor) == DriftAll(old(clouds), dt, cameraX, draws, old(cursor))
    {
      clouds, cursor := DriftClouds(clouds, dt, cameraX, draws, cursor);
    }

    /** The pickup loop of `update`. */
    method UpdateCollectibles(dt: real, sine: real -> Wave, root: real -> real)
      requires Roots(root)
      modifies this`collectibles
      ensures |collectibles| == |old(collectibles)|
      ensures forall i :: 0 <= i < |collectibles| ==>
                collectibles[i] == Pull(old(collectibles)[i], player.x, player.y, powers.magnet, dt, sine, root)
    {
      collectibles := PullAll(collectibles, player.x, player.y, powers.magnet, dt, sine, root);
    }

    /** `handleProjectiles(dt)`. */
    method HandleProjectiles(dt: real)
      modifies this`projectiles
      ensures |projectiles| == |old(projectiles)|
      ensures forall i :: 0 <= i < |projectiles| ==> projectiles[i] == Fly(old(projectiles)[i], dt, cameraX)
    {
      projectiles := FlyAll(projectiles, dt, cameraX);
    }

    /** `updateScorePopups(dt)`. */
    method UpdateScorePopups(dt: real)
      modifies this`scorePopups
      ensures scorePopups == Select(Aged(old(scorePopups), dt), Flags(Aged(old(scorePopups), dt), PopupAlive))
    {
      scorePopups := AgePopups(scorePopups, dt);
    }

    // ---- checkCollisions ----

    /** What `checkCollisions` changes, read off the fields and the player. */
    function Now(): Scene
      reads this, player
    {
      Scene(player.Data(), lives, powers, combo, shake, scorePopups, platforms, collectibles, enemies, projectiles)
    }

    /** `checkCollisions(prev)`: the loops of Contacts on the run's state; the HUD hears of every change of lives. */
    method CheckCollisions(prev: Rect)
      requires player.spriteW >= 0.0 && player.spriteH >= 0.0 && combo.count >= 0
      modifies player, hud, this`lives, this`powers, this`combo, this`shake, this`scorePopups,
               this`platforms, this`collectibles, this`enemies, this`projectiles
      ensures player.Sprite() == old(player.Sprite())
      ensures var r := Collide(old(Now()), decorations, prev, player.spriteW, player.spriteH, hasFont);
              player.Data() == r.body && lives == r.lives && powers == r.powers && combo == r.combo &&
              shake == r.shake && scorePopups == r.popups && platforms == r.plats && collectibles == r.pickups &&
              enemies == r.foes && projectiles == r.shots
      ensures hud.Data() == if lives == old(lives) then old(hud.Data())
                            else HudRules.Relive(old(hud.Data()), lives, hud.hasFont, hud.hasIcon)
    {
      var r := Collisions.Resolve(Now(), decorations, prev, player.spriteW, player.spriteH, hasFont);
      if r.lives != lives {
        hud.UpdateLives(r.lives);
      }
      player.Assign(r.body);
      StoreScene(r);
    }

    /** The fields `checkCollisions` leaves. */
    method StoreScene(r: Scene)
      modifies this`lives, this`powers, this`combo, this`shake, this`scorePopups,
               this`platforms, this`collectibles, this`enemies, this`projectiles
      ensures lives == r.lives && powers == r.powers && combo == r.combo && shake == r.shake && scorePopups == r.popups
      ensures platforms == r.plats && collectibles == r.pickups && enemies == r.foes && projectiles == r.shots
    {
      lives, powers, combo, shake, scorePopups := r.lives, r.powers, r.combo, r.shake, r.popups;
      platforms, collectibles, enemies, projectiles := r.plats, r.pickups, r.foes, r.shots;
    }

    /** The two erasures after `checkCollisions`: defeated enemies and collected pickups. */
    method PruneInactive()
      modifies this`enemies, this`collectibles
      ensures enemies == Select(old(enemies), Flags(old(enemies), EnemyLive))
      ensures collectibles == Select(old(collectibles), Flags(old(collectibles), PickupLive))
    {
      enemies := Retain(enemies, EnemyLive);
      collectibles := Retain(collectibles, PickupLive);
    }

    // ---- update ----

    /** The screen `update` switches to when the player is dead. */
    static function GameOverAsk(attached: bool): ScreenStack.Reaction
    {
      if attached then ScreenStack.AskChange(ScreenStack.Some(ScreenStack.Screen(ScreenStack.GameOverScreen, false)))
      else ScreenStack.Stay
    }

    /** `ensureGround()` then `ensurePlatforms()`: the lists only grow and the world reaches past the player. */
    method Regenerate()
      requires Valid()
      modifies this`platforms, this`decorations, this`collectibles, this`generationX, this`groundGenerationX, this`cursor
      ensures Valid() && Ahead()
      ensures old(platforms) <= platforms && old(collectibles) <= collectibles && old(decorations) <= decorations
    {
      LayGround();
      RaisePlatforms();
    }

    /** `ensureGround()` as the invariant sees it: the ground reaches its lookahead and the lists only grow. */
    method LayGround()
      requires Valid()
      modifies this`platforms, this`decorations, this`groundGenerationX, this`cursor
      ensures Valid() && groundGenerationX >= player.x + GroundLookahead
      ensures old(platforms) <= platforms && old(decorations) <= decorations
    {
      EnsureGround();
    }

    /** `ensurePlatforms()` as the invariant sees it: the platforms reach their lookahead and the lists only grow. */
    method RaisePlatforms()
      requires Valid()
      modifies this`platforms, this`decorations, this`collectibles, this`generationX, this`cursor
      ensures Valid() && generationX >= player.x + PlatformLookahead
      ensures old(platforms) <= platforms && old(collectibles) <= collectibles && old(decorations) <= decorations
    {
      EnsurePlatforms();
    }

    /** The start of `update`: the clock, the player's own update and the distance, from the player's bounds before it moves. */
    method Move(dt: real, input: PlayerPhysics.Input) returns (prev: Rect)
      requires Valid()
      modifies player, this`worldTime, this`distance
      ensures Valid() && worldTime == old(worldTime) + dt && distance == Travelled(old(distance), player.x)
    {
      worldTime := worldTime + dt;
      prev := player.GetBounds();
      PlayerPhysics.StepKeepsScore(player.Data(), dt, input);
      player.Update(dt, input);
      distance := Travelled(distance, player.x);
    }

    /** `cleanupOldEntities()`, `updateDifficulty()`, `updatePowerUps(dt)` and `updateCamera()`: the player stays where it is. */
    method Tidy(dt: real)
      requires Valid()
      modifies player, this`platforms, this`projectiles, this`platformMinGap, this`platformMaxGap, this`powers,
               this`cameraSmoothX, this`cameraX, this`shake, this`cursor
      ensures Valid() && player.x == old(player.x)
    {
      Tighten();
      UpdatePowerUps(dt);
      UpdateCamera();
    }

    /** `cleanupOldEntities()` and `updateDifficulty()`: the gaps stay ordered and the player where it is. */
    method Tighten()
      requires Valid()
      modifies player, this`platforms, this`projectiles, this`platformMinGap, this`platformMaxGap
      ensures Valid() && player.x == old(player.x)
    {
      CleanupOldEntities();
      GapsStayOrdered(player.score, distance);
      UpdateDifficulty();
    }

    /** The distance gates of `update`: never more than one enemy. */
    method Spawn()
      requires Valid()
      modifies this`enemies, this`collectibles, this`cursor,
               this`lastEnemyBatchDistance, this`lastGoldenCarrotDistance, this`lastCoinDistance
      ensures Valid()
    {
      EnemyGate();
      GemGate();
      TreatGate();
    }

    /** The entity loops of `update`, before the collisions: no enemy is added or lost. */
    method Animate(dt: real, sine: real -> Wave, root: real -> real)
      requires Valid() && Roots(root)
      modifies this`platforms, this`enemies, this`projectiles, this`clouds, this`cursor, this`collectibles, this`scorePopups
      ensures Valid()
    {
      AnimateWorld(dt, sine);
      AnimateItems(dt, root, sine);
    }

    /** The platform, enemy and cloud loops: the enemies change but are as many as before. */
    method AnimateWorld(dt: real, sine: real -> Wave)
      requires Valid()
      modifies this`platforms, this`enemies, this`projectiles, this`clouds, this`cursor
      ensures Valid()
    {
      UpdatePlatforms(dt);
      UpdateEnemies(dt, sine);
      UpdateClouds(dt);
    }

    /** The pickup, projectile and popup loops, none of which the invariant reads. */
    method AnimateItems(dt: real, root: real -> real, sine: real -> Wave)
      requires Valid() && Roots(root)
      modifies this`collectibles, this`projectiles, this`scorePopups
      ensures Valid()
    {
      UpdateCollectibles(dt, sine, root);
      HandleProjectiles(dt);
      UpdateScorePopups(dt);
    }

    /** `checkCollisions(prev)` as the invariant sees it: the player is never moved sideways. */
    method Contact(prev: Rect)
      requires Valid()
      modifies player, hud, this`lives, this`powers, this`combo, this`shake, this`scorePopups,
               this`platforms, this`collectibles, this`enemies, this`projectiles
      ensures Valid() && player.x == old(player.x)
    {
      ghost var r := Collide(Now(), decorations, prev, player.spriteW, player.spriteH, hasFont);
      assert Sane(TallyOf(r)) && r.lives <= lives && r.body.x == player.x && |r.foes| == |enemies| by {
        CollideBounds(Now(), decorations, prev, player.spriteW, player.spriteH, hasFont);
      }
      CheckCollisions(prev);
    }

    /** The erasures as the invariant sees them: only live enemies and pickups remain. */
    method Prune()
      requires Valid()
      modifies this`enemies, this`collectibles
      ensures Valid()
      ensures (forall e :: e in enemies ==> e.foe.active) && (forall c :: c in collectibles ==> Pickups.Live(c.item))
    {
      ghost var es, cs := enemies, collectibles;
      PruneInactive();
      PruneKeepsTheLive(es, cs);
      SelectLength(es, Flags(es, EnemyLive));
    }

    /** The end of `update`: a dead player keeps the best score and ends the run; a living one is shown on the HUD. */
    method Conclude(attached: bool) returns (ask: ScreenStack.Reaction)
      requires Valid()
      modifies hud, this`highScore
      ensures Valid()
      ensures player.state == PlayerPhysics.Dead ==>
                highScore == (if player.score > old(highScore) then player.score else old(highScore)) &&
                ask == GameOverAsk(attached) && hud.Data() == old(hud.Data())
      ensures player.state != PlayerPhysics.Dead ==>
                highScore == old(highScore) && ask == ScreenStack.Stay &&
                hud.Data() == HudRules.Refresh(old(hud.Data()), player.score, highScore, distance, combo.count,
                                               Multiplier(combo.count, powers.doubled), powers.shield, powers.magnet,
                                               powers.doubled, lives, hud.hasFont, hud.hasIcon)
    {
      if player.IsDead() {
        if player.score > highScore {
          highScore := player.score;
        }
        ask := GameOverAsk(attached);
        return;
      }
      var comboMultiplier := 1.0 + combo.count as real * 0.1;
      var shown := if powers.doubled then comboMultiplier * 2.0 else comboMultiplier;
      assert shown == Multiplier(combo.count, powers.doubled);
      hud.Update(player.score, highScore, distance, combo.count, shown,
                 powers.shield, powers.magnet, powers.doubled, lives);
      ask := ScreenStack.Stay;
    }

    /** The world part of `update`: the player moves, the world is generated ahead of it and the rules of the run catch up. */
    method Advance(dt: real, input: PlayerPhysics.Input) returns (prev: Rect)
      requires Valid()
      modifies player, this`worldTime, this`distance, this`platforms, this`decorations, this`collectibles,
               this`generationX, this`groundGenerationX, this`cursor, this`projectiles,
               this`platformMinGap, this`platformMaxGap, this`powers, this`cameraSmoothX, this`cameraX, this`shake
      ensures Valid() && Ahead()
      ensures worldTime == old(worldTime) + dt && distance >= old(distance)
    {
      prev := Move(dt, input);
      Regenerate();
      Tidy(dt);
    }

    /** The entity part of `update`: spawns, then every entity's own update. */
    method Populate(dt: real, sine: real -> Wave, root: real -> real)
      requires Valid() && Roots(root)
      modifies this`enemies, this`collectibles, this`cursor, this`platforms, this`projectiles, this`clouds,
               this`scorePopups, this`lastEnemyBatchDistance, this`lastGoldenCarrotDistance, this`lastCoinDistance
      ensures Valid()
    {
      Spawn();
      Animate(dt, sine, root);
    }

    /** The closing part of `update`: collisions, erasures, then game over or the HUD. */
    method Finish(prev: Rect, attached: bool) returns (ask: ScreenStack.Reaction)
      requires Valid()
      modifies player, hud, this`lives, this`powers, this`combo, this`shake, this`scorePopups,
               this`platforms, this`collectibles, this`enemies, this`projectiles, this`highScore
      ensures Valid() && player.x == old(player.x)
      ensures (forall e :: e in enemies ==> e.foe.active) && (forall c :: c in collectibles ==> Pickups.Live(c.item))
      ensures player.state == PlayerPhysics.Dead ==>
                highScore == (if player.score > old(highScore) then player.score else old(highScore)) &&
                ask == GameOverAsk(attached)
      ensures player.state != PlayerPhysics.Dead ==>
                highScore == old(highScore) && ask == ScreenStack.Stay && hud.Data().currentScore == player.score
    {
      Contact(prev);
      Prune();
      ask := Conclude(attached);
    }

    /**
     * `update(dt)`, with the keys held, `std::sin`, `std::sqrt` and whether a
     * game owns the state passed in. Paused, nothing happens. Otherwise the
     * frame keeps the invariant and the ground and platforms ahead, counts
     * time and distance, and leaves only live enemies and pickups; a dead
     * player ends the run with the best score kept, a living one is shown on
     * the HUD.
     */
    method Step(dt: real, input: PlayerPhysics.Input, sine: real -> Wave, root: real -> real, attached: bool)
      returns (ask: ScreenStack.Reaction)
      requires Valid() && Roots(root)
      modifies this, player, hud
      ensures Valid()
      ensures worldTime == old(worldTime) + dt && distance >= old(distance) && Ahead()
      ensures (forall e :: e in enemies ==> e.foe.active) &&
              (forall c :: c in collectibles ==> Pickups.Live(c.item))
      ensures player.state == PlayerPhysics.Dead ==>
                highScore == (if player.score > old(highScore) then player.score else old(highScore)) &&
                ask == GameOverAsk(attached)
      ensures player.state != PlayerPhysics.Dead ==>
                highScore == old(highScore) && ask == ScreenStack.Stay && hud.Data().currentScore == player.score
    {
      var prev := Advance(dt, input);
      Populate(dt, sine, root);
      ask := Finish(prev, attached);
    }

    method Update(dt: real, input: PlayerPhysics.Input, sine: real -> Wave, root: real -> real, attached: bool)
      returns (ask: ScreenStack.Reaction)
      requires Valid() && Roots(root)
      modifies this, player, hud
      ensures Valid()
      ensures old(paused) ==> ask == ScreenStack.Stay && unchanged(this) && unchanged(player) && unchanged(hud)
      ensures !old(paused) ==> worldTime == old(worldTime) + dt && distance >= old(distance) && Ahead()
      ensures !old(paused) ==> (forall e :: e in enemies ==> e.foe.active) &&
                               (forall c :: c in collectibles ==> Pickups.Live(c.item))
      ensures !old(paused) && player.state == PlayerPhysics.Dead ==>
                highScore == (if player.score > old(highScore) then player.score else old(highScore)) &&
                ask == GameOverAsk(attached)
      ensures !old(paused) && player.state != PlayerPhysics.Dead ==>
                highScore == old(highScore) && ask == ScreenStack.Stay && hud.Data().currentScore == player.score
    {
      if paused {
        ask := ScreenStack.Stay;
      } else {
        ask := Step(dt, input, sine, root, attached);
      }
    }
  }
}
