# banana-panic, the simulation rules

This project is a Dafny model of the simulation rules of banana-panic, an SFML endless runner. A bunny runs right on its own. It jumps (twice at most) and slides. It lands on floating platforms, collects carrots, coins, gems and power-ups, and stomps or dodges enemies and their projectiles. The ground and the platforms are generated ahead of the player as it runs.

The model follows the source file by file:

| file | rules on values | class |
|---|---|---|
| `Animation.cpp` | `Animations` | `Animations.Animation` |
| `src/Player.cpp` | `PlayerPhysics` | `Players.Player` |
| `Collectible.cpp` | `Pickups` | `Collectibles.Collectible` |
| `Enemy.cpp` | `EnemyRules` | `Enemies.Enemy` |
| `src/Platform.cpp` | `Ledges` | `Platforms.Platform` |
| `HUD.cpp` | `HudRules` | `Hud.HUD` |
| `src/Game.cpp` | `ScreenStack` | `Games.Game` |
| `src/PlayingState.cpp` | `RunRules`, `WorldGen`, `Contacts` | `Playing.PlayingState` |

`Playing` holds class `PlayingState`, whose `Update` runs one frame. Its pieces are:
- `RunRules`: the arithmetic of one frame;
- `WorldGen` and `Generation`: the two generation frontiers;
- `Contacts` and `Collisions`: `checkCollisions`;
- `Frame`: the per-entity loops of `update`.

Each class keeps the source's fields. It also has a value snapshot, `Data()`. Each method's contract ties the new snapshot to a pure function of the old one, and the lemmas are proved about those functions. Where the source loops, the model loops too, and the loop is proved equal to a fold over the list. A few small modules hold helpers: `Geometry` (rectangles, `Max`, `RoundHalfUp`), `Assets` (texture sizes), `TextFormat` (integer to text) and `Sequences` (filters).

The environment is passed in as parameters:
- Textures become a lookup `Textures` from name to size.
- The random generator becomes a stream `draws: nat -> Unit` of values in [0, 1) plus a cursor. The stream is read in the source's order, and `randomFloat(lo, hi)` is `lo + (hi - lo) * u`.
- `std::sin` becomes a parameter `sine`, whose values are only known to lie in [-1, 1].
- `std::sqrt` becomes a parameter `root`, which the predicate `Roots` describes.
- Keyboard polling becomes an `Input` of two booleans.

`float` becomes `real`, so there is no rounding. `FloatRect::intersects` is strict overlap on both axes.

Where the comments and the code disagree, the model follows the code. Two examples: ice slows the run speed to 0.4 of itself, and `applyPhysics` never leaves `Sliding`.

## Model

| member | source | states |
|---|---|---|
| Animations.Advance | Animation.cpp:23-42 | frames, frame time and looping are kept; with no frames nothing changes; the index moves one on, wraps to 0 or clamps to the last frame; a valid clock stays valid with its index in range; `finished` never clears; the accumulator grows by dt or restarts at 0 |
| Animations.Rewind | Animation.cpp:44-48 | time 0, frame 0, not finished; frames, frame time and looping unchanged |
| Animations.CurrentFrame | Animation.cpp:50-55 | the zero rectangle with no frames, otherwise one of the clip's frames |
| Animations.StepWhenDue | Animation.cpp:28-40 | a step reaching the frame time resets the accumulator to 0 and moves one frame on, past the last wraps to 0 when looping and clamps to the last frame and finishes otherwise |
| Animations.StepWhenNotDue | Animation.cpp:26-28 | a step short of the frame time only adds dt to the accumulator |
| Animations.AdvanceNValid | Animation.cpp:32-40 | with frames present the index stays below the frame count over any number of updates |
| Animations.LoopingNeverFinishes | Animation.cpp:33-34 | a looping clip never sets `finished` |
| Animations.FinishedLatches | Animation.cpp:36-38 | once finished, a clip stays finished under updates |
| Animations.FinishedHoldsLastFrame | Animation.cpp:36-38 | a finished non-looping clip stays on its last frame |
| Animations.NonLoopingFinishes | Animation.cpp:28-39 | a rewound non-looping clip of k frames stepped by at least the frame time is finished on its last frame after k updates |
| Animations.ClimbsOneFramePerStep | Animation.cpp:28-31 | from a rewind each due step advances exactly one frame and restarts the accumulator |
| Animations.Animation.constructor | Animation.cpp:3-9 | no frames, frame time 0.1, time 0, frame 0, looping, not finished |
| Animations.Animation.AddFrame | Animation.cpp:11-13 | appends the frame and keeps the index in range |
| Animations.Animation.SetFrameTime | Animation.cpp:15-17 | sets only the frame time |
| Animations.Animation.SetLooping | Animation.cpp:19-21 | sets only the looping flag |
| Animations.Animation.Update | Animation.cpp:23-42 | the fields become `Advance` of the old ones, and the index stays in range |
| Animations.Animation.Reset | Animation.cpp:44-48 | the fields become `Rewind` of the old ones |
| Animations.Animation.GetCurrentFrame | Animation.cpp:50-55 | returns `CurrentFrame` of the fields |
| Animations.Animation.IsFinished | Animation.cpp:57-59 | the `finished` field |
| PlayerPhysics.Jump | src/Player.cpp:300-318 | no-op when dead or with both jumps used; from the ground the counter restarts; an accepted jump counts one more, gives -450 on the first and -800 on the second, clears grounded and sets Jumping, and changes nothing else; the counter stays within 2 |
| PlayerPhysics.Slide | src/Player.cpp:320-328 | only when grounded, not sliding and not dead: sliding, timer 0.5, state Sliding; otherwise no change |
| PlayerPhysics.Die | src/Player.cpp:330-337 | the state is Dead; it acts once, setting velocity (0, -200) |
| PlayerPhysics.Respawn | src/Player.cpp:339-359 | Idle at (100, 400) at rest, score 0, no jumps used; run speed, boost and ice timer untouched |
| PlayerPhysics.SetGrounded | src/Player.cpp:369-376 | sets grounded; landing while Jumping and not sliding gives Running with the jump counter at 0 |
| PlayerPhysics.Bounce | src/Player.cpp:412-417 | vy = strength, airborne, Jumping, exactly one jump used |
| PlayerPhysics.ClampScore | src/Player.cpp:390-392 | the score clamped at 0 |
| PlayerPhysics.ExtendIce | src/Player.cpp:408-410 | the ice timer becomes the larger of the old and the new duration |
| PlayerPhysics.RunSpeed | src/Player.cpp:398-401 | run speed times boost, times 0.4 while the ice timer runs |
| PlayerPhysics.IceSlowsDown | src/Player.cpp:398-401 | ice makes a positive run speed strictly slower but still positive |
| PlayerPhysics.DecayEffects | src/Player.cpp:119-128 | the boost timer counts down and the boost drops to 1 when it runs out; the ice timer counts down, never below 0; nothing else changes |
| PlayerPhysics.JumpKey | src/Player.cpp:130-141 | a held key jumps once per press unless sliding and latches; a released key clears the latch |
| PlayerPhysics.PollSlide | src/Player.cpp:143-152 | a held key slides once per press when grounded and not sliding; a released key clears the latch |
| PlayerPhysics.SlideKey | src/Player.cpp:192-198 | the latch follows the key, and a press while grounded and not sliding starts a slide |
| PlayerPhysics.Propel | src/Player.cpp:154-162 | runs right at `RunSpeed` unless sliding or dead, where vx is 0 |
| PlayerPhysics.SlideClock | src/Player.cpp:164-170 | while sliding the timer counts down and the slide flag clears at 0; the state is not touched |
| PlayerPhysics.Integrate | src/Player.cpp:201-212 | gravity 1200 while airborne and vy = 0 when grounded, then the position moves by velocity times dt |
| PlayerPhysics.Classify | src/Player.cpp:214-228 | Dead and Sliding are never changed; otherwise airborne is Jumping, grounded is Running above speed 5 and Idle otherwise |
| PlayerPhysics.Fall | src/Player.cpp:110-117 | a dead player only gets gravity |
| PlayerPhysics.HandleKey | src/Player.cpp:178-199 | ignored once dead |
| PlayerPhysics.Bounds | src/Player.cpp:419-434 | the sprite box shrunk by 15% per side horizontally and 10% vertically, its height times 0.6 while sliding |
| PlayerPhysics.Wear | src/Player.cpp:237-241 | with the texture present the sprite takes its size at scale 0.4; without it nothing changes; the run clock is kept |
| PlayerPhysics.Truncate | src/Player.cpp:251 | `static_cast<int>`: the floor for non-negative values, toward zero for negative ones |
| PlayerPhysics.Pose | src/Player.cpp:231-298 | sizes stay non-negative; outside the run the sprite wears the state's own texture |
| PlayerPhysics.PoseWearsStateTexture | src/Player.cpp:236-292 | outside the run the clock stands still and the sprite takes the idle, jump, slide or death texture's size, or keeps its size when that texture is missing |
| PlayerPhysics.RunCycleAlternates | src/Player.cpp:244-262 | the run clock advances by dt and restarts at 0.15 s; with both run textures the first shows while the clock is below 0.1 s and the second after |
| PlayerPhysics.RunWithoutSecondFrame | src/Player.cpp:263-267 | with only the first run texture the runner wears it; with neither the size is kept |
| PlayerPhysics.HitboxFollowsPose | src/Player.cpp:419-434 | after the pose the hitbox is 0.7 of the state texture's scaled width and 0.8 (0.48 sliding) of its scaled height |
| PlayerPhysics.DeadIsAbsorbing | src/Player.cpp:110-117 | a dead player ignores jump, slide, die and keys, stays dead when grounded or moved, and only falls on update |
| PlayerPhysics.StepKeepsLife | src/Player.cpp:109-176 | update never kills and never revives |
| PlayerPhysics.StepKeepsScore | src/Player.cpp:109-176 | update never touches the score |
| PlayerPhysics.KeyKeepsScore | src/Player.cpp:178-199 | a key event keeps the score and x, and the jump cap |
| PlayerPhysics.StepValid | src/Player.cpp:109-176 | update keeps the jump counter within 0..2 |
| PlayerPhysics.DoubleJumpFromGround | src/Player.cpp:300-318 | from the ground the first jump gives -450 with 1 jump used, the second -800 with 2, and a third changes nothing |
| PlayerPhysics.BounceLeavesOneJump | src/Player.cpp:412-417 | after a bounce exactly one more jump is accepted, and it is the big one |
| PlayerPhysics.LandingRefillsJumps | src/Player.cpp:369-376 | landing from a jump gives Running with 0 jumps used, so a jump is accepted again |
| PlayerPhysics.SlidingStateOutlivesSlide | src/Player.cpp:164-170 | when the slide timer runs out the slide flag clears but the state stays Sliding, also on the next update |
| PlayerPhysics.HeldJumpFiresOnce | src/Player.cpp:130-141 | holding the jump key jumps on the first update only |
| PlayerPhysics.StepRunsAtRunSpeed | src/Player.cpp:154-158 | a running player's vx is the run speed after the timers of this update |
| Players.Player.constructor | src/Player.cpp:6-55 | the initial body, with the sprite size of the idle texture at scale 0.4 (zero without it) and the run clock at 0 |
| Players.Player.Update | src/Player.cpp:109-176 | the body becomes `Step` of the old one, keeping the jump cap, and the sprite becomes `Pose` of the old one in the state reached |
| Players.Player.UpdateAnimation | src/Player.cpp:231-298 | the body is kept and the sprite becomes `Pose` of the old one in the current state |
| Players.Player.SetTexture | src/Player.cpp:237-240 | the body is kept and the sprite becomes `Wear` of the old one |
| Players.Player.UpdateEffects | src/Player.cpp:119-128 | the body becomes `DecayEffects` of the old one |
| Players.Player.PressJump | src/Player.cpp:130-141 | the body becomes `JumpKey` of the old one |
| Players.Player.PollSlide | src/Player.cpp:143-152 | the body becomes `PollSlide` of the old one |
| Players.Player.AutoRun | src/Player.cpp:154-162 | the body becomes `Propel` of the old one |
| Players.Player.UpdateSlide | src/Player.cpp:164-170 | the body becomes `SlideClock` of the old one |
| Players.Player.HandleInput | src/Player.cpp:178-199 | the body becomes `HandleKey` of the old one |
| Players.Player.ApplyPhysics | src/Player.cpp:201-229 | the body becomes `Physics` of the old one |
| Players.Player.Integrate | src/Player.cpp:202-212 | the body becomes `Integrate` of the old one |
| Players.Player.RefreshState | src/Player.cpp:214-228 | the body becomes `Classify` of the old one |
| Players.Player.Jump | src/Player.cpp:300-318 | the body becomes `Jump` of the old one |
| Players.Player.Slide | src/Player.cpp:320-328 | the body becomes `Slide` of the old one |
| Players.Player.Die | src/Player.cpp:330-337 | the body becomes `Die` of the old one |
| Players.Player.Reset | src/Player.cpp:339-359 | the body becomes `Respawn` of the old one |
| Players.Player.RestartMotion | src/Player.cpp:340-342 | Idle at (100, 400) at rest, facing right, nothing else changed |
| Players.Player.ClearControls | src/Player.cpp:343-350 | grounded, sliding, slide timer, latches and jump counter cleared, nothing else changed |
| Players.Player.IsDead | src/Player.cpp:361-363 | true exactly in the Dead state |
| Players.Player.SetGrounded | src/Player.cpp:369-376 | the body becomes `SetGrounded` of the old one |
| Players.Player.AddScore | src/Player.cpp:378-380 | adds the points to the score, nothing else |
| Players.Player.ResetScore | src/Player.cpp:386-388 | the score becomes 0, nothing else |
| Players.Player.SetScore | src/Player.cpp:390-392 | the score becomes the argument clamped at 0 |
| Players.Player.SetRunSpeed | src/Player.cpp:394-396 | sets only the base run speed |
| Players.Player.GetRunSpeed | src/Player.cpp:398-401 | `RunSpeed` of the body |
| Players.Player.ApplySpeedBoost | src/Player.cpp:403-406 | sets only the boost and its timer |
| Players.Player.SetIceTime | src/Player.cpp:408-410 | the body becomes `ExtendIce` of the old one |
| Players.Player.Bounce | src/Player.cpp:412-417 | the body becomes `Bounce` of the old one |
| Players.Player.SetVelocityY | src/Player.cpp:445-447 | sets only vy |
| Players.Player.SetPosition | src/Player.cpp:440-443 | sets only the position |
| Players.Player.Assign | src/PlayingState.cpp:396-595 | the body becomes the one the collision pass computed |
| Players.Player.GetBounds | src/Player.cpp:419-434 | `Bounds` of the body with the size of the texture the sprite currently wears |
| Pickups.Points | Collectible.cpp:280-295 | Coin 10, Gem 25, Candy 5, Heart 10, and a kind is worth points exactly when it is not a power-up |
| Pickups.TextureName | Collectible.cpp:207-230 | every kind has a non-empty texture name |
| Pickups.TextureNamesDistinct | Collectible.cpp:207-230 | no two kinds share a texture name |
| Pickups.ScaleOf | Collectible.cpp:183-192 | 0.6 for point pickups, 0.85 for power-ups, 0.7 for an extra life |
| Pickups.PickupClip | Collectible.cpp:195-205 | one frame at frame time 0.15 when the texture exists, the default clip otherwise |
| Pickups.Spawned | Collectible.cpp:163-193 | a live pickup of the kind at the position, at rest |
| Pickups.Bob | Collectible.cpp:235-237 | the bob phase runs at twice real time and the offset stays within 10 px |
| Pickups.Drift | Collectible.cpp:242-244 | the position moves by velocity times dt, then the velocity is damped to 90% and never grows |
| Pickups.PlaceSprite | Collectible.cpp:246-249 | the sprite sits at the position lifted by the bob |
| Pickups.FloatEffect | Collectible.cpp:232-251 | an inactive or collected pickup is frozen; a live one moves by its velocity, damps it, bobs by sine times 10 and stays live |
| Pickups.Damped | Collectible.cpp:244 | repeated damping never increases a speed and keeps a zero speed zero |
| Pickups.VelocityFades | Collectible.cpp:243-244 | n updates damp each velocity component n times |
| Pickups.FloatDamps | Collectible.cpp:243-244 | one update damps the velocity to 90% and keeps the pickup live |
| Pickups.DampedIsGeometric | Collectible.cpp:244 | n dampings multiply the speed by 0.9 to the n |
| Pickups.Collect | Collectible.cpp:271-274 | collected, inactive and no longer live; nothing else changes |
| Pickups.CollectedStaysDead | Collectible.cpp:297-303 | a collected pickup is not live even after `setActive(true)` |
| Pickups.Attract | Collectible.cpp:313-320 | within distance 1 nothing changes; otherwise the velocity gains strength times dt along the unit direction to the target |
| Pickups.AttractPullHasUnitDirection | Collectible.cpp:314-318 | the velocity change has length strength times dt |
| Collectibles.Collectible.constructor | Collectible.cpp:163-193 | the fields of `Spawned`, with the sprite size of the kind's texture at its scale |
| Collectibles.Collectible.Update | Collectible.cpp:232-251 | the fields become `Float` of the old ones |
| Collectibles.Collectible.Drift | Collectible.cpp:242-244 | the fields become `Drift` of the old ones |
| Collectibles.Collectible.GetBounds | Collectible.cpp:259-261 | the sprite rectangle |
| Collectibles.Collectible.IsCollected | Collectible.cpp:267-269 | the collected flag |
| Collectibles.Collectible.Collect | Collectible.cpp:271-274 | the fields become `Collect` of the old ones |
| Collectibles.Collectible.GetPoints | Collectible.cpp:280-295 | `Points` of the kind |
| Collectibles.Collectible.IsActive | Collectible.cpp:297-299 | active and not collected |
| Collectibles.Collectible.SetActive | Collectible.cpp:301-303 | sets only the active flag |
| Collectibles.Collectible.IsPowerUpItem | Collectible.cpp:305-311 | true exactly for Magnet, Shield, SpeedBoost, DoublePoints and ExtraLife |
| Collectibles.Collectible.AttractTowards | Collectible.cpp:313-320 | the fields become `Attract` of the old ones, with the square root of the squared distance passed in |
| Collectibles.Collectible.SetPosition | Collectible.cpp:322-325 | moves the pickup and its sprite |
| EnemyRules.FrameNames | Enemy.cpp:34-52 | each kind names two frame textures |
| EnemyRules.Present | Enemy.cpp:28-32 | keeps, in order, exactly the names whose texture exists, and is empty only when none exists |
| EnemyRules.LoadFrames | Enemy.cpp:26-57 | at most two frames, each an existing texture; empty only when neither of the kind's textures nor the fallback exists; the kind's own frames when one of them exists |
| EnemyRules.ChaseFactor | Enemy.cpp:90 | the acceleration lies in [1, 2]; 1 at 400 px or more from the target, 2 on it |
| EnemyRules.Spawned | Enemy.cpp:4-24 | active, not shooting, frame 0, targeting its own position |
| EnemyRules.Move | Enemy.cpp:72-103 | movement keeps the kind, the flags, the frame and the speed; only a Shooter touches the shoot timer and flag |
| EnemyRules.Animate | Enemy.cpp:105-114 | with no frames nothing changes; otherwise the timer wraps at 0.15 and the frame steps modulo the frame count, staying in range |
| EnemyRules.Cull | Enemy.cpp:66-69 | an enemy left of x = -200 is deactivated |
| EnemyRules.ShootOrigin | Enemy.cpp:156-158 | the position plus (-20, 10) |
| EnemyRules.Respawn | Enemy.cpp:138-146 | active at the position with zero timers and frame 0, kind and speed kept |
| EnemyRules.InactiveFrozen | Enemy.cpp:59-60 | update on an inactive enemy changes nothing |
| EnemyRules.FireFlagOnlyWhenDue | Enemy.cpp:61-87 | after an active update the shoot flag is set exactly for a Shooter whose timer reached 2.5, and the timer is then 0 |
| EnemyRules.ShooterTimerBelowPeriod | Enemy.cpp:80-87 | a Shooter's timer stays below 2.5 after each update |
| EnemyRules.NeverMovesRight | Enemy.cpp:72-98 | with speed and dt non-negative no kind moves right |
| EnemyRules.ChaserBetweenOneAndTwice | Enemy.cpp:89-92 | a Chaser moves left between once and twice its speed times dt |
| EnemyRules.OffscreenDeactivates | Enemy.cpp:66-69 | an enemy left of -200 after update is inactive |
| EnemyRules.FrameInRange | Enemy.cpp:105-114 | with frames present the frame index stays below the frame count |
| Enemies.Enemy.constructor | Enemy.cpp:4-24 | the fields of `Spawned`, the frames of `LoadFrames`, and the sprite size of the first frame at scale 0.7 |
| Enemies.Enemy.Update | Enemy.cpp:59-70 | the fields become `Step` of the old ones with the frame count, and the frame stays in range |
| Enemies.Enemy.UpdateMovement | Enemy.cpp:72-103 | the fields become `Move` of the old ones |
| Enemies.Enemy.MoveFlyer | Enemy.cpp:74-79 | a Flyer's fields become `Move` of the old ones |
| Enemies.Enemy.MoveShooter | Enemy.cpp:80-88 | a Shooter's fields become `Move` of the old ones |
| Enemies.Enemy.UpdateAnimation | Enemy.cpp:105-114 | the fields become `Animate` of the old ones |
| Enemies.Enemy.GetBounds | Enemy.cpp:122-124 | the sprite rectangle at the position |
| Enemies.Enemy.IsActive | Enemy.cpp:130-132 | the active flag |
| Enemies.Enemy.SetActive | Enemy.cpp:134-136 | sets only the active flag |
| Enemies.Enemy.Reset | Enemy.cpp:138-146 | the fields become `Respawn` of the old ones |
| Enemies.Enemy.SetTargetPosition | Enemy.cpp:148-150 | sets only the target |
| Enemies.Enemy.WantsToShoot | Enemy.cpp:152-154 | the shoot flag |
| Enemies.Enemy.GetShootOrigin | Enemy.cpp:156-158 | `ShootOrigin` of the fields |
| Ledges.TextureFor | src/Platform.cpp:39-43 | snow for Ice, cake for Bouncy, sand for the two moving kinds, the plain texture otherwise |
| Ledges.Outline | src/Platform.cpp:45-57 | a 2 px outline exactly when neither the kind's texture nor the plain one exists |
| Ledges.Built | src/Platform.cpp:17-32 | active, not breaking, moving forward, at its origin |
| Ledges.Bounds | src/Platform.cpp:115-117 | the shape's box grown by the outline on every side |
| Ledges.Swing | src/Platform.cpp:68-72 | the offset moves one step in the current direction, and the direction flips exactly when the new offset has reached the range |
| Ledges.Sway | src/Platform.cpp:66-83 | movement keeps the kind, the flags, the break timer, the origin, the range and the speed |
| Ledges.Crumble | src/Platform.cpp:93-103 | only a breaking platform counts down, and it goes inactive once the timer is not above 0 |
| Ledges.Tick | src/Platform.cpp:60-64 | update keeps the kind, the origin, the range and the speed |
| Ledges.StartBreaking | src/Platform.cpp:85-91 | acts only on a Breaking platform not yet breaking, with a countdown of 1 s |
| Ledges.TypeEffect | src/Platform.cpp:123-137 | Bouncy bounces the player with -900, Ice extends its ice time to 0.8, Breaking starts breaking, the other kinds do nothing |
| Ledges.HorizontalIsSwing | src/Platform.cpp:67-74 | a horizontal mover's x offset takes the `Swing` step and y stays |
| Ledges.VerticalIsSwing | src/Platform.cpp:75-82 | a vertical mover's y offset takes the `Swing` step and x stays |
| Ledges.StaticTypesStayPut | src/Platform.cpp:66-83 | Normal, Breaking, Bouncy and Ice platforms never move |
| Ledges.SwingStaysInEnvelope | src/Platform.cpp:68-72 | a swing keeps the offset within one step of the range, heading back once past it |
| Ledges.StartsInEnvelope | src/Platform.cpp:17-32 | a new mover starts inside that envelope |
| Ledges.HorizontalTickInEnvelope | src/Platform.cpp:66-74 | one update keeps a horizontal mover in its envelope |
| Ledges.HorizontalStaysInEnvelope | src/Platform.cpp:66-74 | any number of equal updates keep a horizontal mover in its envelope |
| Ledges.VerticalTickInEnvelope | src/Platform.cpp:75-82 | one update keeps a vertical mover in its envelope |
| Ledges.VerticalStaysInEnvelope | src/Platform.cpp:75-82 | any number of equal updates keep a vertical mover in its envelope |
| Ledges.BrokenStaysBroken | src/Platform.cpp:60-61 | updates leave an inactive platform unchanged |
| Ledges.NeverReactivates | src/Platform.cpp:93-98 | nothing an update does makes a platform active again |
| Ledges.CountdownNotRestarted | src/Platform.cpp:85-91 | starting to break again leaves a breaking platform's countdown alone |
| Ledges.CrumblesInTime | src/Platform.cpp:93-98 | a breaking platform is gone once the elapsed time covers its timer |
| Ledges.LandedPlatformGoesInOneSecond | src/Platform.cpp:85-98 | a Breaking platform landed on is gone after updates totalling 1 s |
| Platforms.Platform.constructor | src/Platform.cpp:17-58 | the fields of `Built`, with the outline of `Outline` |
| Platforms.Platform.Update | src/Platform.cpp:60-64 | the fields become `Tick` of the old ones |
| Platforms.Platform.UpdateMovement | src/Platform.cpp:66-83 | the fields become `Sway` of the old ones |
| Platforms.Platform.StartBreaking | src/Platform.cpp:85-91 | the fields become `StartBreaking` of the old ones |
| Platforms.Platform.UpdateBreaking | src/Platform.cpp:93-103 | the fields become `Crumble` of the old ones |
| Platforms.Platform.IsBroken | src/Platform.cpp:105-107 | not active |
| Platforms.Platform.GetBounds | src/Platform.cpp:115-117 | `Bounds` with the outline |
| Platforms.Platform.GetPosition | src/Platform.cpp:119-121 | the position |
| Platforms.Platform.GetSize | Platform.h:34 | the size |
| Platforms.Platform.GetType | Platform.h:30 | the kind |
| Platforms.Platform.IsActive | Platform.h:36 | the active flag |
| Platforms.Platform.Deactivate | Platform.h:37 | clears only the active flag |
| Platforms.Platform.ApplyTypeEffect | src/Platform.cpp:123-137 | platform and player become `TypeEffect` of the old ones, keeping the jump cap |
| HudRules.IconAt | HUD.cpp:138-149 | icon i sits at 1200 - 36 i, y 20, scale 0.32, and is faded exactly when i is not below the lives |
| HudRules.Bright | HUD.cpp:147-149 | the bright icons number no more than the icons |
| HudRules.IconsCountLives | HUD.cpp:132-152 | always three icons, 36 px apart, and the number left bright is the lives clamped to 0..3 |
| HudRules.Tally | HUD.cpp:50-60 | a shown score below the score rises by at least 1 and by a tenth of the gap, never past it; otherwise it stays |
| HudRules.DisplayCatchesUp | HUD.cpp:50-60 | after as many updates as the gap the shown score equals the score |
| HudRules.DisplayBetween | HUD.cpp:50-60 | the shown score stays between where it started and the score |
| HudRules.DisplayIgnoresDrop | HUD.cpp:52-60 | the shown score never falls to meet a lower score |
| HudRules.ScoreLine | HUD.cpp:64-66 | "Score: " followed by at least six characters |
| HudRules.ScoreLineReadsBack | HUD.cpp:64-66 | the score line's tail is all digits and reads back as the shown score |
| HudRules.Labelled | HUD.cpp:68-70 | starts with the label and carries at least one more character; it builds the best line ("Best: ") and the lives line ("Lives: ", HUD.cpp:126) |
| HudRules.LabelledReadsBack | HUD.cpp:68-70 | for a non-negative number, everything after the label is digits that read back as the number |
| HudRules.LabelledNegativeReadsBack | HUD.cpp:126 | for a negative number, the label is followed by a minus sign and then exactly the digits of its size |
| HudRules.Tenths | HUD.cpp:72-74 | the distance's size in tenths, rounded to within half a tenth |
| HudRules.DistanceLineReadsBack | HUD.cpp:72-74 | "Distance: ", a minus sign exactly for a negative distance, whole digits, a point, one digit and " m"; the digits read back as the distance to the nearest tenth |
| HudRules.ComboLine | HUD.cpp:76-81 | non-empty exactly when the combo is above 1 |
| HudRules.ComboLineReadsBack | HUD.cpp:76-78 | "Combo x" and then digits that read back as the combo |
| HudRules.MultiplierLine | HUD.cpp:83-88 | non-empty exactly above 1, and then "Multiplier x" and the multiplier truncated |
| HudRules.PowerLineTags | HUD.cpp:90-94 | empty exactly when no power is on; shield, then magnet, then double points, with these lengths |
| HudRules.Fresh | HUD.cpp:6-39 | scores 0, three lives, not animating, three bright icons when the icon loads and none otherwise |
| HudRules.TallyBoard | HUD.cpp:50-60 | the score is stored and the shown score takes the `Tally` step; animating exactly while the shown score was behind |
| HudRules.Relive | HUD.cpp:123-130 | the lives are stored; the text and icons are rebuilt only with a font |
| HudRules.RefreshShows | HUD.cpp:41-97 | with a font: the score is stored and rolled into the score line; the best, distance and lives lines show their values; the combo and multiplier lines show exactly above 1; the power line is empty exactly with no power on; the bright icons are the clamped lives |
| HudRules.RefreshWithoutFont | HUD.cpp:50-62 | without a font only the score tally changes |
| HudRules.JumpTo | HUD.cpp:113-116 | both scores become the score, so the next update does not animate |
| Hud.HUD.constructor | HUD.cpp:6-39 | the state of `Fresh` |
| Hud.HUD.Update | HUD.cpp:41-97 | the state becomes `Refresh` of the old one |
| Hud.HUD.TallyScore | HUD.cpp:50-60 | the state becomes `TallyBoard` of the old one |
| Hud.HUD.SetTexts | HUD.cpp:64-94 | the state becomes `Relabel` of the old one |
| Hud.HUD.SetScoreTexts | HUD.cpp:64-70 | only the score and best lines change |
| Hud.HUD.SetDistanceText | HUD.cpp:72-74 | only the distance line changes, to `DistanceLine` of the distance |
| Hud.HUD.SetBonusTexts | HUD.cpp:76-94 | only the combo, multiplier and power lines change |
| Hud.HUD.PowerText | HUD.cpp:90-93 | the text of `PowerLine` |
| Hud.HUD.SetScore | HUD.cpp:113-116 | the state becomes `JumpTo` of the old one |
| Hud.HUD.AnimateScoreUpdate | HUD.cpp:118-121 | only the animating flag and its clock change |
| Hud.HUD.UpdateLives | HUD.cpp:123-130 | the state becomes `Relive` of the old one |
| Hud.HUD.UpdateLifeIcons | HUD.cpp:132-152 | only the icons change, to the three of `IconsFor` |
| ScreenStack.Attach | src/Game.cpp:84 | the screen is attached to the game and keeps its kind |
| ScreenStack.Top | src/Game.cpp:63-65 | no state on an empty stack, otherwise the last one pushed |
| ScreenStack.Pop | src/Game.cpp:96-100 | nothing on an empty stack, otherwise exactly the top goes |
| ScreenStack.Push | src/Game.cpp:89-94 | a null state changes nothing; otherwise the stack grows by the attached state on top of the old one |
| ScreenStack.Change | src/Game.cpp:78-87 | the top, if any, is replaced by the attached state; a null state only pops |
| ScreenStack.PushPopRoundTrip | src/Game.cpp:89-100 | popping what was pushed gives back the stack |
| ScreenStack.OperationsKeepAttached | src/Game.cpp:78-100 | every state on the stack stays attached through push, pop and change |
| ScreenStack.Apply | src/Game.h:24 | only a quit request clears the running flag; no request touches the window |
| ScreenStack.OnEvent | src/Game.cpp:48-60 | Closed closes the window and stops the run; an empty stack sees no event |
| ScreenStack.ClosedEndsRun | src/Game.cpp:48-60 | after a frame's events the window is open exactly when it was and no Closed came, and the run goes on only if neither stopped it |
| ScreenStack.EmptyStackIgnoresEvents | src/Game.cpp:56-58 | events leave an empty stack empty |
| ScreenStack.QuietStatesKeepStack | src/Game.cpp:56-58 | states that ask for nothing leave the stack as it was |
| ScreenStack.EventsKeepAttached | src/Game.cpp:48-60 | every state on the stack stays attached through any events |
| Games.Game.constructor | src/Game.cpp:5-27 | an empty stack, running, window open |
| Games.Game.Destroy | src/Game.cpp:29-33 | the stack is emptied and nothing else changes |
| Games.Game.ChangeState | src/Game.cpp:78-87 | the stack becomes `Change` of the old one |
| Games.Game.PushState | src/Game.cpp:89-94 | the stack becomes `Push` of the old one |
| Games.Game.PopState | src/Game.cpp:96-100 | the stack becomes `Pop` of the old one |
| Games.Game.HandleEvents | src/Game.cpp:48-60 | the state becomes `OnEvents` of the old one |
| Games.Game.HandleEvent | src/Game.cpp:51-58 | the state becomes `OnEvent` of the old one |
| Games.Game.React | src/Game.h:16-24 | the state becomes `Apply` of the request |
| Games.Game.Update | src/Game.cpp:62-66 | the update goes to the top state, if any |
| Games.Game.IsRunning | src/Game.h:23 | the running flag |
| Games.Game.Quit | src/Game.h:24 | only the running flag changes, to false |
| Geometry.IntersectsSymmetric | src/PlayingState.cpp:403 | the overlap test does not depend on which box is asked |
| Geometry.ClampInt | HUD.cpp:142-149 | the value when already in range, otherwise the nearer end |
| Geometry.RoundHalfUp | src/PlayingState.cpp:497 | the nearest integer to a non-negative value, halves going up |
| Geometry.Scale | src/PlayingState.cpp:12-15 | a uniform draw in [lo, hi) stays in that range |
| TextFormat.NatString | src/PlayingState.cpp:837 | at least one digit, all digits, no leading zero |
| TextFormat.IntString | HUD.cpp:68-70 | a minus sign before the digits exactly for a negative value |
| TextFormat.NatStringRoundTrip | src/PlayingState.cpp:837 | the digits read back as the number |
| TextFormat.NatStringInjective | src/PlayingState.cpp:837 | different numbers print differently |
| TextFormat.PadLeft | HUD.cpp:65 | the text is kept at the right, filled on the left up to the width |
| TextFormat.PaddedRoundTrip | HUD.cpp:65 | a zero-padded number is all digits and reads back as the number |
| RunRules.Travelled | src/PlayingState.cpp:142-144 | the distance never falls, never goes below 0 and covers the metres run past x = 100 at 50 px per metre |
| RunRules.TravelledOnlyGrows | src/PlayingState.cpp:142-144 | a player further right has travelled at least as far, and measuring twice changes nothing |
| RunRules.GemAhead | src/PlayingState.cpp:163-168 | the golden carrot is placed 450 px ahead on the ground surface |
| RunRules.TreatsAhead | src/PlayingState.cpp:171-180 | two hearts 40 px apart, starting 400 px ahead on the ground surface |
| RunRules.EnemyEntryFor | src/PlayingState.cpp:342-343 | a fresh enemy of that kind, speed and place, with the frames that loaded |
| RunRules.EnemiesOutrunThePlayer | src/PlayingState.cpp:325-340 | an enemy spawns at least 1.155 times as fast as the run speed it is given, which is the player's effective speed `getRunSpeed()` with boost and ice |
| RunRules.SpawnedEnemyPlacement | src/PlayingState.cpp:320-345 | 900 to 1150 px right of the camera; walkers on the ground in the first minute, flyers at 260 to 360 after; aimed at the player |
| RunRules.GapsStayOrdered | src/PlayingState.cpp:794-799 | the minimum gap stays within 80..134 and below the maximum, which stays at least 140; the run speed is at least 272 |
| RunRules.HarderIsFaster | src/PlayingState.cpp:794-799 | more difficulty never slows the run or widens a gap |
| RunRules.Follow | src/PlayingState.cpp:597-598 | the camera closes 12 % of its distance to 300 px behind the player |
| RunRules.CameraAt | src/PlayingState.cpp:599 | the camera is the smoothed position, never left of 0 |
| RunRules.CameraNeverOvershoots | src/PlayingState.cpp:596-599 | repeated following stays between the start and the target |
| RunRules.ShakeMagnitudeIsTime | src/PlayingState.cpp:603 | the shake amplitude is the shake time left once the intensity is at least 0.01 |
| RunRules.Trigger | src/PlayingState.cpp:811-814 | only the shake intensity and duration change |
| RunRules.ShakeStep | src/PlayingState.cpp:600-609 | a running shake loses one 60th of a second and draws two offsets; a finished one zeroes them |
| RunRules.ShakeOffsetsBounded | src/PlayingState.cpp:603-605 | the offsets stay within the amplitude, vertically within half of it |
| RunRules.ShakeClockRunsDown | src/PlayingState.cpp:601-602 | after n frames a 0.2 s shake has 0.2 - n/60 left |
| RunRules.StompShakeLastsTwelveFrames | src/PlayingState.cpp:601-602 | a stomp's shake runs for exactly twelve frames |
| RunRules.ShakeClockStays | src/PlayingState.cpp:601-602 | once finished the shake clock stays at 0 |
| RunRules.ComboTick | src/PlayingState.cpp:461-465 | the combo clock gains a 60th of a second; past 2.5 s the combo resets |
| RunRules.ComboBump | src/PlayingState.cpp:492-493 | a pickup or stomp raises the combo by one and restarts its clock |
| RunRules.ComboHolds | src/PlayingState.cpp:461-465 | the combo keeps its count through 150 frames |
| RunRules.ComboLapsesOnFrame151 | src/PlayingState.cpp:461-465 | the combo lapses on the 151st frame without a pickup |
| RunRules.PointsFor | src/PlayingState.cpp:494-497 | a pickup is never worth less than its base points |
| RunRules.FirstPickupValues | src/PlayingState.cpp:494-497 | a first coin gives 11, 22 under double points, and a gem 28 |
| RunRules.PointsGrowWithCombo | src/PlayingState.cpp:494-497 | a longer combo never gives fewer points |
| RunRules.Hurt | src/PlayingState.cpp:429-591 | a hit costs at most one life and never goes below 0; the HUD is told exactly when a life goes |
| RunRules.LastLife | src/PlayingState.cpp:429-591 | with one life an enemy only takes it, a cactus takes it and kills, a ceiling or shot kills and keeps it |
| RunRules.NoLifeLeft | src/PlayingState.cpp:522-591 | with no lives a cactus does nothing and every other hazard kills |
| RunRules.SpareLife | src/PlayingState.cpp:429-591 | with more than one life every hazard costs one life and shows it |
| RunRules.EnemyKillsOnTouchAfterLastLife | src/PlayingState.cpp:521-530 | n enemy touches take n lives and only the one past the last life kills |
| RunRules.Grant | src/PlayingState.cpp:470-490 | magnet 10 s, shield 8 s, double points 15 s; other kinds leave the powers |
| RunRules.UseShield | src/PlayingState.cpp:514-517 | the shield is off and its timer 0 |
| RunRules.Countdown | src/PlayingState.cpp:774-779 | an active power loses dt and switches off once its timer is not above 0 |
| RunRules.Decay | src/PlayingState.cpp:773-792 | all three powers count down on their own |
| RunRules.PowerLastsItsDuration | src/PlayingState.cpp:773-792 | a power stays on exactly while its duration exceeds the time elapsed |
| RunRules.PowerUpsScoreNothing | src/PlayingState.cpp:470-490 | a power-up gives no points and leaves the combo; a speed boost sets 2.0 for 5 s |
| RunRules.PointPickupScores | src/PlayingState.cpp:491-500 | a point pickup bumps the combo and adds `PointsFor` the new count to the score |
| RunRules.StompsAfterSlideEnds | src/PlayingState.cpp:508 | a slide that has ended still stomps, because the state stays Sliding |
| RunRules.Penalty | src/PlayingState.cpp:571-579 | a brown mushroom takes 15 points from a positive score, never below 0, and leaves 0 or less alone |
| RunRules.DirectionMatters | src/PlayingState.cpp:404-429 | rising never lands, sinking never bumps, and starting more than 20 px below the top never lands |
| RunRules.SnapSinksHitbox | src/PlayingState.cpp:415 | after landing the hitbox bottom sits a tenth of the sprite below the platform top |
| RunRules.BumpClearsPlatform | src/PlayingState.cpp:430 | after a bump the hitbox no longer overlaps the platform |
| RunRules.Fired | src/PlayingState.cpp:190-197 | an active shot, leftwards, level, at the enemy's origin |
| RunRules.ShotBounds | src/PlayingState.cpp:191-192 | a 20 by 20 box centred on the shot |
| RunRules.Fly | src/PlayingState.cpp:801-809 | an active shot moves by its velocity and stays active exactly while not 200 px left of the camera |
| RunRules.ShotsFlyLeft | src/PlayingState.cpp:801-809 | shots never move right and never come back |
| RunRules.NewPopup | src/PlayingState.cpp:829-842 | "+" and the points, rising at 30 px/s, for one second |
| RunRules.PopupReadsBack | src/PlayingState.cpp:837 | the popup text reads back as the points |
| RunRules.Age | src/PlayingState.cpp:816-823 | the popup loses dt of life and moves by its velocity |
| RunRules.PopupLivesOneSecond | src/PlayingState.cpp:816-826 | the lifetime falls by the time elapsed and the text stays |
| RunRules.PauseKey | src/PlayingState.cpp:118-125 | P or Escape flips the pause and pushes the pause screen only when pausing with a game; other keys change nothing |
| RunRules.ResumeNeedsASecondPress | src/PauseState.cpp:32-40 | the pause screen pops itself on P, but the playing state stays paused until P comes again |
| WorldGen.PickupEntryFor | src/PlayingState.cpp:357 | a fresh pickup of that kind at that place, with a non-negative sprite size |
| WorldGen.PlatformEntryFor | src/PlayingState.cpp:726-731 | a freshly built platform with the outline its textures call for |
| WorldGen.DecorationAt | src/PlayingState.cpp:632-640 | a decoration of that kind at that place, harmful exactly for a cactus or a brown mushroom |
| WorldGen.AppendKeepsMushroomsClear | src/PlayingState.cpp:641-651 | adding a mushroom that overlaps nothing, or anything that is not a mushroom, keeps every mushroom clear of what came before it |
| WorldGen.CactusIgnoresMushrooms | src/PlayingState.cpp:680-704 | a cactus is placed without checking the decorations, so it may overlap a mushroom |
| WorldGen.GroundPiece | src/PlayingState.cpp:617-620 | a Normal, still ground platform at y 600, 140 deep, of the given width |
| WorldGen.GroundChainSnoc | src/PlayingState.cpp:677-678 | a ground piece laid at the frontier extends the chain to its right edge |
| WorldGen.GroundChainContiguous | src/PlayingState.cpp:615-679 | the ground pieces start at the old frontier, each begins where the last ended, and each is at least 420 wide |
| WorldGen.GroundChainEnds | src/PlayingState.cpp:678 | the last ground piece ends at the new frontier |
| WorldGen.GroundDecoration | src/PlayingState.cpp:631-662 | the decoration stands on the ground at least 40 px inside the piece |
| WorldGen.GroundDecorationStands | src/PlayingState.cpp:636-639 | its bottom is exactly on the ground |
| WorldGen.GroundNeverShelters | src/PlayingState.cpp:693-696 | a ground piece never counts as a platform above a cactus |
| WorldGen.TypeFromRoll | src/PlayingState.cpp:715-719 | Normal up to 0.8, moving to 0.9, bouncy to 0.95, ice above |
| WorldGen.NeverCrumblesNorRises | src/PlayingState.cpp:715-719 | generation never makes a Breaking or vertically moving platform |
| WorldGen.PlanInRange | src/PlayingState.cpp:709-724 | gap, width and height within their ranges; only moving platforms get a range (60..140) and a speed (50..90), using two more draws |
| WorldGen.PlannedPlatform | src/PlayingState.cpp:726-731 | the platform built from the plan, 32 thick |
| WorldGen.SpringFor | src/PlayingState.cpp:737-747 | a harmless spring standing centred on the platform |
| WorldGen.PatternCount | src/PlayingState.cpp:351 | the width over 60, clamped to 2..7 |
| WorldGen.StepFits | src/PlayingState.cpp:353 | every step offset stays within the platform less its 20 px margins |
| WorldGen.Line | src/PlayingState.cpp:360-365 | n coins evenly spaced at the top height |
| WorldGen.Zigzag | src/PlayingState.cpp:366-372 | n coins evenly spaced, alternating 18 above and 12 below |
| WorldGen.Cluster | src/PlayingState.cpp:373-382 | n gems around the far end, each shifted by two draws |
| WorldGen.BonusKind | src/PlayingState.cpp:384-390 | the bonus is one of the four power-ups, never a life |
| WorldGen.Pattern | src/PlayingState.cpp:347-394 | nothing on a platform under 120 wide; otherwise at least two draws are used |
| WorldGen.PatternOverPlatform | src/PlayingState.cpp:347-394 | every pickup of a pattern lies over the platform and above its top |
| WorldGen.PatternContents | src/PlayingState.cpp:347-394 | a row of coins or a cluster of up to three gems, then at most one power-up, and never a life |
| WorldGen.Spawn | src/PlayingState.cpp:356-358 | one pickup per place, in order |
| WorldGen.MaybeMushroom | src/PlayingState.cpp:630-675 | either nothing is added or one mushroom that overlaps no earlier decoration; nothing without its texture |
| WorldGen.CactusRoll | src/PlayingState.cpp:623-629 | with the texture and a roll above 0.6, one cactus request standing on the ground within the piece |
| WorldGen.GroundTurn | src/PlayingState.cpp:616-678 | one ground piece 420..800 wide is added at the frontier, which moves to its end |
| WorldGen.GroundTurnAppends | src/PlayingState.cpp:623-675 | decorations and cactus requests are only appended, at most two and one, and mushrooms stay clear |
| WorldGen.GroundTurnLays | src/PlayingState.cpp:677-678 | the added piece is ground from the old frontier to the new one |
| WorldGen.GroundUntilReaches | src/PlayingState.cpp:615 | the ground reaches the limit and overshoots it by less than one piece |
| WorldGen.GroundUntilLaysChain | src/PlayingState.cpp:615-679 | the pieces added form one contiguous chain from the old frontier to the new one |
| WorldGen.GroundUntilKeepsClear | src/PlayingState.cpp:615-679 | decorations and requests are only appended and mushrooms stay clear |
| WorldGen.CactiOnlyInTheOpen | src/PlayingState.cpp:680-704 | cacti are only appended, harmful, and never below a raised platform |
| WorldGen.EnsureGroundMeetsLookahead | src/PlayingState.cpp:612-705 | the ground reaches the lookahead as one chain after the old platforms, and earlier decorations stay |
| WorldGen.PlatformTurn | src/PlayingState.cpp:709-753 | one platform after a gap, 300..520 high and 32 thick, ends at the new frontier; at most a spring is added and pickups are only appended |
| WorldGen.PlatformsMeetLookahead | src/PlayingState.cpp:709 | the platforms reach the limit and overshoot it by less than one gap and platform |
| WorldGen.PlatformsOnlyAppend | src/PlayingState.cpp:707-755 | platforms and pickups are only appended |
| WorldGen.PlatformsAddOnlySprings | src/PlayingState.cpp:735-748 | the only decorations added are springs, and mushrooms stay clear |
| WorldGen.CleanupKeepsLivePlatforms | src/PlayingState.cpp:757-764 | exactly the active platforms not wholly left of the cutoff are kept |
| Contacts.Landing | src/PlayingState.cpp:414-419 | the player is snapped onto the platform top, keeping x, score and a valid body, and the platform applies its type effect |
| Contacts.Bump | src/PlayingState.cpp:429-442 | the player is put below the platform moving down at 200 and loses a life as a ceiling hit does, dying on the last one |
| Contacts.PlatformContact | src/PlayingState.cpp:400-443 | an inactive platform changes nothing; grounded exactly when it already was or the player lands; a platform at most starts breaking |
| Contacts.PlatformPassBounds | src/PlayingState.cpp:400-444 | the platform loop keeps x and score, never adds lives, never ungrounds, and at most starts platforms breaking |
| Contacts.BounceRevives | src/Player.cpp:412-438 | a bouncy platform puts even a dead player back to Jumping |
| Contacts.SafetyNet | src/PlayingState.cpp:446-457 | an ungrounded player whose bottom is within 4 above to 20 below y 600 is snapped onto the ground and grounded; otherwise nothing changes |
| Contacts.WithPopup | src/PlayingState.cpp:829-842 | a popup is added only with a font |
| Contacts.PickupContact | src/PlayingState.cpp:467-502 | only a live pickup that is touched is collected; lives and shake stay, combo and score never fall |
| Contacts.PickupPassBounds | src/PlayingState.cpp:467-503 | after the pickup loop every touched pickup is collected, lives and shake are unchanged and the score has not fallen |
| Contacts.EnemyContact | src/PlayingState.cpp:505-531 | a stomp deactivates the enemy, adds 50 points, bumps the combo, shakes and spends the shield; otherwise the hit costs a life as `Hurt` says |
| Contacts.EnemyPassBounds | src/PlayingState.cpp:505-532 | the enemy loop never adds lives or takes points, and enemies are at most deactivated |
| Contacts.ShotContact | src/PlayingState.cpp:534-552 | a touched live shot goes; the shield absorbs it, otherwise it costs a life as `Hurt` says |
| Contacts.ShotPassBounds | src/PlayingState.cpp:534-553 | every touched shot is gone, no lives are added and the score stays |
| Contacts.DecorContact | src/PlayingState.cpp:556-593 | red mushrooms and springs do nothing, a brown mushroom takes the `Penalty`, a cactus costs a life as `Hurt` says |
| Contacts.DecorPassBounds | src/PlayingState.cpp:556-594 | decorations never add lives or points |
| Contacts.Collide | src/PlayingState.cpp:396-594 | every collection keeps its length |
| Contacts.CollideBounds | src/PlayingState.cpp:396-594 | the whole check keeps x, never adds lives, and at most starts platforms breaking and deactivates enemies and shots |
| Collisions.LandAll | src/PlayingState.cpp:400-444 | the platform loop computes `PlatformPass` |
| Collisions.CollectAll | src/PlayingState.cpp:467-503 | the pickup loop computes `PickupPass` |
| Collisions.FightAll | src/PlayingState.cpp:505-532 | the enemy loop computes `EnemyPass` |
| Collisions.DodgeAll | src/PlayingState.cpp:534-553 | the shot loop computes `ShotPass` |
| Collisions.TouchAll | src/PlayingState.cpp:556-594 | the decoration loop computes `DecorPass` |
| Collisions.Resolve | src/PlayingState.cpp:396-594 | the whole check computes `Collide` |
| Sequences.Retain | src/PlayingState.cpp:225-231 | the erase-remove idiom keeps, in order, the elements the test accepts |
| Sequences.FilterExact | src/PlayingState.cpp:225-231 | an element survives exactly when it was there and passes the test |
| Sequences.SelectLength | src/PlayingState.cpp:225-231 | as many survive as pass the test |
| Sequences.SelectAll | src/PlayingState.cpp:225-231 | when everything passes nothing is removed |
| Generation.Reground | src/PlayingState.cpp:612-705 | `ensureGround` computes `Regrounded`: the ground reaches the lookahead, platforms and decorations are only appended, and mushrooms stay clear |
| Generation.GroundLoop | src/PlayingState.cpp:615-679 | the while loop computes `GroundUntil` |
| Generation.LayGround | src/PlayingState.cpp:616-678 | one pass of the loop body computes `GroundTurn` |
| Generation.RollCactus | src/PlayingState.cpp:622-629 | the cactus request computes `CactusRoll` |
| Generation.AddMushroom | src/PlayingState.cpp:630-675 | a mushroom is placed as `MaybeMushroom` says |
| Generation.Overlaps | src/PlayingState.cpp:642-648 | the overlap scan is true exactly when the mushroom touches an earlier decoration |
| Generation.PlaceCactusRequests | src/PlayingState.cpp:680-704 | the cactus pass computes `PlaceCacti` |
| Generation.Sheltered | src/PlayingState.cpp:689-700 | the platform scan is true exactly when some platform is above the cactus |
| Generation.PlatformLoop | src/PlayingState.cpp:707-755 | `ensurePlatforms` computes `PlatformsUntil`: the lookahead is met and everything is only appended |
| Generation.LayPlatform | src/PlayingState.cpp:710-753 | one pass of the loop body computes `PlatformTurn` |
| Generation.DrawPlan | src/PlayingState.cpp:710-724 | the draws compute `PlanPlatform` |
| Generation.SpawnCollectiblePattern | src/PlayingState.cpp:347-394 | the pickups added are those of `Pattern`, in order |
| Generation.LayMainRow | src/PlayingState.cpp:360-382 | the line, zigzag or cluster of `MainRow` |
| Generation.LayRow | src/PlayingState.cpp:362-371 | one pickup per place |
| Generation.LayCluster | src/PlayingState.cpp:375-381 | the gems of `Cluster`, two draws each |
| Generation.SpawnSnoc | src/PlayingState.cpp:356-358 | spawning one more place appends its pickup |
| Frame.NewCloud | src/PlayingState.cpp:103-112 | scale 0.6..1, x 0..1600, y 60..220, speed 20..40 |
| Frame.Drift | src/PlayingState.cpp:202-209 | a cloud drifts left at its speed; once 300 px left of the camera it reappears 1500 px right of it at a drawn height |
| Frame.CloudsStayInView | src/PlayingState.cpp:202-209 | after the drift no cloud is left of the recycling line, speeds stay, and at most one draw per cloud is used |
| Frame.Chase | src/PlayingState.cpp:186-188 | the enemy is aimed at the player and updated; an inactive one only takes the target |
| Frame.VolleyFliesLeft | src/PlayingState.cpp:189-198 | every shot fired comes from an enemy that wanted to shoot and flies left at 420; none without one |
| Frame.Pull | src/PlayingState.cpp:211-219 | magnet pull and update keep the pickup's kind, size and whether it is live |
| Frame.PruneKeepsTheLive | src/PlayingState.cpp:225-231 | exactly the active enemies and the live pickups survive |
| Frame.SetUpClouds | src/PlayingState.cpp:100-113 | five clouds of four draws each with the cloud texture, none without |
| Frame.TickPlatforms | src/PlayingState.cpp:182-184 | every platform takes `Tick` |
| Frame.ChaseAll | src/PlayingState.cpp:186-199 | every enemy takes `Chase`, and the shots are the `Volley` of the updated enemies |
| Frame.DriftClouds | src/PlayingState.cpp:202-209 | the loop computes `DriftAll` |
| Frame.PullAll | src/PlayingState.cpp:211-219 | every pickup takes `Pull` |
| Frame.FlyAll | src/PlayingState.cpp:801-809 | every shot takes `Fly` |
| Frame.Aged | src/PlayingState.cpp:817-823 | every popup takes `Age` |
| Frame.AgePopups | src/PlayingState.cpp:816-827 | the popups are aged and those whose lifetime ran out are removed |
| Frame.PopupsExpire | src/PlayingState.cpp:824-826 | a popup survives exactly when it is an aged one with lifetime left |
| Playing.OpeningWorld | src/PlayingState.cpp:97-98 | the first ground and platforms reach their lookaheads and no mushroom overlaps |
| Playing.PlayingState.constructor | src/PlayingState.cpp:23-114 | the invariant and the lookaheads hold, the player is at its base speed, a fresh run with the saved high score, five clouds with the cloud texture |
| Playing.PlayingState.HandleInput | src/PlayingState.cpp:118-133 | P or Escape goes to `PauseKey` and leaves the player; other keys reach the player only while not paused |
| Playing.PlayingState.EnsureGround | src/PlayingState.cpp:612-705 | the new ground, decorations, frontier and cursor are `Regrounded` of the old ones |
| Playing.PlayingState.EnsurePlatforms | src/PlayingState.cpp:707-755 | the new platforms, decorations, pickups, frontier and cursor are `PlatformsUntil` of the old ones |
| Playing.PlayingState.CleanupOldEntities | src/PlayingState.cpp:757-771 | platforms keep `KeptPlatform` of the cutoff 900 px behind the player; shots keep the active ones |
| Playing.PlayingState.UpdateDifficulty | src/PlayingState.cpp:794-799 | only the player's run speed changes, and the two gaps follow the difficulty |
| Playing.PlayingState.UpdatePowerUps | src/PlayingState.cpp:773-792 | the powers become `Decay` of the old ones |
| Playing.PlayingState.UpdateCamera | src/PlayingState.cpp:596-610 | the camera follows as `Follow` and `CameraAt` say and the shake takes `ShakeStep` |
| Playing.PlayingState.SpawnEnemy | src/PlayingState.cpp:320-345 | nothing with an enemy already present, otherwise the enemy of `RunRules.SpawnEnemy` at the player's effective run speed `GetRunSpeed()` is appended |
| Playing.PlayingState.EnemyGate | src/PlayingState.cpp:157-160 | every 70 m an enemy is spawned, at the player's effective run speed, and the mark moves on |
| Playing.PlayingState.GemGate | src/PlayingState.cpp:163-168 | every 50 m a golden carrot is appended ahead and the mark moves on |
| Playing.PlayingState.TreatGate | src/PlayingState.cpp:171-180 | every 30 m two hearts are appended ahead and the mark moves on |
| Playing.PlayingState.UpdatePlatforms | src/PlayingState.cpp:182-184 | every platform takes `Tick` |
| Playing.PlayingState.UpdateEnemies | src/PlayingState.cpp:186-199 | every enemy takes `Chase` and their shots are appended |
| Playing.PlayingState.UpdateClouds | src/PlayingState.cpp:202-209 | clouds and cursor become `DriftAll` of the old ones |
| Playing.PlayingState.UpdateCollectibles | src/PlayingState.cpp:211-219 | every pickup takes `Pull` |
| Playing.PlayingState.HandleProjectiles | src/PlayingState.cpp:801-809 | every shot takes `Fly` |
| Playing.PlayingState.UpdateScorePopups | src/PlayingState.cpp:816-827 | the popups are aged and the expired ones removed |
| Playing.PlayingState.CheckCollisions | src/PlayingState.cpp:396-594 | player, lives, powers, combo, shake, popups and all four lists become `Collide` of the old ones; the HUD's lives are updated only when lives changed |
| Playing.PlayingState.PruneInactive | src/PlayingState.cpp:225-231 | inactive enemies and collected pickups are removed |
| Playing.PlayingState.Regenerate | src/PlayingState.cpp:146-147 | both lookaheads are met and the lists are only appended |
| Playing.PlayingState.LayGround | src/PlayingState.cpp:146 | the ground lookahead is met and the lists are only appended |
| Playing.PlayingState.RaisePlatforms | src/PlayingState.cpp:147 | the platform lookahead is met and the lists are only appended |
| Playing.PlayingState.Move | src/PlayingState.cpp:138-144 | the clock gains dt and the distance is `Travelled` |
| Playing.PlayingState.Tidy | src/PlayingState.cpp:148-152 | the invariant holds and the player does not move |
| Playing.PlayingState.Tighten | src/PlayingState.cpp:148-150 | the invariant holds and the player does not move |
| Playing.PlayingState.Spawn | src/PlayingState.cpp:157-180 | the invariant holds |
| Playing.PlayingState.Animate | src/PlayingState.cpp:182-222 | the invariant holds |
| Playing.PlayingState.AnimateWorld | src/PlayingState.cpp:182-209 | the invariant holds |
| Playing.PlayingState.AnimateItems | src/PlayingState.cpp:211-222 | the invariant holds |
| Playing.PlayingState.Contact | src/PlayingState.cpp:223 | the invariant holds and the player's x stays |
| Playing.PlayingState.Prune | src/PlayingState.cpp:225-231 | only active enemies and live pickups remain |
| Playing.PlayingState.Conclude | src/PlayingState.cpp:233-253 | on death the high score is raised to the score and the game is asked for the game-over screen; otherwise the HUD is refreshed with the run's values |
| Playing.PlayingState.Advance | src/PlayingState.cpp:138-152 | time and distance move on and both lookaheads hold |
| Playing.PlayingState.Populate | src/PlayingState.cpp:157-222 | the invariant holds |
| Playing.PlayingState.Finish | src/PlayingState.cpp:223-253 | only live entities remain, and the death or HUD outcome of `Conclude` |
| Playing.PlayingState.Step | src/PlayingState.cpp:138-253 | an unpaused frame: time gains dt, distance never falls, lookaheads met, only live entities remain, and the death or HUD outcome |
| Playing.PlayingState.Update | src/PlayingState.cpp:135-254 | a paused frame changes nothing; otherwise the outcome of `Step` |

## Left out

- Drawing is not modelled: `render`, the background, the pause overlay, sprite colours, the popup fade and the break fade.
- Sounds are not modelled, and neither is the music `Game` leaves commented out.
- The menu, pause and game-over screens are only the kinds of state on the stack. Only the pause screen's resume key is modelled, because it pairs with the playing state's pause key. `GameOver` carries only its screen kind, not the score, high score and distance passed to it.
- The high-score file: `loadHighScore` becomes the constructor parameter `savedHighScore`, and `saveHighScore` is not modelled, because both are file I/O.
- `Game::run`, the window and the frame clock are not modelled. They are I/O; `HandleEvents` and `Update` take the events and the frame time as parameters.
- `ResourceManager` is not part of this model beyond texture presence and size, and whether the font loaded.
- Entities held by `unique_ptr` are values in sequences, so pointer identity and aliasing are not modelled. Pointer comparison of textures becomes a decoration kind.
- `float` arithmetic and its rounding are not modelled: reals are exact.
- HudRules.Tenths: an exact tie rounds up, while the stream rounds the float's binary value and sends exact ties to even.
- Players.Player.UpdateAnimation: `runAnimTime` is a function-local static in the source, shared by every `Player` and kept across runs; the model keeps it as a field of the player that starts at 0.
- Players.Player.UpdateAnimation: the sprite's horizontal flip is not modelled, because `facingRight_` is never false.
- `std::sin` and `std::sqrt` are parameters, so only their range and the square-root equation are known.
- Fields the source sets but never reads are left out, for example `scoreMultiplier_`, `difficultyTimer_` and `enemySpawnTimer_`.
- Playing.PlayingState.CheckCollisions: the player's setters are applied as one assignment of the final body that `Collide` computes, not one call at a time.
- Playing.PlayingState.constructor: states the invariant, the lookaheads, the player's speed and the start fields, not the exact lists generated.
- Playing.PlayingState.Update: states the invariant and the frame's outcome, not the whole new state; that is composed from the stage contracts listed above.
- Playing.PlayingState.Step: states the invariant and the outcome, not the whole new state.
- Playing.PlayingState.Advance: states the invariant, time, distance and lookaheads, not the whole new state.
- Playing.PlayingState.Populate: states the invariant only; the gates and loops it calls state the exact results.
- Playing.PlayingState.Finish: states the invariant and outcome; `CheckCollisions`, `PruneInactive` and `Conclude` state the exact results.
- Playing.PlayingState.Move: states time, distance and the invariant, not the player's new body, which `Players.Player.Update` states.
- Playing.PlayingState.Regenerate: states the lookaheads and the append-only lists; `EnsureGround` and `EnsurePlatforms` state the exact results.
- Playing.PlayingState.LayGround: states the lookahead and the append-only lists, as `Regenerate` does.
- Playing.PlayingState.RaisePlatforms: states the lookahead and the append-only lists, as `Regenerate` does.
- Playing.PlayingState.Tidy: states the invariant only; `CleanupOldEntities`, `UpdatePowerUps` and `UpdateCamera` state the exact results.
- Playing.PlayingState.Tighten: states the invariant only, as `Tidy` does.
- Playing.PlayingState.Spawn: states the invariant only; the three gates state the exact results.
- Playing.PlayingState.Animate: states the invariant only; the update loops state the exact results.
- Playing.PlayingState.AnimateWorld: states the invariant only, as `Animate` does.
- Playing.PlayingState.AnimateItems: states the invariant only, as `Animate` does.
- Playing.PlayingState.Contact: states the invariant and the player's x; `CheckCollisions` states the exact result.
- Playing.PlayingState.Prune: states only which entities remain; `PruneInactive` states the exact result.
