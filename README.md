# Platformer simulation core in Dafny

This is a model of the per-tick simulation of a small side-scrolling platformer, `main.py`. It covers:

- the hero's movement and collision resolution against platforms;
- the enemies' patrol and chase behaviour;
- coin animation and pickup;
- enemy contact damage;
- the camera clamp;
- the session state machine (MENU, PLAYING, GAME_OVER, VICTORY) driven by `update()`, `on_key_down` and `on_mouse_down`.

The model has two layers:

- **Pure specification.** `WorldModel`, `HeroModel`, `EnemyModel`, `CoinModel` and `GameRules` define value types (`HeroState`, `EnemyState`, `CoinState`, `GameView`) and a pure step function for each operation. The properties of the game are proved as lemmas about these functions.
- **Imperative objects.** These mirror the program's objects, whose fields are updated in place:
  - `HeroModel.Hero`, `EnemyModel.Enemy` and `CoinModel.Coin`;
  - `GameSession.Session`, which holds the module globals of `main.py`: the hero, the enemy and coin lists, the platforms, score, level, game state, camera and audio flags.

  Each method is proved against the pure layer. For an object, the new `State()` is the step function applied to the old one. For the session, the new abstract view `Abs()` is `TickSpec`, `KeySpec` or `ClickSpec` of the old one. The session also keeps the invariant `Valid()`: the enemy and coin lists hold distinct objects that match the view, and `Consistent` holds.

Numbers are exact reals: gravity is 0.8, and the chase speed is 1.5 times the enemy speed, i.e. 3. The keyboard is passed to each tick as a `Keys` record rather than read from a global. A menu click arrives already matched to one of its buttons. The `exit()` calls become a returned `quit` flag.

Quirks of the code that the model keeps, as written:

- **Hero world clamp.** The hero's world clamp (main.py:88-91) runs before ground and platform resolution, not after it. A side push from a platform can therefore move the hero, so the world bound is proved for platforms that keep one hero width from the world's edges (`HeroStepStaysInWorld`). The eight platforms of `init_game` satisfy this.
- **No enemy world clamp.** Enemies are not clamped to the world at all (`EnemyStepUnclamped`).
- **No health floor.** Contact damage has no floor at 0: health goes negative (`ContactsDamage`).
- **Enemy grounded flag.** The flag set by an enemy's ground snap is overwritten by the platform loop. A grounded enemy is always at rest with its bottom level with some platform's top, never merely on the ground line (`EnemyStepGroundedOnPlatform`, `EnemyNeverGroundedWithoutPlatforms`).
- **Jump input.** The jump reads a held key, not a key edge. It fires whenever space is held while the hero is grounded at the start of the tick.
- **Attack timer.** The timer is set and decremented but never gates anything. The chase decision is `is_attacking and attack_timer > 0` right after the timer was reset, so proximity alone decides (`ChaseIffInRange`).

## Model

| member | source | states |
|---|---|---|
| WorldModel.OverlapsIffSharedInterior | main.py:567-570 | The strict AABB test holds exactly when two boxes of positive size share an interior point (both directions). |
| WorldModel.OverlapsSymmetric | main.py:578-581 | The overlap test does not depend on the order of the two boxes. |
| WorldModel.CameraFor | main.py:557-562 | The camera lies in [0, WORLD_WIDTH - WIDTH]. It is hero.x - WIDTH//2 inside that range, 0 below it and the maximum above it. |
| WorldModel.CameraIsNearestInRange | main.py:557-562 | The clamped camera is the point of the allowed range closest to the centred offset. |
| WorldModel.CameraMonotone | main.py:557-562 | The camera never moves left when the hero is further right. |
| HeroModel.ReadInput | main.py:59-70 | Horizontal velocity is exactly -5, +5 or 0, and left wins over right. Facing changes only with a key held. is_running holds exactly when the velocity is nonzero. Nothing else changes. |
| HeroModel.TryJump | main.py:72-78 | The hero changes only if space is held while grounded. Then vel_y is -15, the hero is airborne and jumping. |
| HeroModel.ClampToWorld | main.py:87-91 | The result is inside [0, WORLD_WIDTH - 32]: x below 0 becomes 0, x above WORLD_WIDTH - 32 becomes WORLD_WIDTH - 32, a hero already inside is untouched, and only x can change. |
| HeroModel.SnapToGround | main.py:93-100 | At or below HEIGHT - 100 the hero is placed on the ground line, grounded, not jumping, with vel_y 0. Above it, only the grounded flag is cleared. |
| HeroModel.ResolvePlatform | main.py:104-123 | Exactly the first matching branch of landing, ceiling, right side or left side fires. Each branch's placement is stated, and the hero no longer overlaps that platform afterwards. |
| HeroModel.ResolvePlatforms | main.py:102-123 | Platform resolution keeps vel_x, facing and health, and keeps "grounded implies vel_y = 0". vel_y is kept or set to 0, and a hero with vel_y 0 keeps its height and grounded flag. With side-safe platforms it keeps the hero in the world. |
| HeroModel.Animate | main.py:125-129 | The animation timer stays below 8, and the frame stays below 4. |
| HeroModel.HeroStepControls | main.py:55-129 | The input mapping survives the whole tick, and health is untouched by it. |
| HeroModel.HeroStepStaysInWorld | main.py:87-123 | With side-safe platforms, the hero ends every tick inside the world. |
| HeroModel.HeroStepGroundedAtRest | main.py:93-123 | A hero grounded at the end of a tick has vel_y 0. |
| HeroModel.HeroStepVertical | main.py:72-123 | vel_y ends the tick either as the launch velocity (-15 on a jump) or the old vel_y, plus 0.8, or as 0. |
| HeroModel.ResolveKeepsVelY | main.py:103-123 | When no platform of the loop lands the hero or stops it at a ceiling, the loop keeps vel_y. |
| HeroModel.HeroStepFreeFall | main.py:72-123 | Gravity is undone only by the ground or a platform: when the new position is above the ground line and no platform lands the hero or stops it at a ceiling, vel_y ends exactly as the launched or kept velocity plus 0.8. |
| HeroModel.HeroStepAirborne | main.py:80-100 | With no jump, no platforms and the new position above the ground line, the hero gains 0.8 of vel_y, moves down by the new vel_y and is not grounded. |
| HeroModel.ResolvePrefixKeepsSupport | main.py:103-113 | After each platform of the loop in turn, a grounded hero is at rest with its top on the ground line or its bottom level with some platform's top. |
| HeroModel.ResolveKeepsSupport | main.py:103-123 | The whole platform loop keeps that height condition for a grounded hero. |
| HeroModel.HeroStepGroundedIsSupported | main.py:55-129 | A hero grounded at the end of a tick is at rest with its top on the ground line or its bottom level with some platform's top (heights only, no horizontal overlap is claimed). |
| HeroModel.LandingPersists | main.py:103-113 | Once the hero lands on platform i, every later platform of the loop leaves it grounded, at rest, with its bottom level with platform i's top. |
| HeroModel.HeroStepLands | main.py:55-129 | A hero that lands on a platform during the loop ends the tick grounded with vel_y 0 and its bottom level with that platform's top (heights only: a later side push may move it sideways). This is the converse of HeroStepGroundedIsSupported. |
| HeroModel.StandingStill | main.py:55-100 | A hero at rest on the ground, with no jump and no platforms, stays grounded at rest. |
| HeroModel.Hero.constructor | main.py:39-53 | The new hero's state is the spawn state. |
| HeroModel.Hero.Update | main.py:55-129 | Hero.update changes the fields exactly as HeroStep does. |
| HeroModel.Hero.Move | main.py:59-100 | Input, jump, gravity, integration, world clamp and ground snap, as Settle describes. |
| HeroModel.Hero.Steer | main.py:59-78 | The fields change as ReadInput followed by TryJump describe. |
| HeroModel.Hero.Fall | main.py:80-100 | The fields change as Integrate, then ClampToWorld, then SnapToGround describe. |
| HeroModel.Hero.ResolveCollisions | main.py:102-123 | The in-place platform loop equals ResolvePlatforms. |
| HeroModel.Hero.AdvanceAnimation | main.py:125-129 | The counters change as Animate describes. |
| EnemyModel.NewEnemy | main.py:191-207 | The enemy spawns at (x, y) with the given kind, vel_y 0 and not grounded. Patrol bounds are x -/+ 50, with x strictly between them. vel_x is -2 and health is 30 or 50 by kind. The enemy is not attacking and its timer is 0. |
| EnemyModel.Sense | main.py:210-216 | is_attacking holds exactly when the hero is within 100. In range the timer is reset to 60; otherwise it is kept. |
| EnemyModel.Steer | main.py:218-229 | When chasing, the velocity points at the hero at speed 3 and the timer counts down. When patrolling, the velocity flips exactly at or beyond a patrol bound. |
| EnemyModel.SnapToGround | main.py:238-242 | An enemy at or below the ground line is placed on it, at rest and grounded. An enemy above the line is unchanged. Either way it ends at or above the line, and only y, vel_y and the flag can change. |
| EnemyModel.LandOn | main.py:247-255 | An enemy that overlaps the platform while falling from above lands: its bottom is level with the platform's top, vel_y is 0, it is grounded and no longer overlaps. Any other enemy is unchanged (both directions). x, vel_x and the enemy's identity are always kept. |
| EnemyModel.LandOnAll | main.py:244-255 | The platform loop keeps x, vel_x, kind, health and patrol bounds, and either keeps vel_y or sets it to 0. An enemy that is not falling passes through unchanged. |
| EnemyModel.Animate | main.py:257-261 | The animation timer stays below 12, and the frame stays below 3. |
| EnemyModel.ChaseIffInRange | main.py:210-218 | The chase branch is taken exactly when the hero is within range (both directions). The timer never gates it. |
| EnemyModel.EnemyStepChase | main.py:209-261 | In range, the enemy ends the tick attacking, heading for the hero at speed 3, with the timer at 59. |
| EnemyModel.EnemyStepPatrol | main.py:209-261 | Out of range, the enemy is not attacking and its timer is unchanged. Its velocity flips exactly at or beyond a bound, and its speed is kept. |
| EnemyModel.EnemyStepKeepsIdentity | main.py:209-261 | Kind, health and patrol bounds never change in a tick. |
| EnemyModel.EnemyStepUnclamped | main.py:231-236 | x moves by exactly the new velocity: there is no world clamp. |
| EnemyModel.EnemyStepVertical | main.py:231-255 | vel_y ends the tick either as the old vel_y plus 0.8, or as 0. |
| EnemyModel.LandKeepsEnemy | main.py:247-255 | When no platform of the loop lands the enemy, the loop leaves it exactly as it was. |
| EnemyModel.EnemyStepFreeFall | main.py:231-255 | Gravity is undone only by the ground or a landing: when the new position is above the ground line and no platform lands the enemy, vel_y ends exactly as the old vel_y plus 0.8. |
| EnemyModel.EnemyStepAirborne | main.py:231-255 | With no platforms and the new position above the ground line, the enemy gains 0.8 of vel_y, moves down by the new vel_y and is not grounded. |
| EnemyModel.LandPrefixGrounded | main.py:244-255 | After any prefix of the platform loop, a grounded enemy is at rest with its bottom level with some platform's top. |
| EnemyModel.EnemyStepGroundedOnPlatform | main.py:238-255 | An enemy grounded at the end of a tick is at rest with its bottom level with some platform's top (heights only). The ground snap's flag never survives. |
| EnemyModel.LandingPersists | main.py:247-255 | Once an enemy lands on platform i, every later platform of the loop leaves it grounded, at rest, with its bottom level with platform i's top. |
| EnemyModel.EnemyStepLands | main.py:209-261 | An enemy that falls onto a platform during the loop ends the tick grounded with vel_y 0 and its bottom level with that platform's top. This is the converse of EnemyStepGroundedOnPlatform. |
| EnemyModel.EnemyNeverGroundedWithoutPlatforms | main.py:238-255 | With no platforms, an enemy is never grounded after a tick, even on the ground line. |
| EnemyModel.Enemy.constructor | main.py:191-207 | The new enemy's state is NewEnemy. |
| EnemyModel.Enemy.Update | main.py:209-261 | Enemy.update changes the fields exactly as EnemyStep does. |
| EnemyModel.Enemy.Decide | main.py:210-229 | The fields change as Sense followed by Steer describe. |
| EnemyModel.Enemy.Drop | main.py:231-242 | The fields change as Fall followed by SnapToGround describe. |
| EnemyModel.Enemy.Land | main.py:244-255 | The in-place flag reset and platform loop equal LandOnPlatforms. |
| EnemyModel.Enemy.AdvanceAnimation | main.py:257-261 | The counters change as Animate describes. |
| CoinModel.AnimateCoin | main.py:335-340 | A collected coin is unchanged. A coin in play keeps its position and flag, with the timer below 10 and the frame below 4. |
| CoinModel.Coin.constructor | main.py:326-333 | A new coin is in play at its position, with counters at 0. |
| CoinModel.Coin.Update | main.py:335-340 | Coin.update changes the fields exactly as AnimateCoin does. |
| GameRules.CollectCoins | main.py:564-574 | The list keeps its length, and each coin changes at most in its flag. A flag is set exactly when the coin was in play and overlapped the hero. A set flag stays set. |
| GameRules.MoveAllKeeps | main.py:551-555 | Moving the hero, enemies and coins leaves health, score, state, camera, platforms, the list lengths and the collected count unchanged, and with side-safe platforms keeps the hero in the world. |
| GameRules.CollectCount | main.py:564-574 | The collected count grows by exactly the number of coins newly picked up. |
| GameRules.NothingPickable | main.py:566-570 | When no coin in play overlaps the hero, nothing is picked up. |
| GameRules.CollectIdempotent | main.py:564-574 | Collecting twice from the same hero position equals collecting once, and the second pass scores nothing. |
| GameRules.NoneCollected | main.py:390-397 | Coins that are all in play have a collected count of 0. |
| GameRules.AnimationKeepsCounts | main.py:554-555 | Coin animation changes neither which coins can be picked up nor the collected count. |
| GameRules.ContactsDamage | main.py:576-586 | The contact loop takes 20 health per overlapping enemy, with no floor. The state becomes GAME_OVER exactly when some enemy hit and health ended at or below 0. |
| GameRules.NotPlayingFrozen | main.py:546-549 | Outside PLAYING, update() changes nothing. |
| GameRules.TickOutcome | main.py:546-590 | A playing tick gives the hero's step, damage from the moved enemies, 10 points per coin newly picked up and the clamped camera. The end state is VICTORY at x >= 1950, even over GAME_OVER. |
| GameRules.TickMonotone | main.py:564-574 | Score never drops in a tick, and a collected coin stays collected. |
| GameRules.TickKeepsEnemyIdentity | main.py:552-553 | Each enemy keeps its patrol bounds, kind and health across a tick. |
| GameRules.InitGameConsistent | main.py:357-400 | A world fresh from init_game, set to PLAYING, satisfies every session invariant. |
| GameRules.InitialConsistent | main.py:16-36 | The globals at start-up satisfy every session invariant. |
| GameRules.TickKeepsConsistent | main.py:546-590 | update() keeps every session invariant. The invariants are: no hero only on the menu; the hero in the world and at rest when grounded; side-safe platforms; patrol width 100; score = 10 x collected coins; the camera in range; level 1. |
| GameRules.KeyTransitions | main.py:620-632 | ESC in PLAYING goes to the menu with nothing reset. R after GAME_OVER or VICTORY restarts the level's hero, enemies, platforms and uncollected coins, with score 0 and full health, keeping camera and audio flags. Every other key changes nothing. |
| GameRules.KeyKeepsConsistent | main.py:620-632 | on_key_down keeps every session invariant. |
| GameRules.ClickTransitions | main.py:634-671 | Only the menu reacts to clicks. Start rebuilds the level's hero, enemies, platforms and uncollected coins, with score 0, in PLAYING, and the music and sounds buttons flip their flag. |
| GameRules.ClickKeepsConsistent | main.py:634-671 | on_mouse_down keeps every session invariant. |
| GameSession.Session.constructor | main.py:16-36 | The session starts on the menu with no hero and empty lists, and satisfies the invariant. |
| GameSession.Session.InitGame | main.py:357-400 | The hero is in its spawn state; the platforms, enemies and coins are the level's; score is 0 and level 1. Each list holds distinct objects matching the view. |
| GameSession.Session.SpawnEnemies | main.py:361-387 | The enemy list is cleared, then filled with the eight enemies of the level in order. |
| GameSession.Session.AddEnemy | main.py:380-387 | One new enemy is appended at the ground row. |
| GameSession.Session.PlaceCoins | main.py:364-397 | The coin list is cleared, then filled with the eight coins of the level in order. |
| GameSession.Session.AddCoin | main.py:390-397 | One new coin is appended. |
| GameSession.Session.Tick | main.py:546-590 | update() changes the session exactly as TickSpec does, and keeps the invariant. |
| GameSession.Session.Play | main.py:550-590 | A playing tick changes the session as PlayTick does. |
| GameSession.Session.MoveAll | main.py:551-555 | The hero, then every enemy and every coin, is updated as GameRules.MoveAll describes. |
| GameSession.Session.Resolve | main.py:557-590 | Camera, pickups, contact and victory happen as GameRules.Resolve describes. |
| GameSession.Session.Gather | main.py:557-574 | The camera follows the hero. The coins are collected and the score grows by 10 per new coin. |
| GameSession.Session.Contact | main.py:576-590 | Contact damage, then the victory check. |
| GameSession.Session.MoveHero | main.py:551 | Only the hero changes, by HeroStep. |
| GameSession.Session.UpdateEnemies | main.py:552-553 | Every enemy takes its step toward the already moved hero. Nothing else changes. |
| GameSession.Session.UpdateCoins | main.py:554-555 | Every coin animates. Nothing else changes. |
| GameSession.Session.FollowHero | main.py:557-562 | Only the camera changes, to the clamp of the hero's x. |
| GameSession.Session.PickUpCoins | main.py:564-574 | The coins become CollectCoins, and the score grows by 10 per new coin. |
| GameSession.Session.CollectEach | main.py:565-574 | The in-place loop leaves each coin as CollectCoins says, and adds 10 per coin newly picked up. |
| GameSession.Session.TryCollect | main.py:566-572 | A coin in play that overlaps the hero is flagged and scores 10. Otherwise nothing changes. |
| GameSession.Session.TakeHits | main.py:577-586 | The in-place contact loop leaves health and state as ApplyContacts says. |
| GameSession.Session.Hit | main.py:578-586 | One overlapping enemy takes 20 health, and GAME_OVER follows at or below 0. A non-overlapping enemy changes nothing. |
| GameSession.Session.CheckVictory | main.py:588-590 | The state becomes VICTORY exactly when hero.x >= WORLD_WIDTH - 50, and is unchanged otherwise. |
| GameSession.Session.Restart | main.py:630-632 | init_game followed by PLAYING: a fresh world, with camera and audio flags kept. |
| GameSession.Session.OnKeyDown | main.py:620-632 | on_key_down changes the session as KeySpec does. quit holds exactly for ESC on the menu. The invariant is kept. |
| GameSession.Session.OnMouseDown | main.py:634-671 | on_mouse_down changes the session as ClickSpec does. quit holds exactly for the exit button on the menu. The invariant is kept. |

## Left out

- Drawing (`draw`, every `draw` method, the HUD) is not modelled: it is presentation only.
- Audio is not modelled: music, the jump, coin and hit sounds, and mixer set-up are external. The two audio flags are modelled as state that is toggled, but their effect is not.
- `exit()` is not modelled as a process exit. It appears as the `quit` result of `OnKeyDown` and `OnMouseDown`, and the session is left unchanged.
- The keyboard global is not read. It is passed to each tick as `Keys` (left, right, space).
- Pixel hit-testing of the menu buttons (main.py:638-671) is not modelled: it is UI layout. A click arrives as a `MenuClick`, one of the four buttons or none.
- Floating-point rounding is not modelled: positions and velocities are exact reals.
- The `obstacles` list is not modelled: it is cleared by `init_game` but never filled or read.
- `level` is never incremented anywhere in the program. The model keeps it at 1 and proves that.
- The event loop (`pgzrun.go()`) is not modelled. Neither is the order in which the framework calls `update`, `on_key_down` and `on_mouse_down`: each is a separate method.
- GameSession.Session.InitGame: the enemy and coin lists are cleared in place in the program but are fresh sequences here. Another alias to the same Python list would see the clearing, and no such alias exists in the program.
- EnemyModel.Enemy.Update: takes `hero.x` rather than the hero object, because x is the only field `Enemy.update` reads.
- GameSession.Session.InitGame: does not state `Abs()` as a whole. Its postcondition lists the fields it sets, and `Restart` assembles them into `Initialized(old(Abs()))`.
