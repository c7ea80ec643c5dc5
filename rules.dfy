/**
 * The session as a value: everything update(), init_game(), on_key_down()
 * and on_mouse_down() read or change (main.py:357-400, 546-590, 620-671),
 * the pure functions that specify one call of each, and the facts proved
 * about them. The Session class in GameSession is proved to follow these.
 */
module GameRules {
  import opened WorldModel
  import opened HeroModel
  import opened EnemyModel
  import opened CoinModel

  const CoinReward: int := 10
  const ContactDamage: int := 20
  /** Reaching this x wins: WORLD_WIDTH - 50. */
  const VictoryX: real := WorldWidth - 50.0
  /** The hero's spawn point, (50, HEIGHT - 150). */
  const SpawnX: real := 50.0
  const SpawnY: real := ViewHeight - 150.0

  datatype Option<T> = None | Some(value: T)

  datatype GameState = Menu | Playing | GameOver | Victory

  /** The keys on_key_down tells apart. */
  datatype Key = Escape | KeyR | OtherKey

  /** The menu button a click lands on, or none of them. */
  datatype MenuClick = StartButton | MusicButton | SoundsButton | ExitButton | NoButton

  /** The globals of main.py; hero is None until the first init_game. */
  datatype GameView = GameView(
    hero: Option<HeroState>, enemies: seq<EnemyState>, coins: seq<CoinState>,
    platforms: seq<Platform>, score: int, level: int, state: GameState,
    camera: real, musicEnabled: bool, soundsEnabled: bool)

  /** The globals as main.py starts them, before any init_game. */
  function InitialView(): GameView
  {
    GameView(None, [], [], [], 0, 1, Menu, 0.0, true, true)
  }

  /** The eight platforms of init_game (main.py:370-377). */
  function InitialPlatforms(): seq<Platform>
  {
    [Platform(200.0, ViewHeight - 200.0, 150.0, 20.0),
     Platform(400.0, ViewHeight - 300.0, 150.0, 20.0),
     Platform(600.0, ViewHeight - 250.0, 150.0, 20.0),
     Platform(800.0, ViewHeight - 350.0, 150.0, 20.0),
     Platform(1000.0, ViewHeight - 200.0, 150.0, 20.0),
     Platform(1200.0, ViewHeight - 300.0, 150.0, 20.0),
     Platform(1400.0, ViewHeight - 250.0, 150.0, 20.0),
     Platform(1600.0, ViewHeight - 350.0, 150.0, 20.0)]
  }

  /** The enemy row of init_game (main.py:380-387). */
  const EnemyY: real := ViewHeight - 124.0

  function InitialEnemies(): seq<EnemyState>
  {
    [NewEnemy(300.0, EnemyY, Basic), NewEnemy(500.0, EnemyY, Basic),
     NewEnemy(700.0, EnemyY, Strong), NewEnemy(900.0, EnemyY, Basic),
     NewEnemy(1100.0, EnemyY, Basic), NewEnemy(1300.0, EnemyY, Strong),
     NewEnemy(1500.0, EnemyY, Basic), NewEnemy(1700.0, EnemyY, Basic)]
  }

  /** The coins of init_game (main.py:390-397). */
  function InitialCoins(): seq<CoinState>
  {
    [NewCoin(250.0, ViewHeight - 220.0), NewCoin(450.0, ViewHeight - 320.0),
     NewCoin(650.0, ViewHeight - 270.0), NewCoin(850.0, ViewHeight - 370.0),
     NewCoin(1050.0, ViewHeight - 220.0), NewCoin(1250.0, ViewHeight - 320.0),
     NewCoin(1450.0, ViewHeight - 270.0), NewCoin(1650.0, ViewHeight - 370.0)]
  }

  /** init_game (main.py:357-400): a fresh world; state, camera and audio flags are left alone. */
  function Initialized(w: GameView): GameView
  {
    w.(hero := Some(NewHero(SpawnX, SpawnY)), enemies := InitialEnemies(), coins := InitialCoins(),
       platforms := InitialPlatforms(), score := 0, level := 1)
  }

  /** The enemy loop of update() (main.py:552-553): every enemy sees the updated hero. */
  function StepEnemies(es: seq<EnemyState>, heroX: real, ps: seq<Platform>): seq<EnemyState>
  {
    seq(|es|, i requires 0 <= i < |es| => EnemyStep(es[i], heroX, ps))
  }

  /** The coin animation loop of update() (main.py:554-555). */
  function AnimateCoins(cs: seq<CoinState>): seq<CoinState>
  {
    seq(|cs|, i requires 0 <= i < |cs| => AnimateCoin(cs[i]))
  }

  /** A coin that this hero picks up now: not yet collected, and overlapping. */
  predicate Pickable(h: HeroState, c: CoinState)
  {
    !c.collected && Overlaps(HeroBox(h), CoinBox(c))
  }

  function Collect(h: HeroState, c: CoinState): CoinState
  {
    if Pickable(h, c) then c.(collected := true) else c
  }

  /** The coin collection loop (main.py:565-571): flags only go from false to true. */
  function CollectCoins(h: HeroState, cs: seq<CoinState>): (r: seq<CoinState>)
    ensures |r| == |cs|
    ensures forall i :: 0 <= i < |cs| ==>
      (r[i].collected <==> cs[i].collected || Overlaps(HeroBox(h), CoinBox(cs[i])))
    ensures forall i :: 0 <= i < |cs| ==> r[i] == cs[i].(collected := r[i].collected)
  {
    seq(|cs|, i requires 0 <= i < |cs| => Collect(h, cs[i]))
  }

  /** How many coins this hero picks up now. */
  function NewlyCollected(h: HeroState, cs: seq<CoinState>): nat
  {
    if cs == [] then 0
    else NewlyCollected(h, cs[..|cs| - 1]) + (if Pickable(h, cs[|cs| - 1]) then 1 else 0)
  }

  function CollectedCount(cs: seq<CoinState>): nat
  {
    if cs == [] then 0
    else CollectedCount(cs[..|cs| - 1]) + (if cs[|cs| - 1].collected then 1 else 0)
  }

  /** How many enemies overlap this hero. */
  function Hits(h: HeroState, es: seq<EnemyState>): nat
  {
    if es == [] then 0
    else Hits(h, es[..|es| - 1]) + (if Overlaps(HeroBox(h), EnemyBox(es[|es| - 1])) then 1 else 0)
  }

  datatype Outcome = Outcome(hero: HeroState, state: GameState)

  /**
   * The enemy contact loop (main.py:577-586), enemy by enemy: each
   * overlapping enemy costs 20 health, and a hit that leaves health at or
   * below 0 sets GAME_OVER.
   */
  function ApplyContacts(h: HeroState, st: GameState, es: seq<EnemyState>): Outcome
  {
    if es == [] then Outcome(h, st)
    else Strike(ApplyContacts(h, st, es[..|es| - 1]), es[|es| - 1])
  }

  /** One enemy of the contact loop (main.py:578-586). */
  function Strike(o: Outcome, e: EnemyState): Outcome
  {
    if Overlaps(HeroBox(o.hero), EnemyBox(e)) then
      var hurt := o.hero.(health := o.hero.health - ContactDamage);
      Outcome(hurt, if hurt.health <= 0 then GameOver else o.state)
    else o
  }

  /** The first half of update() (main.py:551-555): everything moves, the enemies toward the moved hero. */
  function MoveAll(w: GameView, keys: Keys): (r: GameView)
    requires w.hero.Some?
    ensures r.hero.Some?
  {
    var h := HeroStep(w.hero.value, keys, w.platforms);
    w.(hero := Some(h), enemies := StepEnemies(w.enemies, h.x, w.platforms), coins := AnimateCoins(w.coins))
  }

  /**
   * What the first half of a tick leaves alone: the hero's health, the
   * score, state, camera and platforms, the number of enemies and coins,
   * and how many coins are collected; and the moved hero stays in the world.
   */
  lemma MoveAllKeeps(w: GameView, keys: Keys)
    requires w.hero.Some?
    ensures var r := MoveAll(w, keys);
      && r.hero.value.health == w.hero.value.health
      && r.score == w.score && r.state == w.state && r.camera == w.camera
      && r.platforms == w.platforms
      && |r.enemies| == |w.enemies| && |r.coins| == |w.coins|
      && CollectedCount(r.coins) == CollectedCount(w.coins)
      && (AllSideSafe(w.platforms) ==> InWorld(r.hero.value))
  {
    HeroStepControls(w.hero.value, keys, w.platforms);
    if AllSideSafe(w.platforms) {
      HeroStepStaysInWorld(w.hero.value, keys, w.platforms);
    }
    AnimationKeepsCounts(w.hero.value, w.coins);
  }

  /**
   * The second half of update() (main.py:557-590), on the moved world: the
   * camera, coin pickup, enemy contact, and the victory check run last.
   */
  function Resolve(w: GameView): GameView
    requires w.hero.Some?
  {
    var h := w.hero.value;
    var hit := ApplyContacts(h, w.state, w.enemies);
    w.(hero := Some(hit.hero), coins := CollectCoins(h, w.coins),
       camera := CameraFor(h.x), score := w.score + CoinReward * NewlyCollected(h, w.coins),
       state := if hit.hero.x >= VictoryX then Victory else hit.state)
  }

  /** The body of update() once the PLAYING check has passed (main.py:550-590). */
  function PlayTick(w: GameView, keys: Keys): GameView
    requires w.hero.Some?
  {
    Resolve(MoveAll(w, keys))
  }

  /** update() (main.py:546-590). */
  function TickSpec(w: GameView, keys: Keys): GameView
  {
    if w.state == Playing && w.hero.Some? then PlayTick(w, keys) else w
  }

  /** on_key_down (main.py:620-632); ESC on the menu exits the process instead (see Quits). */
  function KeySpec(w: GameView, key: Key): GameView
  {
    match w.state
    case Menu => w
    case Playing => if key == Escape then w.(state := Menu) else w
    case GameOver => if key == KeyR then Initialized(w).(state := Playing) else w
    case Victory => if key == KeyR then Initialized(w).(state := Playing) else w
  }

  /** on_key_down calls exit() for ESC on the menu. */
  predicate Quits(w: GameView, key: Key)
  {
    w.state == Menu && key == Escape
  }

  /** on_mouse_down (main.py:634-671), with the button already hit-tested. */
  function ClickSpec(w: GameView, click: MenuClick): GameView
  {
    if w.state != Menu then w
    else match click
      case StartButton => Initialized(w).(state := Playing)
      case MusicButton => w.(musicEnabled := !w.musicEnabled)
      case SoundsButton => w.(soundsEnabled := !w.soundsEnabled)
      case ExitButton => w
      case NoButton => w
  }

  /** on_mouse_down calls exit() for the exit button on the menu. */
  predicate ClickQuits(w: GameView, click: MenuClick)
  {
    w.state == Menu && click == ExitButton
  }

  /** Every enemy's patrol bounds are its spawn x minus and plus 50. */
  predicate PatrolWidths(es: seq<EnemyState>)
  {
    forall i :: 0 <= i < |es| ==> es[i].patrolEnd - es[i].patrolStart == 2.0 * PatrolHalfWidth
  }

  /** What holds of every reachable session. */
  predicate Consistent(w: GameView)
  {
    && (w.hero.None? ==> w.state == Menu)
    && (w.hero.Some? ==> InWorld(w.hero.value) && AtRest(w.hero.value))
    && AllSideSafe(w.platforms)
    && PatrolWidths(w.enemies)
    && w.score == CoinReward * CollectedCount(w.coins)
    && 0.0 <= w.camera <= CameraMax
    && w.level == 1
  }

  // ----- coins -----

  lemma {:induction false} CollectCount(h: HeroState, cs: seq<CoinState>)
    ensures CollectedCount(CollectCoins(h, cs)) == CollectedCount(cs) + NewlyCollected(h, cs)
    decreases |cs|
  {
    if cs != [] {
      var n := |cs| - 1;
      assert CollectCoins(h, cs)[..n] == CollectCoins(h, cs[..n]);
      CollectCount(h, cs[..n]);
    }
  }

  lemma {:induction false} NothingPickable(h: HeroState, cs: seq<CoinState>)
    requires forall i :: 0 <= i < |cs| ==> !Pickable(h, cs[i])
    ensures NewlyCollected(h, cs) == 0
    decreases |cs|
  {
    if cs != [] {
      NothingPickable(h, cs[..|cs| - 1]);
    }
  }

  /** Collecting twice with the same hero changes nothing more and scores nothing more. */
  lemma CollectIdempotent(h: HeroState, cs: seq<CoinState>)
    ensures CollectCoins(h, CollectCoins(h, cs)) == CollectCoins(h, cs)
    ensures NewlyCollected(h, CollectCoins(h, cs)) == 0
  {
    NothingPickable(h, CollectCoins(h, cs));
  }

  lemma {:induction false} NoneCollected(cs: seq<CoinState>)
    requires forall i :: 0 <= i < |cs| ==> !cs[i].collected
    ensures CollectedCount(cs) == 0
    decreases |cs|
  {
    if cs != [] {
      NoneCollected(cs[..|cs| - 1]);
    }
  }

  lemma {:induction false} AnimationKeepsCounts(h: HeroState, cs: seq<CoinState>)
    ensures NewlyCollected(h, AnimateCoins(cs)) == NewlyCollected(h, cs)
    ensures CollectedCount(AnimateCoins(cs)) == CollectedCount(cs)
    decreases |cs|
  {
    if cs != [] {
      var n := |cs| - 1;
      assert AnimateCoins(cs)[..n] == AnimateCoins(cs[..n]);
      AnimationKeepsCounts(h, cs[..n]);
    }
  }

  // ----- enemy contact -----

  /**
   * The contact loop in closed form: health drops by 20 per overlapping
   * enemy, with no floor, and the state becomes GAME_OVER exactly when some
   * enemy hit and health ended at or below 0.
   */
  lemma {:induction false} ContactsDamage(h: HeroState, st: GameState, es: seq<EnemyState>)
    ensures ApplyContacts(h, st, es) ==
      Outcome(h.(health := h.health - ContactDamage * Hits(h, es)),
              if Hits(h, es) > 0 && h.health - ContactDamage * Hits(h, es) <= 0 then GameOver else st)
    decreases |es|
  {
    if es != [] {
      ContactsDamage(h, st, es[..|es| - 1]);
    }
  }

  // ----- one tick -----

  /** Outside PLAYING, update() changes nothing. */
  lemma NotPlayingFrozen(w: GameView, keys: Keys)
    requires w.state != Playing
    ensures TickSpec(w, keys) == w
  {
  }

  /**
   * A playing tick in closed form: the hero's step, 20 damage per touching
   * enemy, 10 points per coin newly picked up, the camera clamp, and the
   * end state, where the victory check, run last, beats GAME_OVER.
   */
  lemma TickOutcome(w: GameView, keys: Keys)
    requires w.state == Playing && w.hero.Some?
    ensures var h := HeroStep(w.hero.value, keys, w.platforms);
      var n := Hits(h, StepEnemies(w.enemies, h.x, w.platforms));
      var r := TickSpec(w, keys);
      && r.hero == Some(h.(health := h.health - ContactDamage * n))
      && r.score == w.score + CoinReward * NewlyCollected(h, w.coins)
      && r.camera == CameraFor(h.x)
      && r.state == (if h.x >= VictoryX then Victory
                     else if n > 0 && h.health - ContactDamage * n <= 0 then GameOver
                     else Playing)
  {
    var h := HeroStep(w.hero.value, keys, w.platforms);
    ContactsDamage(h, w.state, StepEnemies(w.enemies, h.x, w.platforms));
    AnimationKeepsCounts(h, w.coins);
  }

  /** Score never drops during play, and a collected coin stays collected. */
  lemma TickMonotone(w: GameView, keys: Keys)
    ensures var r := TickSpec(w, keys);
      && r.score >= w.score
      && |r.coins| == |w.coins|
      && forall i :: 0 <= i < |w.coins| && w.coins[i].collected ==> r.coins[i].collected
  {
    if w.state == Playing && w.hero.Some? {
      TickOutcome(w, keys);
    }
  }

  /** Every enemy keeps its patrol bounds, kind and health across a tick. */
  lemma TickKeepsEnemyIdentity(w: GameView, keys: Keys)
    ensures var r := TickSpec(w, keys);
      && |r.enemies| == |w.enemies|
      && forall i :: 0 <= i < |w.enemies| ==>
           r.enemies[i].patrolStart == w.enemies[i].patrolStart &&
           r.enemies[i].patrolEnd == w.enemies[i].patrolEnd &&
           r.enemies[i].kind == w.enemies[i].kind &&
           r.enemies[i].health == w.enemies[i].health
  {
    if w.state == Playing && w.hero.Some? {
      var h := HeroStep(w.hero.value, keys, w.platforms);
      forall i | 0 <= i < |w.enemies|
        ensures TickSpec(w, keys).enemies[i].patrolStart == w.enemies[i].patrolStart
        ensures TickSpec(w, keys).enemies[i].patrolEnd == w.enemies[i].patrolEnd
        ensures TickSpec(w, keys).enemies[i].kind == w.enemies[i].kind
        ensures TickSpec(w, keys).enemies[i].health == w.enemies[i].health
      {
        EnemyStepKeepsIdentity(w.enemies[i], h.x, w.platforms);
      }
    }
  }

  lemma InitGameConsistent(w: GameView)
    requires 0.0 <= w.camera <= CameraMax
    ensures Consistent(Initialized(w).(state := Playing))
  {
    NoneCollected(InitialCoins());
  }

  /** The starting globals are consistent. */
  lemma InitialConsistent()
    ensures Consistent(InitialView())
  {
  }

  /** update() keeps every session invariant. */
  lemma TickKeepsConsistent(w: GameView, keys: Keys)
    requires Consistent(w)
    ensures Consistent(TickSpec(w, keys))
  {
    if w.state == Playing && w.hero.Some? {
      var h := HeroStep(w.hero.value, keys, w.platforms);
      var cs := AnimateCoins(w.coins);
      HeroStepStaysInWorld(w.hero.value, keys, w.platforms);
      HeroStepGroundedAtRest(w.hero.value, keys, w.platforms);
      TickOutcome(w, keys);
      TickKeepsEnemyIdentity(w, keys);
      AnimationKeepsCounts(h, w.coins);
      CollectCount(h, cs);
    }
  }

  /**
   * on_key_down: ESC in PLAYING returns to the menu with nothing reset; R
   * after GAME_OVER or VICTORY restarts a fresh world; every other pair
   * changes nothing.
   */
  lemma KeyTransitions(w: GameView, key: Key)
    ensures w.state == Playing && key == Escape ==> KeySpec(w, key) == w.(state := Menu)
    ensures (w.state == GameOver || w.state == Victory) && key == KeyR ==>
      var r := KeySpec(w, key);
      && r.state == Playing && r.score == 0 && r.level == 1
      && r.hero == Some(NewHero(SpawnX, SpawnY)) && r.hero.value.health == MaxHealth
      && r.enemies == InitialEnemies() && r.platforms == InitialPlatforms()
      && |r.coins| == 8 && (forall i :: 0 <= i < |r.coins| ==> !r.coins[i].collected)
      && r.camera == w.camera && r.musicEnabled == w.musicEnabled && r.soundsEnabled == w.soundsEnabled
    ensures (!(w.state == Playing && key == Escape) &&
             !((w.state == GameOver || w.state == Victory) && key == KeyR)) ==> KeySpec(w, key) == w
    ensures Quits(w, key) ==> KeySpec(w, key) == w
  {
  }

  lemma KeyKeepsConsistent(w: GameView, key: Key)
    requires Consistent(w)
    ensures Consistent(KeySpec(w, key))
  {
    if (w.state == GameOver || w.state == Victory) && key == KeyR {
      InitGameConsistent(w);
    }
  }

  /**
   * on_mouse_down: only the menu reacts; Start restarts a fresh world and
   * plays, whatever the old score; the two audio buttons flip their flag.
   */
  lemma ClickTransitions(w: GameView, click: MenuClick)
    ensures w.state != Menu ==> ClickSpec(w, click) == w
    ensures w.state == Menu && click == StartButton ==>
      var r := ClickSpec(w, click);
      && r.state == Playing && r.score == 0 && r.level == 1
      && r.hero == Some(NewHero(SpawnX, SpawnY))
      && r.enemies == InitialEnemies() && r.platforms == InitialPlatforms()
      && |r.coins| == 8 && (forall i :: 0 <= i < |r.coins| ==> !r.coins[i].collected)
    ensures w.state == Menu && click == MusicButton ==>
      ClickSpec(w, click) == w.(musicEnabled := !w.musicEnabled)
    ensures w.state == Menu && click == SoundsButton ==>
      ClickSpec(w, click) == w.(soundsEnabled := !w.soundsEnabled)
  {
  }

  lemma ClickKeepsConsistent(w: GameView, click: MenuClick)
    requires Consistent(w)
    ensures Consistent(ClickSpec(w, click))
  {
    if w.state == Menu && click == StartButton {
      InitGameConsistent(w);
    }
  }
}
