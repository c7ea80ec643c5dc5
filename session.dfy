/**
 * The game session as one object: the globals of main.py (hero, the enemy
 * and coin lists, the platforms, score, level, state, camera and the audio
 * flags) and the functions that change them, update(), init_game(),
 * on_key_down() and on_mouse_down(). Every method is proved to do what the
 * pure functions of GameRules say, so the facts proved there hold of it.
 */
module GameSession {
  import opened WorldModel
  import opened HeroModel
  import opened EnemyModel
  import opened CoinModel
  import opened GameRules

  class Session {
    var hero: Hero?
    var enemies: seq<Enemy>
    var coins: seq<Coin>
    var platforms: seq<Platform>
    var score: int
    var level: int
    var state: GameState
    var camera: real
    var musicEnabled: bool
    var soundsEnabled: bool
    /** The states of the enemies and of the coins, in list order. */
    ghost var enemyView: seq<EnemyState>
    ghost var coinView: seq<CoinState>

    ghost function EnemySet(): set<Enemy>
      reads this`enemies
    {
      set e | e in enemies
    }

    ghost function CoinSet(): set<Coin>
      reads this`coins
    {
      set c | c in coins
    }

    /** No enemy is listed twice, and enemyView holds the enemies' states. */
    ghost predicate EnemiesMatch()
      reads this`enemies, this`enemyView, EnemySet()
    {
      && (forall i, j :: 0 <= i < j < |enemies| ==> enemies[i] != enemies[j])
      && |enemyView| == |enemies|
      && forall i :: 0 <= i < |enemies| ==> enemies[i].State() == enemyView[i]
    }

    /** No coin is listed twice, and coinView holds the coins' states. */
    ghost predicate CoinsMatch()
      reads this`coins, this`coinView, CoinSet()
    {
      && (forall i, j :: 0 <= i < j < |coins| ==> coins[i] != coins[j])
      && |coinView| == |coins|
      && forall i :: 0 <= i < |coins| ==> coins[i].State() == coinView[i]
    }

    ghost predicate Linked()
      reads this`enemies, this`coins, this`enemyView, this`coinView, EnemySet(), CoinSet()
    {
      EnemiesMatch() && CoinsMatch()
    }

    /** The session as a value. */
    ghost function Abs(): GameView
      reads this, hero
    {
      GameView(if hero == null then None else Some(hero.State()), enemyView, coinView,
               platforms, score, level, state, camera, musicEnabled, soundsEnabled)
    }

    ghost predicate Valid()
      reads this, hero, EnemySet(), CoinSet()
    {
      Linked() && Consistent(Abs())
    }

    /** The globals as main.py starts them (main.py:16-36). */
    constructor ()
      ensures Valid() && Abs() == InitialView()
    {
      hero := null;
      enemies := [];
      coins := [];
      platforms := [];
      score, level := 0, 1;
      state := Menu;
      camera := 0.0;
      musicEnabled, soundsEnabled := true, true;
      enemyView, coinView := [], [];
      InitialConsistent();
    }

    /** init_game (main.py:357-400): new objects replace the old ones. */
    method InitGame()
      modifies this`hero, this`enemies, this`coins, this`platforms, this`score, this`level,
        this`enemyView, this`coinView
      ensures Linked()
      ensures hero != null && hero.State() == NewHero(SpawnX, SpawnY)
      ensures platforms == InitialPlatforms() && score == 0 && level == 1
      ensures enemyView == InitialEnemies() && coinView == InitialCoins()
    {
      hero := new Hero(SpawnX, SpawnY);
      platforms := InitialPlatforms();
      SpawnEnemies();
      PlaceCoins();
      score := 0;
      level := 1;
    }

    /** The enemy list of init_game (main.py:361, 380-387): cleared, then filled. */
    method SpawnEnemies()
      modifies this`enemies, this`enemyView
      ensures enemyView == InitialEnemies()
      ensures EnemiesMatch()
    {
      enemies, enemyView := [], [];
      AddEnemy(300.0, Basic);
      AddEnemy(500.0, Basic);
      AddEnemy(700.0, Strong);
      AddEnemy(900.0, Basic);
      AddEnemy(1100.0, Basic);
      AddEnemy(1300.0, Strong);
      AddEnemy(1500.0, Basic);
      AddEnemy(1700.0, Basic);
    }

    /** enemies.append(Enemy(x, HEIGHT - 124, kind)). */
    method AddEnemy(x: real, kind: Kind)
      requires EnemiesMatch()
      modifies this`enemies, this`enemyView
      ensures EnemiesMatch() && enemyView == old(enemyView) + [NewEnemy(x, EnemyY, kind)]
    {
      var e := new Enemy(x, EnemyY, kind);
      enemies, enemyView := enemies + [e], enemyView + [e.State()];
    }

    /** The coin list of init_game (main.py:363, 390-397): cleared, then filled. */
    method PlaceCoins()
      modifies this`coins, this`coinView
      ensures coinView == InitialCoins()
      ensures CoinsMatch()
    {
      coins, coinView := [], [];
      AddCoin(250.0, ViewHeight - 220.0);
      AddCoin(450.0, ViewHeight - 320.0);
      AddCoin(650.0, ViewHeight - 270.0);
      AddCoin(850.0, ViewHeight - 370.0);
      AddCoin(1050.0, ViewHeight - 220.0);
      AddCoin(1250.0, ViewHeight - 320.0);
      AddCoin(1450.0, ViewHeight - 270.0);
      AddCoin(1650.0, ViewHeight - 370.0);
    }

    /** coins.append(Coin(x, y)). */
    method AddCoin(x: real, y: real)
      requires CoinsMatch()
      modifies this`coins, this`coinView
      ensures CoinsMatch() && coinView == old(coinView) + [NewCoin(x, y)]
    {
      var c := new Coin(x, y);
      coins, coinView := coins + [c], coinView + [c.State()];
    }

    /** update() (main.py:546-590), with the keyboard passed in. */
    method Tick(keys: Keys)
      requires Valid()
      modifies this`score, this`state, this`camera, this`enemyView, this`coinView,
        hero, EnemySet(), CoinSet()
      ensures Valid()
      ensures Abs() == TickSpec(old(Abs()), keys)
    {
      if state == Playing && hero != null {
        Play(keys);
        TickKeepsConsistent(old(Abs()), keys);
      }
    }

    /** The body of update() once the PLAYING check has passed. */
    method Play(keys: Keys)
      requires hero != null && Linked()
      modifies this`score, this`state, this`camera, this`enemyView, this`coinView,
        hero, EnemySet(), CoinSet()
      ensures Linked()
      ensures Abs() == PlayTick(old(Abs()), keys)
    {
      MoveAll(keys);
      Resolve();
    }

    /** The first half of update(): hero, enemies and coins move (main.py:551-555). */
    method MoveAll(keys: Keys)
      requires hero != null && Linked()
      modifies this`enemyView, this`coinView, hero, EnemySet(), CoinSet()
      ensures hero != null && Linked()
      ensures Abs() == GameRules.MoveAll(old(Abs()), keys)
    {
      MoveHero(keys);
      UpdateEnemies();
      UpdateCoins();
    }

    /** The second half of update(): camera, pickups, contact, victory (main.py:557-590). */
    method Resolve()
      requires hero != null && Linked()
      modifies this`score, this`state, this`camera, this`coinView, hero`health, CoinSet()
      ensures Linked()
      ensures Abs() == GameRules.Resolve(old(Abs()))
    {
      Gather();
      Contact();
    }

    /** The camera and the coins (main.py:557-574). */
    method Gather()
      requires hero != null && Linked()
      modifies this`score, this`camera, this`coinView, CoinSet()
      ensures Linked()
      ensures Abs() == old(Abs()).(camera := CameraFor(hero.x),
                                   coins := CollectCoins(hero.State(), old(coinView)),
                                   score := old(score) + CoinReward * NewlyCollected(hero.State(), old(coinView)))
    {
      FollowHero();
      PickUpCoins();
    }

    /** Enemy contact, then the victory check (main.py:576-590). */
    method Contact()
      requires hero != null && Linked()
      modifies this`state, hero`health
      ensures Linked()
      ensures var o := ApplyContacts(old(hero.State()), old(state), enemyView);
        Abs() == old(Abs()).(hero := Some(o.hero), state := if o.hero.x >= VictoryX then Victory else o.state)
    {
      TakeHits();
      CheckVictory();
    }

    /** hero.update() (main.py:551). */
    method MoveHero(keys: Keys)
      requires hero != null && Linked()
      modifies hero
      ensures Linked()
      ensures Abs() == old(Abs()).(hero := Some(HeroStep(old(hero.State()), keys, platforms)))
    {
      hero.Update(keys, platforms);
    }

    /** The enemy loop (main.py:552-553): each enemy sees the hero already moved. */
    method UpdateEnemies()
      requires hero != null && Linked()
      modifies this`enemyView, EnemySet()
      ensures Linked()
      ensures Abs() == old(Abs()).(enemies := StepEnemies(old(enemyView), hero.x, platforms))
    {
      ghost var before := enemyView;
      ghost var after := StepEnemies(before, hero.x, platforms);
      var heroX, ps := hero.x, platforms;
      var i := 0;
      while i < |enemies|
        invariant 0 <= i <= |enemies|
        invariant forall k :: 0 <= k < i ==> enemies[k].State() == after[k]
        invariant forall k :: i <= k < |enemies| ==> enemies[k].State() == before[k]
      {
        var e := enemies[i];
        assert forall k :: 0 <= k < |enemies| && k != i ==> enemies[k] != e;
        e.Update(heroX, ps);
        i := i + 1;
      }
      enemyView := after;
    }

    /** The coin animation loop (main.py:554-555). */
    method UpdateCoins()
      requires Linked()
      modifies this`coinView, CoinSet()
      ensures Linked()
      ensures Abs() == old(Abs()).(coins := AnimateCoins(old(coinView)))
    {
      ghost var before := coinView;
      ghost var after := AnimateCoins(before);
      var i := 0;
      while i < |coins|
        invariant 0 <= i <= |coins|
        invariant forall k :: 0 <= k < i ==> coins[k].State() == after[k]
        invariant forall k :: i <= k < |coins| ==> coins[k].State() == before[k]
      {
        var c := coins[i];
        assert forall k :: 0 <= k < |coins| && k != i ==> coins[k] != c;
        c.Update();
        i := i + 1;
      }
      coinView := after;
    }

    /** The camera (main.py:557-562). */
    method FollowHero()
      requires hero != null
      modifies this`camera
      ensures Abs() == old(Abs()).(camera := CameraFor(hero.x))
    {
      camera := hero.x - HalfView;
      if camera < 0.0 {
        camera := 0.0;
      } else if camera > WorldWidth - ViewWidth {
        camera := WorldWidth - ViewWidth;
      }
    }

    /** Coin collection (main.py:564-574). */
    method PickUpCoins()
      requires hero != null && Linked()
      modifies this`score, this`coinView, CoinSet()
      ensures Linked()
      ensures Abs() == old(Abs()).(coins := CollectCoins(hero.State(), old(coinView)),
                                   score := old(score) + CoinReward * NewlyCollected(hero.State(), old(coinView)))
    {
      CollectEach();
      coinView := CollectCoins(hero.State(), coinView);
    }

    /** The loop of the coin collection, coin by coin; coinView is brought up to date after it. */
    method CollectEach()
      requires hero != null && CoinsMatch()
      modifies this`score, CoinSet()
      ensures forall k, l :: 0 <= k < l < |coins| ==> coins[k] != coins[l]
      ensures forall k :: 0 <= k < |coins| ==> coins[k].State() == CollectCoins(hero.State(), coinView)[k]
      ensures score == old(score) + CoinReward * NewlyCollected(hero.State(), coinView)
    {
      ghost var h := hero.State();
      ghost var after := CollectCoins(h, coinView);
      var i := 0;
      while i < |coins|
        invariant 0 <= i <= |coins|
        invariant forall k :: 0 <= k < i ==> coins[k].State() == after[k]
        invariant forall k :: i <= k < |coins| ==> coins[k].State() == coinView[k]
        invariant score == old(score) + CoinReward * NewlyCollected(h, coinView[..i])
      {
        var c := coins[i];
        assert forall k :: 0 <= k < |coins| && k != i ==> coins[k] != c;
        TryCollect(c);
        assert coinView[..i + 1][..i] == coinView[..i];
        i := i + 1;
      }
      assert coinView[..i] == coinView;
    }

    /** One coin of the collection loop (main.py:566-574). */
    method TryCollect(c: Coin)
      requires hero != null
      modifies c`collected, this`score
      ensures c.State() == Collect(hero.State(), old(c.State()))
      ensures score == old(score) + (if Pickable(hero.State(), old(c.State())) then CoinReward else 0)
    {
      if !c.collected {
        if hero.x < c.x + CoinSize && hero.x + HeroSize > c.x &&
           hero.y < c.y + CoinSize && hero.y + HeroSize > c.y {
          c.collected := true;
          score := score + CoinReward;
        }
      }
    }

    /** Enemy contact (main.py:576-586). */
    method TakeHits()
      requires hero != null && Linked()
      modifies hero`health, this`state
      ensures Linked()
      ensures Outcome(hero.State(), state) == ApplyContacts(old(hero.State()), old(state), enemyView)
    {
      ghost var es := enemyView;
      var i := 0;
      while i < |enemies|
        invariant 0 <= i <= |enemies| == |es|
        invariant Outcome(hero.State(), state) == ApplyContacts(old(hero.State()), old(state), es[..i])
      {
        assert enemies[i].State() == old(enemies[i].State());
        Hit(enemies[i]);
        assert es[..i + 1][..i] == es[..i];
        i := i + 1;
      }
      assert es[..i] == es;
    }

    /** One enemy of the contact loop (main.py:578-586). */
    method Hit(e: Enemy)
      requires hero != null
      modifies hero`health, this`state
      ensures Outcome(hero.State(), state) == Strike(Outcome(old(hero.State()), old(state)), e.State())
    {
      if hero.x < e.x + EnemySize && hero.x + HeroSize > e.x &&
         hero.y < e.y + EnemySize && hero.y + HeroSize > e.y {
        hero.health := hero.health - ContactDamage;
        if hero.health <= 0 {
          state := GameOver;
        }
      }
    }

    /** The victory check, run last (main.py:588-590). */
    method CheckVictory()
      requires hero != null
      modifies this`state
      ensures Abs() == old(Abs()).(state := if hero.x >= VictoryX then Victory else old(state))
    {
      if hero.x >= WorldWidth - 50.0 {
        state := Victory;
      }
    }

    /** init_game() followed by game_state = PLAYING, as both R and Start do. */
    method Restart()
      modifies this`hero, this`enemies, this`coins, this`platforms, this`score, this`level,
        this`enemyView, this`coinView, this`state
      ensures Linked()
      ensures Abs() == Initialized(old(Abs())).(state := Playing)
    {
      InitGame();
      state := Playing;
    }

    /** on_key_down (main.py:620-632); quit reports the exit() call for ESC on the menu. */
    method OnKeyDown(key: Key) returns (quit: bool)
      requires Valid()
      modifies this
      ensures Valid()
      ensures Abs() == KeySpec(old(Abs()), key)
      ensures quit == Quits(old(Abs()), key)
    {
      quit := false;
      if state == Menu {
        if key == Escape {
          quit := true;
        }
      } else if state == Playing {
        if key == Escape {
          state := Menu;
        }
      } else if state == GameOver || state == Victory {
        if key == KeyR {
          Restart();
        }
      }
      KeyKeepsConsistent(old(Abs()), key);
    }

    /**
     * on_mouse_down (main.py:634-671) for a click already matched to a menu
     * button; quit reports the exit() call of the exit button.
     */
    method OnMouseDown(click: MenuClick) returns (quit: bool)
      requires Valid()
      modifies this
      ensures Valid()
      ensures Abs() == ClickSpec(old(Abs()), click)
      ensures quit == ClickQuits(old(Abs()), click)
    {
      quit := false;
      if state == Menu {
        match click
        case StartButton =>
          Restart();
        case MusicButton =>
          musicEnabled := !musicEnabled;
        case SoundsButton =>
          soundsEnabled := !soundsEnabled;
        case ExitButton =>
          quit := true;
        case NoButton =>
      }
      ClickKeepsConsistent(old(Abs()), click);
    }
  }
}
