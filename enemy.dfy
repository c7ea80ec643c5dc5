/**
 * The enemy's tick (Enemy.update, main.py:209-261): the chase/patrol
 * decision, gravity, the ground snap and landing-only platform resolution,
 * as pure functions with the facts proved about them, and the Enemy class
 * whose Update method performs the tick in place.
 */
module EnemyModel {
  import opened WorldModel

  const EnemySize: real := 24.0
  /** Horizontal distance below which the enemy chases the hero. */
  const AttackRange: real := 100.0
  /** The value attack_timer is reset to on every in-range tick. */
  const AttackDuration: int := 60
  /** ENEMY_SPEED * 1.5, taken exactly. */
  const ChaseSpeed: real := EnemySpeed * 1.5
  /** patrol_start and patrol_end lie this far either side of the spawn x. */
  const PatrolHalfWidth: real := 50.0

  /** The enemy_type tag: "basic" or anything else ("strong" in the game). */
  datatype Kind = Basic | Strong

  function KindHealth(k: Kind): int
  {
    if k == Basic then 30 else 50
  }

  datatype EnemyState = EnemyState(
    x: real, y: real, velX: real, velY: real, kind: Kind,
    health: int, maxHealth: int, onGround: bool,
    patrolStart: real, patrolEnd: real,
    isAttacking: bool, attackTimer: int,
    animationFrame: nat, animationTimer: nat)

  /** Enemy(x, y, enemy_type) (main.py:191-207). */
  function NewEnemy(x: real, y: real, kind: Kind): (e: EnemyState)
    ensures e.x == x && e.y == y && e.velY == 0.0 && !e.onGround && e.kind == kind
    ensures e.patrolStart == x - PatrolHalfWidth && e.patrolEnd == x + PatrolHalfWidth
    ensures e.patrolStart < e.x < e.patrolEnd
    ensures e.velX == -EnemySpeed && e.health == e.maxHealth == KindHealth(kind)
    ensures !e.isAttacking && e.attackTimer == 0
  {
    EnemyState(x, y, -EnemySpeed, 0.0, kind, KindHealth(kind), KindHealth(kind), false,
               x - PatrolHalfWidth, x + PatrolHalfWidth, false, 0, 0, 0)
  }

  function EnemyBox(e: EnemyState): Box
  {
    Box(e.x, e.y, EnemySize, EnemySize)
  }

  /** The hero is within attack range: abs(self.x - hero.x) < 100. */
  predicate InRange(e: EnemyState, heroX: real)
  {
    Dist(e.x, heroX) < AttackRange
  }

  /** Fields that only the decision and the animation touch: gravity and landing leave them alone. */
  predicate SameBehaviour(e: EnemyState, r: EnemyState)
  {
    r.velX == e.velX && r.kind == e.kind && r.health == e.health && r.maxHealth == e.maxHealth &&
    r.patrolStart == e.patrolStart && r.patrolEnd == e.patrolEnd &&
    r.isAttacking == e.isAttacking && r.attackTimer == e.attackTimer &&
    r.animationFrame == e.animationFrame && r.animationTimer == e.animationTimer
  }

  /** The range check (main.py:211-216). */
  function Sense(e: EnemyState, heroX: real): (r: EnemyState)
    ensures r.isAttacking <==> InRange(e, heroX)
    ensures InRange(e, heroX) ==> r.attackTimer == AttackDuration
    ensures !InRange(e, heroX) ==> r.attackTimer == e.attackTimer
    ensures r == e.(isAttacking := r.isAttacking, attackTimer := r.attackTimer)
  {
    if Dist(e.x, heroX) < AttackRange then e.(isAttacking := true, attackTimer := AttackDuration)
    else e.(isAttacking := false)
  }

  /** The branch condition of main.py:218, on the enemy as the range check left it. */
  predicate Chases(e: EnemyState)
  {
    e.isAttacking && e.attackTimer > 0
  }

  /** Chase toward the hero, or patrol between the fixed bounds (main.py:218-229). */
  function Steer(e: EnemyState, heroX: real): (r: EnemyState)
    ensures Chases(e) ==> r.velX == (if heroX < e.x then -ChaseSpeed else ChaseSpeed)
    ensures Chases(e) ==> r.attackTimer == e.attackTimer - 1
    ensures !Chases(e) ==> r.attackTimer == e.attackTimer
    ensures !Chases(e) && (e.x <= e.patrolStart || e.x >= e.patrolEnd) ==> r.velX == -e.velX
    ensures !Chases(e) && e.patrolStart < e.x < e.patrolEnd ==> r.velX == e.velX
    ensures r == e.(velX := r.velX, attackTimer := r.attackTimer)
  {
    if e.isAttacking && e.attackTimer > 0 then
      e.(velX := if heroX < e.x then -ChaseSpeed else ChaseSpeed, attackTimer := e.attackTimer - 1)
    else if e.x <= e.patrolStart || e.x >= e.patrolEnd then e.(velX := -e.velX)
    else e
  }

  /** Gravity and integration (main.py:231-236). */
  function Fall(e: EnemyState): EnemyState
  {
    var vy := e.velY + Gravity;
    e.(velY := vy, x := e.x + e.velX, y := e.y + vy)
  }

  /** The ground snap (main.py:238-242); the grounded flag it sets is overwritten at main.py:245. */
  function SnapToGround(e: EnemyState): (r: EnemyState)
    ensures r.y <= GroundY
    ensures e.y >= GroundY ==> r.y == GroundY && r.velY == 0.0 && r.onGround
    ensures e.y < GroundY ==> r == e
    ensures r == e.(y := r.y, velY := r.velY, onGround := r.onGround)
  {
    if e.y >= GroundY then e.(y := GroundY, velY := 0.0, onGround := true) else e
  }

  /** The enemy is at rest with its bottom level with some platform's top (heights only). */
  predicate OnSomePlatform(e: EnemyState, ps: seq<Platform>)
  {
    e.velY == 0.0 && exists i :: 0 <= i < |ps| && e.y + EnemySize == ps[i].y
  }

  /** The landing condition of main.py:248-252: overlapping the platform while falling from above it. */
  predicate FallsOnto(e: EnemyState, p: Platform)
  {
    Overlaps(EnemyBox(e), p.Bounds()) && e.velY > 0.0 && e.y < p.y
  }

  /** Landing on one platform, the only branch enemies have (main.py:247-255). */
  function LandOn(e: EnemyState, p: Platform): (r: EnemyState)
    ensures SameBehaviour(e, r) && r.x == e.x
    ensures FallsOnto(e, p) ==>
      r.y + EnemySize == p.y && r.velY == 0.0 && r.onGround && !Overlaps(EnemyBox(r), p.Bounds())
    ensures !FallsOnto(e, p) ==> r == e
  {
    if FallsOnto(e, p) then
      e.(y := p.y - EnemySize, velY := 0.0, onGround := true)
    else e
  }

  /** The platform loop over a list, in order. */
  function LandOnAll(e: EnemyState, ps: seq<Platform>): (r: EnemyState)
    ensures SameBehaviour(e, r) && r.x == e.x
    ensures r.velY == e.velY || r.velY == 0.0
    ensures e.velY <= 0.0 ==> r == e
    decreases |ps|
  {
    if ps == [] then e else LandOn(LandOnAll(e, ps[..|ps| - 1]), ps[|ps| - 1])
  }

  /** main.py:245-255: clear the grounded flag, then try every platform. */
  function LandOnPlatforms(e: EnemyState, ps: seq<Platform>): EnemyState
  {
    LandOnAll(e.(onGround := false), ps)
  }

  /** Animation counters (main.py:257-261): presentation only. */
  function Animate(e: EnemyState): (r: EnemyState)
    ensures r.animationTimer < 12
    ensures e.animationFrame < 3 ==> r.animationFrame < 3
    ensures r == e.(animationFrame := r.animationFrame, animationTimer := r.animationTimer)
  {
    if e.animationTimer + 1 >= 12 then e.(animationTimer := 0, animationFrame := (e.animationFrame + 1) % 3)
    else e.(animationTimer := e.animationTimer + 1)
  }

  /** The enemy after the decision, gravity, integration and the ground snap. */
  function Settle(e: EnemyState, heroX: real): EnemyState
  {
    SnapToGround(Fall(Steer(Sense(e, heroX), heroX)))
  }

  /** One whole Enemy.update (main.py:209-261), given the hero's x. */
  function EnemyStep(e: EnemyState, heroX: real, ps: seq<Platform>): EnemyState
  {
    Animate(LandOnPlatforms(Settle(e, heroX), ps))
  }

  /** The chase branch runs exactly when the hero is in range: the timer never gates it. */
  lemma ChaseIffInRange(e: EnemyState, heroX: real)
    ensures Chases(Sense(e, heroX)) <==> InRange(e, heroX)
  {
  }

  /** In range: head for the hero at 1.5 times the base speed; the timer ends the tick at 59. */
  lemma EnemyStepChase(e: EnemyState, heroX: real, ps: seq<Platform>)
    requires InRange(e, heroX)
    ensures var r := EnemyStep(e, heroX, ps);
      && r.isAttacking
      && r.velX == (if heroX < e.x then -ChaseSpeed else ChaseSpeed)
      && r.attackTimer == AttackDuration - 1
  {
    var s := Settle(e, heroX);
    assert SameBehaviour(s.(onGround := false), LandOnAll(s.(onGround := false), ps));
  }

  /**
   * Out of range: not attacking, the timer untouched, and the horizontal
   * velocity flips exactly at or beyond a patrol bound, so its size is kept.
   */
  lemma EnemyStepPatrol(e: EnemyState, heroX: real, ps: seq<Platform>)
    requires !InRange(e, heroX)
    ensures var r := EnemyStep(e, heroX, ps);
      && !r.isAttacking
      && r.attackTimer == e.attackTimer
      && ((e.x <= e.patrolStart || e.x >= e.patrolEnd) ==> r.velX == -e.velX)
      && (e.patrolStart < e.x < e.patrolEnd ==> r.velX == e.velX)
      && Dist(r.velX, 0.0) == Dist(e.velX, 0.0)
  {
    var s := Settle(e, heroX);
    assert SameBehaviour(s.(onGround := false), LandOnAll(s.(onGround := false), ps));
  }

  /** Kind, health and the patrol bounds are never reassigned by a tick. */
  lemma EnemyStepKeepsIdentity(e: EnemyState, heroX: real, ps: seq<Platform>)
    ensures var r := EnemyStep(e, heroX, ps);
      && r.kind == e.kind && r.health == e.health && r.maxHealth == e.maxHealth
      && r.patrolStart == e.patrolStart && r.patrolEnd == e.patrolEnd
  {
    var s := Settle(e, heroX);
    assert SameBehaviour(s.(onGround := false), LandOnAll(s.(onGround := false), ps));
  }

  /** No world clamp: x moves by exactly the new velocity, whatever the world's edges. */
  lemma EnemyStepUnclamped(e: EnemyState, heroX: real, ps: seq<Platform>)
    ensures var r := EnemyStep(e, heroX, ps); r.x == e.x + r.velX
  {
    var s := Settle(e, heroX);
    assert SameBehaviour(s.(onGround := false), LandOnAll(s.(onGround := false), ps));
  }

  /** Gravity acts once per tick, unless the ground or a platform stopped the enemy. */
  lemma EnemyStepVertical(e: EnemyState, heroX: real, ps: seq<Platform>)
    ensures var r := EnemyStep(e, heroX, ps); r.velY == e.velY + Gravity || r.velY == 0.0
  {
    var s := Settle(e, heroX).(onGround := false);
    assert s.velY == e.velY + Gravity || s.velY == 0.0;
  }

  /** Clear of the ground and with no platforms, the enemy falls by its new velocity. */
  lemma EnemyStepAirborne(e: EnemyState, heroX: real)
    requires e.y + e.velY + Gravity < GroundY
    ensures var r := EnemyStep(e, heroX, []);
      r.velY == e.velY + Gravity && r.y == e.y + r.velY && !r.onGround
  {
  }

  lemma {:induction false} LandPrefixGrounded(e: EnemyState, ps: seq<Platform>, k: nat)
    requires k <= |ps| && !e.onGround
    ensures var r := LandOnAll(e, ps[..k]); r.onGround ==> OnSomePlatform(r, ps)
  {
    if k > 0 {
      assert ps[..k][..k - 1] == ps[..k - 1];
      LandPrefixGrounded(e, ps, k - 1);
      var m := LandOnAll(e, ps[..k - 1]);
      var r := LandOn(m, ps[k - 1]);
      assert LandOnAll(e, ps[..k]) == r;
      if r != m {
        assert r.y + EnemySize == ps[k - 1].y;
      }
    }
  }

  /** No platform of the loop lands the enemy. */
  predicate NeverLands(e: EnemyState, ps: seq<Platform>)
  {
    forall i :: 0 <= i < |ps| ==> !FallsOnto(LandOnAll(e, ps[..i]), ps[i])
  }

  /** Without a landing, the platform loop leaves the enemy exactly as it was. */
  lemma {:induction false} LandKeepsEnemy(e: EnemyState, ps: seq<Platform>, k: nat)
    requires k <= |ps| && NeverLands(e, ps)
    ensures LandOnAll(e, ps[..k]) == e
  {
    if k > 0 {
      assert ps[..k][..k - 1] == ps[..k - 1];
      LandKeepsEnemy(e, ps, k - 1);
    }
  }

  /**
   * Gravity is only ever undone by the ground or a platform: an enemy whose
   * new position is above the ground line and that no platform lands ends
   * the tick with its old vel_y plus 0.8.
   */
  lemma EnemyStepFreeFall(e: EnemyState, heroX: real, ps: seq<Platform>)
    requires Fall(Steer(Sense(e, heroX), heroX)).y < GroundY
    requires NeverLands(Settle(e, heroX).(onGround := false), ps)
    ensures EnemyStep(e, heroX, ps).velY == e.velY + Gravity
  {
    LandKeepsEnemy(Settle(e, heroX).(onGround := false), ps, |ps|);
    assert ps[..|ps|] == ps;
  }

  /**
   * Once an enemy lands on platform i, the rest of the loop keeps it grounded
   * and at rest, its bottom level with platform i's top.
   */
  lemma {:induction false} LandingPersists(e: EnemyState, ps: seq<Platform>, i: nat, k: nat)
    requires i < k <= |ps| && FallsOnto(LandOnAll(e, ps[..i]), ps[i])
    ensures var r := LandOnAll(e, ps[..k]);
      r.onGround && r.velY == 0.0 && r.y + EnemySize == ps[i].y
    decreases k
  {
    assert ps[..k][..k - 1] == ps[..k - 1];
    if k > i + 1 {
      LandingPersists(e, ps, i, k - 1);
    }
  }

  /** An enemy that falls onto a platform during the loop ends the tick grounded, at rest, level with its top. */
  lemma EnemyStepLands(e: EnemyState, heroX: real, ps: seq<Platform>, i: nat)
    requires i < |ps|
    requires FallsOnto(LandOnAll(Settle(e, heroX).(onGround := false), ps[..i]), ps[i])
    ensures var r := EnemyStep(e, heroX, ps);
      r.onGround && r.velY == 0.0 && r.y + EnemySize == ps[i].y
  {
    LandingPersists(Settle(e, heroX).(onGround := false), ps, i, |ps|);
    assert ps[..|ps|] == ps;
  }

  /**
   * The ground snap's flag never survives: an enemy that ends a tick grounded
   * is at rest with its bottom level with some platform's top, even when it
   * sits on the ground line.
   */
  lemma EnemyStepGroundedOnPlatform(e: EnemyState, heroX: real, ps: seq<Platform>)
    ensures var r := EnemyStep(e, heroX, ps); r.onGround ==> OnSomePlatform(r, ps)
  {
    var s := Settle(e, heroX).(onGround := false);
    LandPrefixGrounded(s, ps, |ps|);
    assert ps[..|ps|] == ps;
  }

  /** With no platforms an enemy is never grounded, even on the ground line. */
  lemma EnemyNeverGroundedWithoutPlatforms(e: EnemyState, heroX: real)
    ensures !EnemyStep(e, heroX, []).onGround
  {
  }

  /** The enemy as an object whose update changes its fields in place. */
  class Enemy {
    var x: real
    var y: real
    var velX: real
    var velY: real
    var kind: Kind
    var health: int
    var maxHealth: int
    var onGround: bool
    var patrolStart: real
    var patrolEnd: real
    var isAttacking: bool
    var attackTimer: int
    var animationFrame: nat
    var animationTimer: nat

    function State(): EnemyState
      reads this
    {
      EnemyState(x, y, velX, velY, kind, health, maxHealth, onGround, patrolStart, patrolEnd,
                 isAttacking, attackTimer, animationFrame, animationTimer)
    }

    constructor (x0: real, y0: real, k: Kind)
      ensures State() == NewEnemy(x0, y0, k)
    {
      x, y := x0, y0;
      velX, velY := -EnemySpeed, 0.0;
      kind := k;
      health := KindHealth(k);
      maxHealth := KindHealth(k);
      animationFrame, animationTimer := 0, 0;
      onGround := false;
      patrolStart, patrolEnd := x0 - PatrolHalfWidth, x0 + PatrolHalfWidth;
      isAttacking := false;
      attackTimer := 0;
    }

    /** Enemy.update (main.py:209-261); only the hero's x is read. */
    method Update(heroX: real, platforms: seq<Platform>)
      modifies this
      ensures State() == EnemyStep(old(State()), heroX, platforms)
    {
      Decide(heroX);
      Drop();
      Land(platforms);
      AdvanceAnimation();
    }

    /** The range check and the chase or patrol velocity (main.py:210-229). */
    method Decide(heroX: real)
      modifies this
      ensures State() == Steer(Sense(old(State()), heroX), heroX)
    {
      var distance := if x >= heroX then x - heroX else heroX - x;
      if distance < AttackRange {
        isAttacking := true;
        attackTimer := AttackDuration;
      } else {
        isAttacking := false;
      }
      assert State() == Sense(old(State()), heroX);

      if isAttacking && attackTimer > 0 {
        if heroX < x {
          velX := -ChaseSpeed;
        } else {
          velX := ChaseSpeed;
        }
        attackTimer := attackTimer - 1;
      } else {
        if x <= patrolStart || x >= patrolEnd {
          velX := -velX;
        }
      }
    }

    /** Gravity, integration and the ground snap (main.py:231-242). */
    method Drop()
      modifies this
      ensures State() == SnapToGround(Fall(old(State())))
    {
      velY := velY + Gravity;
      x := x + velX;
      y := y + velY;
      assert State() == Fall(old(State()));

      if y >= GroundY {
        y := GroundY;
        velY := 0.0;
        onGround := true;
      }
    }

    /** The grounded flag is cleared, then each platform may land the enemy (main.py:244-255). */
    method Land(platforms: seq<Platform>)
      modifies this
      ensures State() == LandOnPlatforms(old(State()), platforms)
    {
      onGround := false;
      ghost var cleared := State();
      var i := 0;
      while i < |platforms|
        invariant 0 <= i <= |platforms|
        invariant State() == LandOnAll(cleared, platforms[..i])
      {
        var p := platforms[i];
        ghost var before := State();
        if x < p.x + p.width && x + EnemySize > p.x && y < p.y + p.height && y + EnemySize > p.y {
          if velY > 0.0 && y < p.y {
            y := p.y - EnemySize;
            velY := 0.0;
            onGround := true;
          }
        }
        assert State() == LandOn(before, p);
        assert platforms[..i + 1][..i] == platforms[..i];
        i := i + 1;
      }
      assert platforms[..i] == platforms;
    }

    /** The animation counters (main.py:257-261). */
    method AdvanceAnimation()
      modifies this
      ensures State() == Animate(old(State()))
    {
      animationTimer := animationTimer + 1;
      if animationTimer >= 12 {
        animationTimer := 0;
        animationFrame := (animationFrame + 1) % 3;
      }
    }
  }
}
