/**
 * The hero's tick (Hero.update, main.py:55-129): pure functions that
 * specify each phase of the tick in the source's order, the facts proved
 * about them, and the Hero class whose Update method performs the tick in
 * place, field by field, and is proved to agree with HeroStep.
 */
module HeroModel {
  import opened WorldModel

  const HeroSize: real := 32.0
  const MaxHealth: int := 100
  /** The largest x the world clamp allows: WORLD_WIDTH - width = 1968. */
  const HeroMaxX: real := WorldWidth - HeroSize

  /** The keyboard state sampled for one tick. */
  datatype Keys = Keys(left: bool, right: bool, space: bool)

  datatype HeroState = HeroState(
    x: real, y: real, velX: real, velY: real, onGround: bool,
    health: int, facingRight: bool, isJumping: bool, isRunning: bool,
    animationFrame: nat, animationTimer: nat)

  /** Hero(x, y) (main.py:39-53). */
  function NewHero(x: real, y: real): HeroState
  {
    HeroState(x, y, 0.0, 0.0, false, MaxHealth, true, false, false, 0, 0)
  }

  function HeroBox(h: HeroState): Box
  {
    Box(h.x, h.y, HeroSize, HeroSize)
  }

  /** r differs from h at most in position, vertical velocity and the ground/jump flags. */
  predicate SameControls(h: HeroState, r: HeroState)
  {
    r.velX == h.velX && r.health == h.health && r.facingRight == h.facingRight &&
    r.isRunning == h.isRunning && r.animationFrame == h.animationFrame &&
    r.animationTimer == h.animationTimer
  }

  /** A grounded hero has no vertical velocity. */
  predicate AtRest(h: HeroState)
  {
    h.onGround ==> h.velY == 0.0
  }

  predicate InWorld(h: HeroState)
  {
    0.0 <= h.x <= HeroMaxX
  }

  /**
   * A platform the side pushes cannot use to shove the hero out of the
   * world: at least one hero width from the left edge, and its right edge at
   * most WORLD_WIDTH - 32.
   */
  predicate SideSafe(p: Platform)
  {
    HeroSize <= p.x && p.x + p.width <= HeroMaxX && p.width > 0.0
  }

  predicate AllSideSafe(ps: seq<Platform>)
  {
    forall i :: 0 <= i < |ps| ==> SideSafe(ps[i])
  }

  /** Horizontal input (main.py:60-70): left wins over right; facing persists with no key. */
  function ReadInput(h: HeroState, keys: Keys): (r: HeroState)
    ensures r.velX == -PlayerSpeed || r.velX == PlayerSpeed || r.velX == 0.0
    ensures keys.left ==> r.velX == -PlayerSpeed && !r.facingRight
    ensures !keys.left && keys.right ==> r.velX == PlayerSpeed && r.facingRight
    ensures !keys.left && !keys.right ==> r.velX == 0.0 && r.facingRight == h.facingRight
    ensures r.isRunning <==> r.velX != 0.0
    ensures r == h.(velX := r.velX, facingRight := r.facingRight, isRunning := r.isRunning)
  {
    if keys.left then h.(velX := -PlayerSpeed, facingRight := false, isRunning := true)
    else if keys.right then h.(velX := PlayerSpeed, facingRight := true, isRunning := true)
    else h.(velX := 0.0, isRunning := false)
  }

  /** The jump (main.py:73-76): only with space held while grounded on entry. */
  function TryJump(h: HeroState, keys: Keys): (r: HeroState)
    ensures r != h ==> keys.space && h.onGround
    ensures keys.space && h.onGround ==> r.velY == JumpStrength && !r.onGround && r.isJumping
    ensures r == h.(velY := r.velY, onGround := r.onGround, isJumping := r.isJumping)
  {
    if keys.space && h.onGround then h.(velY := JumpStrength, onGround := false, isJumping := true)
    else h
  }

  /** Gravity then integration (main.py:81-85): position moves by the updated velocity. */
  function Integrate(h: HeroState): HeroState
  {
    var vy := h.velY + Gravity;
    h.(velY := vy, x := h.x + h.velX, y := h.y + vy)
  }

  /** The world clamp (main.py:88-91). */
  function ClampToWorld(h: HeroState): (r: HeroState)
    ensures InWorld(r)
    ensures InWorld(h) ==> r == h
    ensures h.x < 0.0 ==> r.x == 0.0
    ensures h.x > HeroMaxX ==> r.x == HeroMaxX
    ensures r == h.(x := r.x)
  {
    if h.x < 0.0 then h.(x := 0.0)
    else if h.x > WorldWidth - HeroSize then h.(x := WorldWidth - HeroSize)
    else h
  }

  /** The ground snap (main.py:94-100), which tests the top y against HEIGHT - 100. */
  function SnapToGround(h: HeroState): (r: HeroState)
    ensures h.y >= GroundY ==> r.y == GroundY && r.velY == 0.0 && r.onGround && !r.isJumping
    ensures h.y < GroundY ==> r == h.(onGround := false)
    ensures AtRest(r) && r.x == h.x && SameControls(h, r)
  {
    if h.y >= GroundY then h.(y := GroundY, velY := 0.0, onGround := true, isJumping := false)
    else h.(onGround := false)
  }

  /** Which of the four branches of main.py:110-123 fires for one platform. */
  datatype Contact = NoContact | Landing | Ceiling | RightSide | LeftSide

  function ContactWith(h: HeroState, p: Platform): Contact
  {
    if !Overlaps(HeroBox(h), p.Bounds()) then NoContact
    else if h.velY > 0.0 && h.y < p.y then Landing
    else if h.velY < 0.0 && h.y > p.y then Ceiling
    else if h.velX > 0.0 && h.x < p.x then RightSide
    else if h.velX < 0.0 && h.x > p.x then LeftSide
    else NoContact
  }

  /** One platform's resolution (main.py:104-123): at most one branch, in priority order. */
  function ResolvePlatform(h: HeroState, p: Platform): (r: HeroState)
    ensures SameControls(h, r)
    ensures ContactWith(h, p) == Landing ==>
      r.y + HeroSize == p.y && r.velY == 0.0 && r.onGround && !r.isJumping && r.x == h.x
    ensures ContactWith(h, p) == Ceiling ==>
      r.y == p.y + p.height && r.velY == 0.0 && r.onGround == h.onGround &&
      r.isJumping == h.isJumping && r.x == h.x
    ensures ContactWith(h, p) == RightSide ==> r == h.(x := r.x) && r.x + HeroSize == p.x
    ensures ContactWith(h, p) == LeftSide ==> r == h.(x := r.x) && r.x == p.x + p.width
    ensures ContactWith(h, p) == NoContact ==> r == h
    ensures ContactWith(h, p) != NoContact ==> !Overlaps(HeroBox(r), p.Bounds())
  {
    match ContactWith(h, p)
    case NoContact => h
    case Landing => h.(y := p.y - HeroSize, velY := 0.0, onGround := true, isJumping := false)
    case Ceiling => h.(y := p.y + p.height, velY := 0.0)
    case RightSide => h.(x := p.x - HeroSize)
    case LeftSide => h.(x := p.x + p.width)
  }

  /** The platform loop (main.py:103): each platform in turn, against the hero as left by the previous ones. */
  function ResolvePlatforms(h: HeroState, ps: seq<Platform>): (r: HeroState)
    ensures SameControls(h, r)
    ensures AtRest(h) ==> AtRest(r)
    ensures InWorld(h) && AllSideSafe(ps) ==> InWorld(r)
    ensures r.velY == h.velY || r.velY == 0.0
    ensures h.velY == 0.0 ==> r.velY == 0.0 && r.y == h.y && r.onGround == h.onGround
    decreases |ps|
  {
    if ps == [] then h
    else ResolvePlatform(ResolvePlatforms(h, ps[..|ps| - 1]), ps[|ps| - 1])
  }

  /** Animation counters (main.py:126-129): presentation only. */
  function Animate(h: HeroState): (r: HeroState)
    ensures r.animationTimer < 8
    ensures h.animationFrame < 4 ==> r.animationFrame < 4
    ensures r == h.(animationFrame := r.animationFrame, animationTimer := r.animationTimer)
  {
    if h.animationTimer + 1 >= 8 then h.(animationTimer := 0, animationFrame := (h.animationFrame + 1) % 4)
    else h.(animationTimer := h.animationTimer + 1)
  }

  /** The state after input, jump, gravity, integration, clamp and ground snap: what the platform loop starts from. */
  function Settle(h: HeroState, keys: Keys): HeroState
  {
    SnapToGround(ClampToWorld(Integrate(TryJump(ReadInput(h, keys), keys))))
  }

  /** One whole Hero.update (main.py:55-129). */
  function HeroStep(h: HeroState, keys: Keys, ps: seq<Platform>): HeroState
  {
    Animate(ResolvePlatforms(Settle(h, keys), ps))
  }

  /** The input mapping survives the whole tick: collisions never touch vel_x, facing or health. */
  lemma HeroStepControls(h: HeroState, keys: Keys, ps: seq<Platform>)
    ensures var r := HeroStep(h, keys, ps);
      && (keys.left ==> r.velX == -PlayerSpeed && !r.facingRight)
      && (!keys.left && keys.right ==> r.velX == PlayerSpeed && r.facingRight)
      && (!keys.left && !keys.right ==> r.velX == 0.0 && r.facingRight == h.facingRight)
      && (r.isRunning <==> r.velX != 0.0)
      && r.health == h.health
  {
    var s := Settle(h, keys);
    assert SameControls(s, ResolvePlatforms(s, ps));
  }

  /** The world clamp runs before the side pushes, so this bound needs side-safe platforms. */
  lemma HeroStepStaysInWorld(h: HeroState, keys: Keys, ps: seq<Platform>)
    requires AllSideSafe(ps)
    ensures InWorld(HeroStep(h, keys, ps))
  {
    assert InWorld(Settle(h, keys));
  }

  /** A hero that ends a tick grounded has zero vertical velocity. */
  lemma HeroStepGroundedAtRest(h: HeroState, keys: Keys, ps: seq<Platform>)
    ensures AtRest(HeroStep(h, keys, ps))
  {
    assert AtRest(Settle(h, keys));
  }

  /**
   * A grounded hero is at rest with its top on the ground line or its bottom
   * level with some platform's top (heights only: a later side push may move it off).
   */
  predicate Supported(h: HeroState, ps: seq<Platform>)
  {
    h.onGround ==> h.velY == 0.0 && (h.y == GroundY || exists i :: 0 <= i < |ps| && h.y + HeroSize == ps[i].y)
  }

  /** Resolving any prefix of the platform list keeps the hero supported by the list. */
  lemma {:induction false} ResolvePrefixKeepsSupport(h: HeroState, ps: seq<Platform>, k: nat)
    requires k <= |ps| && Supported(h, ps)
    ensures Supported(ResolvePlatforms(h, ps[..k]), ps)
  {
    if k > 0 {
      assert ps[..k][..k - 1] == ps[..k - 1];
      ResolvePrefixKeepsSupport(h, ps, k - 1);
      var m := ResolvePlatforms(h, ps[..k - 1]);
      var p := ps[k - 1];
      assert ResolvePlatforms(h, ps[..k]) == ResolvePlatform(m, p);
      if ContactWith(m, p) == Landing {
        assert ResolvePlatform(m, p).y + HeroSize == ps[k - 1].y;
      }
    }
  }

  lemma ResolveKeepsSupport(h: HeroState, ps: seq<Platform>)
    requires Supported(h, ps)
    ensures Supported(ResolvePlatforms(h, ps), ps)
  {
    ResolvePrefixKeepsSupport(h, ps, |ps|);
    assert ps[..|ps|] == ps;
  }

  /** Grounded at the end of a tick means at rest, with the top on the ground line or the bottom level with some platform's top. */
  lemma HeroStepGroundedIsSupported(h: HeroState, keys: Keys, ps: seq<Platform>)
    ensures Supported(HeroStep(h, keys, ps), ps)
  {
    var s := Settle(h, keys);
    assert Supported(s, ps);
    ResolveKeepsSupport(s, ps);
  }

  /**
   * Gravity acts once per tick: vertical velocity ends as the launched or
   * kept velocity plus 0.8, unless the ground or a platform stopped it.
   */
  lemma HeroStepVertical(h: HeroState, keys: Keys, ps: seq<Platform>)
    ensures var r := HeroStep(h, keys, ps);
      var launched := if keys.space && h.onGround then JumpStrength else h.velY;
      r.velY == launched + Gravity || r.velY == 0.0
  {
    var s := Settle(h, keys);
    assert s.velY == TryJump(ReadInput(h, keys), keys).velY + Gravity || s.velY == 0.0;
  }

  /** Clear of the ground, with no jump and no platforms, the hero falls by its new velocity. */
  lemma HeroStepAirborne(h: HeroState, keys: Keys)
    requires !(keys.space && h.onGround) && h.y + h.velY + Gravity < GroundY
    ensures var r := HeroStep(h, keys, []);
      r.velY == h.velY + Gravity && r.y == h.y + r.velY && !r.onGround
  {
  }

  /**
   * Once the hero lands on platform i, the rest of the loop keeps it grounded
   * and at rest at that height: its bottom stays level with platform i's top
   * (a later side push may still move it sideways).
   */
  lemma {:induction false} LandingPersists(h: HeroState, ps: seq<Platform>, i: nat, k: nat)
    requires i < k <= |ps| && ContactWith(ResolvePlatforms(h, ps[..i]), ps[i]) == Landing
    ensures var r := ResolvePlatforms(h, ps[..k]);
      r.onGround && r.velY == 0.0 && r.y + HeroSize == ps[i].y
    decreases k
  {
    assert ps[..k][..k - 1] == ps[..k - 1];
    if k > i + 1 {
      LandingPersists(h, ps, i, k - 1);
    }
  }

  /** A hero that lands on a platform during the loop ends the tick grounded, at rest, level with its top. */
  lemma HeroStepLands(h: HeroState, keys: Keys, ps: seq<Platform>, i: nat)
    requires i < |ps| && ContactWith(ResolvePlatforms(Settle(h, keys), ps[..i]), ps[i]) == Landing
    ensures var r := HeroStep(h, keys, ps);
      r.onGround && r.velY == 0.0 && r.y + HeroSize == ps[i].y
  {
    LandingPersists(Settle(h, keys), ps, i, |ps|);
    assert ps[..|ps|] == ps;
  }

  /** No platform of the loop lands the hero or stops it at a ceiling. */
  predicate NeverStopped(h: HeroState, ps: seq<Platform>)
  {
    forall i :: 0 <= i < |ps| ==>
      ContactWith(ResolvePlatforms(h, ps[..i]), ps[i]) != Landing &&
      ContactWith(ResolvePlatforms(h, ps[..i]), ps[i]) != Ceiling
  }

  /** Without a landing or a ceiling hit, the platform loop keeps vel_y. */
  lemma {:induction false} ResolveKeepsVelY(h: HeroState, ps: seq<Platform>, k: nat)
    requires k <= |ps| && NeverStopped(h, ps)
    ensures ResolvePlatforms(h, ps[..k]).velY == h.velY
  {
    if k > 0 {
      assert ps[..k][..k - 1] == ps[..k - 1];
      ResolveKeepsVelY(h, ps, k - 1);
    }
  }

  /**
   * Gravity is only ever undone by the ground or a platform: a hero whose new
   * position is above the ground line and that no platform lands or stops at
   * a ceiling ends the tick with the launched or kept vel_y plus 0.8.
   */
  lemma HeroStepFreeFall(h: HeroState, keys: Keys, ps: seq<Platform>)
    requires Integrate(TryJump(ReadInput(h, keys), keys)).y < GroundY
    requires NeverStopped(Settle(h, keys), ps)
    ensures var launched := if keys.space && h.onGround then JumpStrength else h.velY;
      HeroStep(h, keys, ps).velY == launched + Gravity
  {
    ResolveKeepsVelY(Settle(h, keys), ps, |ps|);
    assert ps[..|ps|] == ps;
  }

  /** A hero standing on the ground with no jump and no platforms around stays there. */
  lemma StandingStill(h: HeroState, keys: Keys)
    requires h.y == GroundY && h.velY == 0.0 && !keys.space
    ensures var r := HeroStep(h, keys, []); r.y == GroundY && r.velY == 0.0 && r.onGround
  {
  }

  /** The hero as an object whose update changes its fields in place. */
  class Hero {
    var x: real
    var y: real
    var velX: real
    var velY: real
    var onGround: bool
    var health: int
    var facingRight: bool
    var isJumping: bool
    var isRunning: bool
    var animationFrame: nat
    var animationTimer: nat

    function State(): HeroState
      reads this
    {
      HeroState(x, y, velX, velY, onGround, health, facingRight, isJumping, isRunning,
                animationFrame, animationTimer)
    }

    constructor (x0: real, y0: real)
      ensures State() == NewHero(x0, y0)
    {
      x, y := x0, y0;
      velX, velY := 0.0, 0.0;
      onGround := false;
      health := MaxHealth;
      animationFrame, animationTimer := 0, 0;
      facingRight := true;
      isJumping, isRunning := false, false;
    }

    /** Hero.update (main.py:55-129), with the keyboard passed in. */
    method Update(keys: Keys, platforms: seq<Platform>)
      modifies this
      ensures State() == HeroStep(old(State()), keys, platforms)
    {
      Move(keys);
      ResolveCollisions(platforms);
      AdvanceAnimation();
    }

    /** Input, jump, gravity, integration, world clamp and ground snap (main.py:59-100). */
    method Move(keys: Keys)
      modifies this
      ensures State() == Settle(old(State()), keys)
    {
      Steer(keys);
      Fall();
    }

    /** Horizontal input and the jump (main.py:59-78). */
    method Steer(keys: Keys)
      modifies this
      ensures State() == TryJump(ReadInput(old(State()), keys), keys)
    {
      velX := 0.0;
      if keys.left {
        velX := -PlayerSpeed;
        facingRight := false;
        isRunning := true;
      } else if keys.right {
        velX := PlayerSpeed;
        facingRight := true;
        isRunning := true;
      } else {
        isRunning := false;
      }
      assert State() == ReadInput(old(State()), keys);

      if keys.space && onGround {
        velY := JumpStrength;
        onGround := false;
        isJumping := true;
      }
    }

    /** Gravity, integration, world clamp and ground snap (main.py:80-100). */
    method Fall()
      modifies this
      ensures State() == SnapToGround(ClampToWorld(Integrate(old(State()))))
    {
      velY := velY + Gravity;
      x := x + velX;
      y := y + velY;
      assert State() == Integrate(old(State()));
      ghost var integrated := State();

      if x < 0.0 {
        x := 0.0;
      } else if x > WorldWidth - HeroSize {
        x := WorldWidth - HeroSize;
      }
      assert State() == ClampToWorld(integrated);

      if y >= GroundY {
        y := GroundY;
        velY := 0.0;
        onGround := true;
        isJumping := false;
      } else {
        onGround := false;
      }
    }

    /** The platform loop (main.py:102-123). */
    method ResolveCollisions(platforms: seq<Platform>)
      modifies this
      ensures State() == ResolvePlatforms(old(State()), platforms)
    {
      var i := 0;
      while i < |platforms|
        invariant 0 <= i <= |platforms|
        invariant State() == ResolvePlatforms(old(State()), platforms[..i])
      {
        var p := platforms[i];
        ghost var before := State();
        if x < p.x + p.width && x + HeroSize > p.x && y < p.y + p.height && y + HeroSize > p.y {
          if velY > 0.0 && y < p.y {
            y := p.y - HeroSize;
            velY := 0.0;
            onGround := true;
            isJumping := false;
          } else if velY < 0.0 && y > p.y {
            y := p.y + p.height;
            velY := 0.0;
          } else if velX > 0.0 && x < p.x {
            x := p.x - HeroSize;
          } else if velX < 0.0 && x > p.x {
            x := p.x + p.width;
          }
        }
        assert State() == ResolvePlatform(before, p);
        assert platforms[..i + 1][..i] == platforms[..i];
        i := i + 1;
      }
      assert platforms[..i] == platforms;
    }

    /** The animation counters (main.py:125-129). */
    method AdvanceAnimation()
      modifies this
      ensures State() == Animate(old(State()))
    {
      animationTimer := animationTimer + 1;
      if animationTimer >= 8 {
        animationTimer := 0;
        animationFrame := (animationFrame + 1) % 4;
      }
    }
  }
}
