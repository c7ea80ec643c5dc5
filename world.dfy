/**
 * World constants, axis-aligned boxes, platforms and the camera of the
 * platformer in main.py. Everything here is a pure value or function.
 */
module WorldModel {

  /** Viewport size (WIDTH, HEIGHT). */
  const ViewWidth: real := 1000.0
  const ViewHeight: real := 600.0
  /** Downward acceleration added to vertical velocity every tick. */
  const Gravity: real := 0.8
  const JumpStrength: real := -15.0
  const PlayerSpeed: real := 5.0
  const EnemySpeed: real := 2.0
  const WorldWidth: real := 2000.0
  /** The ground line: the top y that a body is snapped to (HEIGHT - 100). */
  const GroundY: real := ViewHeight - 100.0
  /** Half the viewport (WIDTH // 2): the camera keeps the hero at this offset. */
  const HalfView: real := 500.0
  /** The largest camera offset, WORLD_WIDTH - WIDTH. */
  const CameraMax: real := WorldWidth - ViewWidth

  /** An axis-aligned rectangle; y grows downward. */
  datatype Box = Box(x: real, y: real, width: real, height: real)

  /** The AABB test written out at main.py:104-107, 247-250, 567-570 and 578-581: strict on all four sides. */
  predicate Overlaps(a: Box, b: Box)
  {
    a.x < b.x + b.width && a.x + a.width > b.x &&
    a.y < b.y + b.height && a.y + a.height > b.y
  }

  /** The point (px, py) lies in the open interior of b. */
  predicate Inside(b: Box, px: real, py: real)
  {
    b.x < px < b.x + b.width && b.y < py < b.y + b.height
  }

  predicate Proper(b: Box)
  {
    b.width > 0.0 && b.height > 0.0
  }

  function Min(a: real, b: real): real { if a <= b then a else b }
  function Max(a: real, b: real): real { if a <= b then b else a }

  /** |a - b|, Python's abs(a - b). */
  function Dist(a: real, b: real): (d: real)
    ensures d >= 0.0
    ensures d == a - b || d == b - a
  {
    if a >= b then a - b else b - a
  }

  /**
   * The strict AABB test means exactly that the two boxes share an interior
   * point, for boxes of positive size (every box the game builds).
   */
  lemma OverlapsIffSharedInterior(a: Box, b: Box)
    requires Proper(a) && Proper(b)
    ensures Overlaps(a, b) <==> exists px, py :: Inside(a, px, py) && Inside(b, px, py)
  {
    if Overlaps(a, b) {
      var lx, hx := Max(a.x, b.x), Min(a.x + a.width, b.x + b.width);
      var ly, hy := Max(a.y, b.y), Min(a.y + a.height, b.y + b.height);
      var px, py := (lx + hx) / 2.0, (ly + hy) / 2.0;
      assert Inside(a, px, py) && Inside(b, px, py);
    }
  }

  /** The overlap test does not depend on which box is the hero. */
  lemma OverlapsSymmetric(a: Box, b: Box)
    ensures Overlaps(a, b) <==> Overlaps(b, a)
  {
  }

  /** A static platform rectangle; never changed after it is built. */
  datatype Platform = Platform(x: real, y: real, width: real, height: real)
  {
    function Bounds(): Box { Box(x, y, width, height) }
  }

  /**
   * The camera offset for a hero at heroX: heroX - WIDTH // 2, clamped to
   * [0, WORLD_WIDTH - WIDTH].
   */
  function CameraFor(heroX: real): (c: real)
    ensures 0.0 <= c <= CameraMax
    ensures 0.0 <= heroX - HalfView <= CameraMax ==> c == heroX - HalfView
    ensures heroX - HalfView < 0.0 ==> c == 0.0
    ensures heroX - HalfView > CameraMax ==> c == CameraMax
  {
    var c := heroX - HalfView;
    if c < 0.0 then 0.0 else if c > CameraMax then CameraMax else c
  }

  /** Of all offsets in range, the camera is the one closest to centring the hero. */
  lemma CameraIsNearestInRange(heroX: real, z: real)
    requires 0.0 <= z <= CameraMax
    ensures Dist(CameraFor(heroX), heroX - HalfView) <= Dist(z, heroX - HalfView)
  {
  }

  /** The camera never moves left when the hero moves right. */
  lemma CameraMonotone(a: real, b: real)
    requires a <= b
    ensures CameraFor(a) <= CameraFor(b)
  {
  }
}
