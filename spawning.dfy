/** The bodies the game creates: the player and the four platforms when the
    world is set up, and enemies and chakra scrolls at random during play.
    The random draws (`Math.random()`, a value in [0, 1)) are parameters. */
module Spawning {
  import opened Bodies

  predicate IsDraw(r: real)
  {
    0.0 <= r < 1.0
  }

  /** A draw scaled to [0, w). */
  lemma ScaledDraw(r: real, w: real)
    requires IsDraw(r) && w >= 0.0
    ensures 0.0 <= r * w <= w && (w > 0.0 ==> r * w < w)
  {
    assert w - r * w == (1.0 - r) * w;
    if w > 0.0 {
      assert (1.0 - r) * w > 0.0;
    }
  }

  /** Per-tick chances of spawning an enemy and a scroll. */
  const EnemyChance: real := 0.02
  const ScrollChance: real := 0.03

  const EnemyRadius: real := 15.0
  const ScrollRadius: real := 10.0

  /** The player: a ball in the middle of the canvas, at rest. */
  function NewPlayer(id: BodyId, width: real, height: real): (b: Body)
    ensures b.id == id && b.kind == Player && b.shape == Circle(BallRadius)
    ensures b.x == width / 2.0 && b.y == height / 2.0
    ensures b.vx == 0.0 && b.vy == 0.0 && b.fx == 0.0 && b.fy == 0.0
  {
    Body(id, Player, Circle(BallRadius), width / 2.0, height / 2.0, 0.0, 0.0, 0.0, 0.0)
  }

  function NewPlatform(id: BodyId, x: real, y: real, w: real, h: real): Body
  {
    Body(id, Platform, Rectangle(w, h), x, y, 0.0, 0.0, 0.0, 0.0)
  }

  /** The ground and three floating platforms, numbered from `first`. */
  function InitialPlatforms(first: BodyId, width: real, height: real): (ps: seq<Body>)
    ensures |ps| == 4
    ensures forall i :: 0 <= i < 4 ==> ps[i].id == first + i && ps[i].kind == Platform && ps[i].shape.Rectangle?
    ensures ps[0].shape == Rectangle(width, 20.0) && ps[0].y == height - 20.0
  {
    [ NewPlatform(first, width / 2.0, height - 20.0, width, 20.0),
      NewPlatform(first + 1, width / 4.0, height - 120.0, 200.0, 15.0),
      NewPlatform(first + 2, width * 0.75, height - 220.0, 200.0, 15.0),
      NewPlatform(first + 3, width / 2.0, height - 320.0, 150.0, 15.0) ]
  }

  /** `spawnEnemy`: a triangle at a random x along the top edge, thrown with a
      random velocity. */
  function NewEnemy(id: BodyId, width: real, rx: real, rvx: real, rvy: real): (b: Body)
    requires IsDraw(rx) && IsDraw(rvx) && IsDraw(rvy) && width >= 0.0
    ensures b.id == id && b.kind == Enemy && b.shape == Triangle(EnemyRadius)
    ensures 0.0 <= b.x <= width && (width > 0.0 ==> b.x < width)
    ensures b.y == 0.0
    ensures -2.5 <= b.vx < 2.5
    ensures 1.0 <= b.vy < 3.0
    ensures b.fx == 0.0 && b.fy == 0.0
  {
    ScaledDraw(rx, width);
    Body(id, Enemy, Triangle(EnemyRadius), rx * width, 0.0, (rvx - 0.5) * 5.0, rvy * 2.0 + 1.0, 0.0, 0.0)
  }

  /** `spawnChakraScroll`: a small ball at rest somewhere in the upper half. */
  function NewScroll(id: BodyId, width: real, height: real, rx: real, ry: real): (b: Body)
    requires IsDraw(rx) && IsDraw(ry) && width >= 0.0 && height >= 0.0
    ensures b.id == id && b.kind == Scroll && b.shape == Circle(ScrollRadius)
    ensures 0.0 <= b.x <= width && (width > 0.0 ==> b.x < width)
    ensures 0.0 <= b.y <= height / 2.0 && (height > 0.0 ==> b.y < height / 2.0)
    ensures b.vx == 0.0 && b.vy == 0.0 && b.fx == 0.0 && b.fy == 0.0
  {
    ScaledDraw(rx, width);
    var half := height / 2.0;
    assert half >= 0.0 && (height > 0.0 ==> half > 0.0);
    ScaledDraw(ry, half);
    Body(id, Scroll, Circle(ScrollRadius), rx * width, ry * half, 0.0, 0.0, 0.0, 0.0)
  }

  /** The random draws of one tick: whether to spawn each kind, and where. */
  datatype Draws = Draws(
    enemyRoll: real, enemyX: real, enemyVx: real, enemyVy: real,
    scrollRoll: real, scrollX: real, scrollY: real)

  predicate ValidDraws(d: Draws)
  {
    IsDraw(d.enemyRoll) && IsDraw(d.enemyX) && IsDraw(d.enemyVx) && IsDraw(d.enemyVy)
    && IsDraw(d.scrollRoll) && IsDraw(d.scrollX) && IsDraw(d.scrollY)
  }
}
