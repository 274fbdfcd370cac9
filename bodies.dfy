/** The physics world's bodies, as plain records. The matter-js engine owns
    the real objects; the game only reads their labels, positions and
    velocities, and sets positions, velocities and forces. */
module Bodies {

  type BodyId = nat

  /** What a body's label says it is (`player`, `platform_*`, `enemy_*`,
      `scroll_*`, `clone_*`). */
  datatype Kind = Player | Platform | Enemy | Scroll | Clone

  datatype Shape =
    | Circle(radius: real)
    | Triangle(radius: real)
    | Rectangle(width: real, height: real)

  /** Position, velocity and the force accumulated for the next engine step. */
  datatype Body = Body(
    id: BodyId, kind: Kind, shape: Shape,
    x: real, y: real,
    vx: real, vy: real,
    fx: real, fy: real)

  /** The sound cues the game plays. */
  datatype Sound =
    | JumpSound | BounceSound | CloneSound | CollectSound | HitSound | FallSound | EnemyDefeatSound

  /** Radius of the player's and the clones' circles. */
  const BallRadius: real := 15.0

  /** `Body.applyForce` at the body's own position: the force is added to
      what has accumulated (no torque, since the offset is zero). */
  function ApplyForce(b: Body, fx: real, fy: real): (r: Body)
    ensures r.fx == b.fx + fx && r.fy == b.fy + fy
    ensures r.(fx := b.fx, fy := b.fy) == b
  {
    b.(fx := b.fx + fx, fy := b.fy + fy)
  }

  /** `Body.setVelocity`: the velocity is overwritten; nothing else changes. */
  function SetVelocity(b: Body, vx: real, vy: real): (r: Body)
    ensures r.vx == vx && r.vy == vy
    ensures r.(vx := b.vx, vy := b.vy) == b
  {
    b.(vx := vx, vy := vy)
  }

  /** `Body.setPosition`: the position is overwritten; the velocity and
      everything else stay as they were. */
  function SetPosition(b: Body, x: real, y: real): (r: Body)
    ensures r.x == x && r.y == y
    ensures r.(x := b.x, y := b.y) == b
  {
    b.(x := x, y := y)
  }

  /** The identifiers of a list of bodies. */
  function Ids(s: seq<Body>): (r: set<BodyId>)
    ensures forall i :: 0 <= i < |s| ==> s[i].id in r
    ensures forall id :: id in r ==> exists i :: 0 <= i < |s| && s[i].id == id
  {
    set i | 0 <= i < |s| :: s[i].id
  }

  /** Every body of the list carries kind `k`, and so does its label. */
  predicate Tagged(bs: seq<Body>, k: Kind, labels: map<BodyId, Kind>)
  {
    forall i :: 0 <= i < |bs| ==> bs[i].kind == k && bs[i].id in labels && labels[bs[i].id] == k
  }

  /** A body whose label is not `k` is not in a list tagged `k`. */
  lemma NotTagged(bs: seq<Body>, k: Kind, labels: map<BodyId, Kind>, id: BodyId)
    requires Tagged(bs, k, labels) && id in labels && labels[id] != k
    ensures id !in Ids(bs)
  {
  }

  /** Appending a body adds exactly its identifier. */
  lemma IdsAppend(s: seq<Body>, b: Body)
    ensures Ids(s + [b]) == Ids(s) + {b.id}
  {
    var r := s + [b];
    assert r[|s|] == b;
    forall x | x in Ids(s)
      ensures x in Ids(r)
    {
      var i :| 0 <= i < |s| && s[i].id == x;
      assert r[i] == s[i];
    }
  }
}
