/** How held keys and replayed samples turn into forces and jumps: the
    platform-contact test shared by the player and the clones, the player's
    key forces, and a clone's replay of a delayed sample. */
module Movement {
  import opened Options
  import opened Bodies
  import opened KeyControls
  import opened InputHistory

  function Abs(r: real): (a: real)
    ensures a >= 0.0 && (a == r || a == -r)
  {
    if r < 0.0 then -r else r
  }

  /** Half the thickness of the band around a platform's reference line in
      which a body counts as standing on it. */
  const ContactTolerance: real := 5.0

  /** Force per unit of recorded intent applied to a clone. */
  const CloneForceScale: real := 0.005

  /** Vertical velocity a clone jumps with. */
  const CloneJumpVelocity: real := -7.0

  /** Horizontal force of a held direction key on the player. */
  const PlayerForce: real := 0.001

  /** Vertical velocity the player jumps with. */
  const PlayerJumpVelocity: real := -10.0

  predicate IsPlatformBox(p: Body)
  {
    p.shape.Rectangle?
  }

  /** The reference line the contact test compares a body's bottom with:
      the platform's centre minus its FULL height (its bounding box's
      `max.y - min.y`), not minus half of it. */
  function ContactLine(p: Body): real
    requires IsPlatformBox(p)
  {
    p.y - p.shape.height
  }

  /** One platform of the `.some` in the contact test. */
  predicate Touches(p: Body, cx: real, cy: real)
    requires IsPlatformBox(p)
  {
    var bottom := cy + BallRadius;
    bottom >= ContactLine(p) - ContactTolerance
    && bottom <= ContactLine(p) + ContactTolerance
    && Abs(p.x - cx) < p.shape.width / 2.0
  }

  /** The contact test: whether a ball centred at (cx, cy) stands on some platform. */
  function OnPlatform(platforms: seq<Body>, cx: real, cy: real): (r: bool)
    requires forall i :: 0 <= i < |platforms| ==> IsPlatformBox(platforms[i])
    ensures r <==> exists i :: 0 <= i < |platforms| && Touches(platforms[i], cx, cy)
    decreases |platforms|
  {
    if platforms == [] then false
    else if Touches(platforms[0], cx, cy) then true
    else
      var rest := OnPlatform(platforms[1..], cx, cy);
      assert forall i :: 1 <= i < |platforms| ==> platforms[i] == platforms[1..][i - 1];
      rest
  }

  /** Because the test subtracts the full height, a ball resting on the top
      face of a platform thicker than 10 units is never found standing on it. */
  lemma RestingOnTopIsNotContact(p: Body, cx: real, cy: real)
    requires IsPlatformBox(p) && p.shape.height > 2.0 * ContactTolerance
    requires cy + BallRadius == p.y - p.shape.height / 2.0
    ensures !Touches(p, cx, cy)
  {
  }

  /** The contact band sits one full height above the platform's centre:
      a bottom edge exactly there, horizontally inside, is in contact. */
  lemma ContactAtReferenceLine(p: Body, cx: real)
    requires IsPlatformBox(p) && p.shape.width > 0.0
    requires cx == p.x
    ensures Touches(p, cx, ContactLine(p) - BallRadius)
  {
  }

  /** The horizontal force from the held keys: right wins over left when
      both are held (the opposite of the recorded intent). */
  function KeyForce(k: KeyState): (f: real)
    ensures k.right ==> f == PlayerForce
    ensures !k.right && k.left ==> f == -PlayerForce
    ensures !k.right && !k.left ==> f == 0.0
  {
    var f := if k.left then -PlayerForce else 0.0;
    if k.right then PlayerForce else f
  }

  /** The player's push and the intent recorded for the clones point the same
      way unless both direction keys are held, when they point opposite ways. */
  lemma RecordedIntentMatchesForce(k: KeyState)
    ensures !(k.left && k.right) ==> KeyForce(k) == (Encode(k).x as real) * PlayerForce
    ensures k.left && k.right ==> Encode(k).x == -1 && KeyForce(k) == PlayerForce
  {
  }

  /** The player-control effect for the held keys: push, then jump if
      standing on a platform. The jump sound is
      played by the caller. */
  function ControlPlayer(player: Body, k: KeyState, platforms: seq<Body>): Body
    requires forall i :: 0 <= i < |platforms| ==> IsPlatformBox(platforms[i])
  {
    var f := KeyForce(k);
    var pushed := if f != 0.0 then ApplyForce(player, f, 0.0) else player;
    if k.jump && OnPlatform(platforms, pushed.x, pushed.y) then
      SetVelocity(pushed, pushed.vx, PlayerJumpVelocity)
    else pushed
  }

  /** What the control effect does to the player's body. */
  lemma ControlPlayerEffect(player: Body, k: KeyState, platforms: seq<Body>)
    requires forall i :: 0 <= i < |platforms| ==> IsPlatformBox(platforms[i])
    ensures var r := ControlPlayer(player, k, platforms);
      && r.fx == player.fx + KeyForce(k) && r.fy == player.fy
      && r.x == player.x && r.y == player.y && r.vx == player.vx
      && r.id == player.id && r.kind == player.kind && r.shape == player.shape
      && (r.vy == if k.jump && OnPlatform(platforms, player.x, player.y) then PlayerJumpVelocity else player.vy)
  {
  }

  /** A clone's body after replaying the delayed sample, if there is one:
      a horizontal force from the recorded intent, and on a recorded jump a
      velocity override while standing on a platform. */
  function Replay(b: Body, sample: Option<Sample>, platforms: seq<Body>): Body
    requires forall i :: 0 <= i < |platforms| ==> IsPlatformBox(platforms[i])
  {
    match sample
    case None => b
    case Some(s) =>
      var pushed := ApplyForce(b, (s.action.x as real) * CloneForceScale, 0.0);
      if s.action.y < 0 && OnPlatform(platforms, pushed.x, pushed.y) then
        SetVelocity(pushed, pushed.vx, CloneJumpVelocity)
      else pushed
  }

  /** What replay does to a clone's body: nothing without a sample; with one,
      the scaled force, and the jump velocity exactly when the sample asks to
      jump and the clone stands on a platform. Position never changes. */
  lemma ReplayEffect(b: Body, sample: Option<Sample>, platforms: seq<Body>)
    requires forall i :: 0 <= i < |platforms| ==> IsPlatformBox(platforms[i])
    ensures sample.None? ==> Replay(b, sample, platforms) == b
    ensures sample.Some? ==>
      var r := Replay(b, sample, platforms);
      var jumps := sample.value.action.y < 0 && OnPlatform(platforms, b.x, b.y);
      && r.fx == b.fx + (sample.value.action.x as real) * CloneForceScale && r.fy == b.fy
      && r.x == b.x && r.y == b.y && r.vx == b.vx
      && r.vy == (if jumps then CloneJumpVelocity else b.vy)
      && r.id == b.id && r.kind == b.kind && r.shape == b.shape
  {
  }
}
