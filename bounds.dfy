/** The player's boundary rules: horizontal wrap-around at the canvas edges,
    and a reset to the centre, with a life lost, after falling more than 50
    units below the bottom edge. */
module Bounds {
  import opened Bodies

  /** How far below the bottom edge the player may fall before it counts. */
  const FallMargin: real := 50.0

  datatype Checked = Checked(player: Body, fell: bool)

  /** `checkBounds` on the player's body. Both wrap tests read the position
      from before either wrap, and the fall test reads the height from
      before too. */
  function CheckBounds(p: Body, width: real, height: real): (r: Checked)
    requires width >= 0.0 && height >= 0.0
    ensures r.fell <==> p.y > height + FallMargin
    ensures 0.0 <= r.player.x <= width
    ensures r.player.y <= height + FallMargin
    ensures !r.fell ==> r.player == p.(x := r.player.x)
    ensures !r.fell && 0.0 <= p.x <= width ==> r.player == p
    ensures !r.fell && p.x < 0.0 ==> r.player.x == width
    ensures !r.fell && p.x > width ==> r.player.x == 0.0
    ensures r.fell ==> r.player == p.(x := width / 2.0, y := height / 2.0, vx := 0.0, vy := 0.0)
    ensures r.player.id == p.id && r.player.kind == p.kind && r.player.shape == p.shape
  {
    var x := p.x;
    var y := p.y;
    var q1 := if x < 0.0 then SetPosition(p, width, y) else p;
    var q2 := if x > width then SetPosition(q1, 0.0, y) else q1;
    if y > height + FallMargin then
      Checked(SetVelocity(SetPosition(q2, width / 2.0, height / 2.0), 0.0, 0.0), true)
    else
      Checked(q2, false)
  }

  /** A check right after another one changes nothing. */
  lemma CheckBoundsIdempotent(p: Body, width: real, height: real)
    requires width >= 0.0 && height >= 0.0
    ensures var once := CheckBounds(p, width, height).player;
      CheckBounds(once, width, height) == Checked(once, false)
  {
  }

  /** A player at x = -1 on an 800-wide canvas reappears at x = 800, same height. */
  lemma WrapExample(p: Body)
    requires p.x == -1.0 && p.y == 300.0
    ensures CheckBounds(p, 800.0, 600.0).player == p.(x := 800.0)
  {
  }
}
