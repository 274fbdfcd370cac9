/** The collision handler: each pair of bodies that began touching is
    classified by who is the player (by identity), who is a live clone (by
    membership in the clone list) and what the other body's label says, and
    turned into score and life changes, sound cues and removals from the
    world and from the enemy and scroll lists. */
module Collisions {
  import opened Seqs
  import opened Options
  import opened Bodies
  import GameContext

  /** A pair reported by the engine's `collisionStart` event. */
  datatype Pair = Pair(a: BodyId, b: BodyId)

  /** What the handler changes: the world's membership, the tracked enemy and
      scroll lists, the score and lives cells, and the cues played. */
  datatype Tracked = Tracked(
    world: set<BodyId>,
    enemies: seq<Body>,
    scrolls: seq<Body>,
    score: int,
    lives: int,
    sounds: seq<Sound>)

  /** What the handler reads but never changes: the player's identity, the
      live clones' bodies in list order, and the label of every body ever
      created (a body keeps its label after it leaves the world). */
  datatype Scene = Scene(player: BodyId, clones: seq<BodyId>, labels: map<BodyId, Kind>)

  predicate WellFormed(sc: Scene)
  {
    && sc.player in sc.labels && sc.labels[sc.player] == Player
    && forall i :: 0 <= i < |sc.clones| ==> sc.clones[i] in sc.labels && sc.labels[sc.clones[i]] == Clone
  }

  predicate Labelled(sc: Scene, p: Pair)
  {
    p.a in sc.labels && p.b in sc.labels
  }

  const PlayerScrollPoints := 10
  const ClonePoints := 5

  /** The filter test that forgets one body. */
  function NotBody(id: BodyId): Body -> bool
  {
    (b: Body) => b.id != id
  }

  /** A list without the body `id`. */
  function Without(s: seq<Body>, id: BodyId): seq<Body>
  {
    Filter(s, NotBody(id))
  }

  /** Forgetting a body removes exactly that identifier, keeps every other
      body in order, and forgetting it again changes nothing. */
  lemma WithoutRemovesExactly(s: seq<Body>, id: BodyId)
    ensures Ids(Without(s, id)) == Ids(s) - {id}
    ensures forall b :: b in Without(s, id) <==> b in s && b.id != id
    ensures Without(Without(s, id), id) == Without(s, id)
  {
    FilterIdempotent(s, NotBody(id));
    var r := Without(s, id);
    forall x | x in Ids(s) - {id}
      ensures x in Ids(r)
    {
      var i :| 0 <= i < |s| && s[i].id == x;
      assert s[i] in r;
      var j :| 0 <= j < |r| && r[j] == s[i];
    }
    forall x | x in Ids(r)
      ensures x in Ids(s) - {id}
    {
      var j :| 0 <= j < |r| && r[j].id == x;
      assert r[j] in s;
      var i :| 0 <= i < |s| && s[i] == r[j];
    }
  }

  /** `World.remove` plus the filter of `enemiesRef`. */
  function RemoveEnemy(t: Tracked, id: BodyId): Tracked
  {
    t.(world := t.world - {id}, enemies := Without(t.enemies, id))
  }

  /** `World.remove` plus the filter of `scrollsRef`. */
  function RemoveScroll(t: Tracked, id: BodyId): Tracked
  {
    t.(world := t.world - {id}, scrolls := Without(t.scrolls, id))
  }

  /** Removing a body that is already gone changes nothing. */
  lemma RemovalIsIdempotent(t: Tracked, id: BodyId)
    ensures RemoveEnemy(RemoveEnemy(t, id), id) == RemoveEnemy(t, id)
    ensures RemoveScroll(RemoveScroll(t, id), id) == RemoveScroll(t, id)
  {
    WithoutRemovesExactly(t.enemies, id);
    WithoutRemovesExactly(t.scrolls, id);
  }

  /** The first live clone whose body is one of the pair's two bodies.
      (When both bodies are clones, which one is found does not matter: the
      other is then a clone too, and a clone pair has no effect.) */
  function FindClone(clones: seq<BodyId>, a: BodyId, b: BodyId): (r: Option<BodyId>)
    ensures r.None? <==> a !in clones && b !in clones
    ensures r.Some? ==> (r.value == a || r.value == b) && r.value in clones
    decreases |clones|
  {
    if clones == [] then None
    else if clones[0] == a || clones[0] == b then Some(clones[0])
    else
      FindClone(clones[1..], a, b)
  }

  function AddPoints(t: Tracked, points: int, cue: Sound): Tracked
  {
    t.(score := t.score + points, sounds := t.sounds + [cue])
  }

  /** The player lands on a platform: the bounce cue. */
  function BounceTest(t: Tracked, sc: Scene, p: Pair): Tracked
    requires Labelled(sc, p)
  {
    if (p.a == sc.player && sc.labels[p.b] == Platform) || (p.b == sc.player && sc.labels[p.a] == Platform)
    then t.(sounds := t.sounds + [BounceSound])
    else t
  }

  /** The player runs into an enemy: a life lost, the hit cue, the enemy removed. */
  function EnemyTest(t: Tracked, sc: Scene, p: Pair): Tracked
    requires Labelled(sc, p)
  {
    if (p.a == sc.player && sc.labels[p.b] == Enemy) || (p.b == sc.player && sc.labels[p.a] == Enemy)
    then
      var enemy := if sc.labels[p.a] == Enemy then p.a else p.b;
      RemoveEnemy(t.(lives := GameContext.LoseLife(t.lives), sounds := t.sounds + [HitSound]), enemy)
    else t
  }

  /** The player picks up a scroll: ten points, the collect cue, the scroll removed. */
  function ScrollTest(t: Tracked, sc: Scene, p: Pair): Tracked
    requires Labelled(sc, p)
  {
    if (p.a == sc.player && sc.labels[p.b] == Scroll) || (p.b == sc.player && sc.labels[p.a] == Scroll)
    then
      var scroll := if sc.labels[p.a] == Scroll then p.a else p.b;
      RemoveScroll(AddPoints(t, PlayerScrollPoints, CollectSound), scroll)
    else t
  }

  /** A live clone hits an enemy or picks up a scroll: five points either
      way, the matching cue, the other body removed. */
  function CloneTest(t: Tracked, sc: Scene, p: Pair): Tracked
    requires Labelled(sc, p)
  {
    match FindClone(sc.clones, p.a, p.b)
    case None => t
    case Some(c) =>
      var other := if c == p.a then p.b else p.a;
      var t1 :=
        if sc.labels[other] == Enemy
        then RemoveEnemy(AddPoints(t, ClonePoints, EnemyDefeatSound), other)
        else t;
      if sc.labels[other] == Scroll
      then RemoveScroll(AddPoints(t1, ClonePoints, CollectSound), other)
      else t1
  }

  /** One pair: the four independent tests of the loop body, in order. */
  function Resolve(t: Tracked, sc: Scene, p: Pair): Tracked
    requires Labelled(sc, p)
  {
    CloneTest(ScrollTest(EnemyTest(BounceTest(t, sc, p), sc, p), sc, p), sc, p)
  }

  predicate AllLabelled(sc: Scene, pairs: seq<Pair>)
  {
    forall i :: 0 <= i < |pairs| ==> Labelled(sc, pairs[i])
  }

  /** The pairs of one event, handled in order. */
  function ResolveAll(t: Tracked, sc: Scene, pairs: seq<Pair>): Tracked
    requires AllLabelled(sc, pairs)
    decreases |pairs|
  {
    if pairs == [] then t
    else ResolveAll(Resolve(t, sc, pairs[0]), sc, pairs[1..])
  }

  /** The player against an enemy, in either order: one life lost (never
      below zero), the hit cue, and the enemy gone from world and list. */
  lemma PlayerHitsEnemy(t: Tracked, sc: Scene, e: BodyId)
    requires WellFormed(sc) && e in sc.labels && sc.labels[e] == Enemy
    ensures var r := RemoveEnemy(t.(lives := GameContext.LoseLife(t.lives), sounds := t.sounds + [HitSound]), e);
      Resolve(t, sc, Pair(sc.player, e)) == r && Resolve(t, sc, Pair(e, sc.player)) == r
  {
    NotAClone(sc, sc.player);
    NotAClone(sc, e);
  }

  /** The player against a scroll: ten points, the collect cue, the scroll gone. */
  lemma PlayerCollectsScroll(t: Tracked, sc: Scene, s: BodyId)
    requires WellFormed(sc) && s in sc.labels && sc.labels[s] == Scroll
    ensures var r := RemoveScroll(AddPoints(t, PlayerScrollPoints, CollectSound), s);
      Resolve(t, sc, Pair(sc.player, s)) == r && Resolve(t, sc, Pair(s, sc.player)) == r
  {
    NotAClone(sc, sc.player);
    NotAClone(sc, s);
  }

  /** The player against a platform: only the bounce cue. */
  lemma PlayerBouncesOnPlatform(t: Tracked, sc: Scene, q: BodyId)
    requires WellFormed(sc) && q in sc.labels && sc.labels[q] == Platform
    ensures var r := t.(sounds := t.sounds + [BounceSound]);
      Resolve(t, sc, Pair(sc.player, q)) == r && Resolve(t, sc, Pair(q, sc.player)) == r
  {
    NotAClone(sc, sc.player);
    NotAClone(sc, q);
  }

  /** A live clone against an enemy: five points, the defeat cue, the enemy gone. */
  lemma CloneDefeatsEnemy(t: Tracked, sc: Scene, c: BodyId, e: BodyId)
    requires WellFormed(sc) && c in sc.clones && e in sc.labels && sc.labels[e] == Enemy
    ensures var r := RemoveEnemy(AddPoints(t, ClonePoints, EnemyDefeatSound), e);
      Resolve(t, sc, Pair(c, e)) == r && Resolve(t, sc, Pair(e, c)) == r
  {
    CloneLabel(sc, c);
    NotAClone(sc, e);
  }

  /** A live clone against a scroll: five points, the collect cue, the scroll gone. */
  lemma CloneCollectsScroll(t: Tracked, sc: Scene, c: BodyId, s: BodyId)
    requires WellFormed(sc) && c in sc.clones && s in sc.labels && sc.labels[s] == Scroll
    ensures var r := RemoveScroll(AddPoints(t, ClonePoints, CollectSound), s);
      Resolve(t, sc, Pair(c, s)) == r && Resolve(t, sc, Pair(s, c)) == r
  {
    CloneLabel(sc, c);
    NotAClone(sc, s);
  }

  /** A pair that involves neither the player nor a live clone changes nothing. */
  lemma UninvolvedPairIsIgnored(t: Tracked, sc: Scene, p: Pair)
    requires Labelled(sc, p)
    requires p.a != sc.player && p.b != sc.player
    requires p.a !in sc.clones && p.b !in sc.clones
    ensures Resolve(t, sc, p) == t
  {
  }

  /** The player against a live clone changes nothing. */
  lemma PlayerMeetsCloneIsIgnored(t: Tracked, sc: Scene, c: BodyId)
    requires WellFormed(sc) && c in sc.clones
    ensures Resolve(t, sc, Pair(sc.player, c)) == t
    ensures Resolve(t, sc, Pair(c, sc.player)) == t
  {
    CloneLabel(sc, c);
    NotAClone(sc, sc.player);
  }

  lemma CloneLabel(sc: Scene, c: BodyId)
    requires WellFormed(sc) && c in sc.clones
    ensures c in sc.labels && sc.labels[c] == Clone
  {
    var i :| 0 <= i < |sc.clones| && sc.clones[i] == c;
  }

  lemma NotAClone(sc: Scene, x: BodyId)
    requires WellFormed(sc) && x in sc.labels && sc.labels[x] != Clone
    ensures x !in sc.clones
  {
    if x in sc.clones {
      CloneLabel(sc, x);
    }
  }

  /** What one pair can and cannot do. */
  predicate Follows(t: Tracked, r: Tracked)
  {
    && r.score >= t.score
    && (t.lives >= 0 ==> 0 <= r.lives <= t.lives)
    && (t.lives < 0 ==> r.lives == t.lives || r.lives == 0)
    && r.world <= t.world
    && Ids(r.enemies) <= Ids(t.enemies)
    && Ids(r.scrolls) <= Ids(t.scrolls)
    && t.sounds <= r.sounds
  }

  lemma FollowsTransitive(t: Tracked, u: Tracked, v: Tracked)
    requires Follows(t, u) && Follows(u, v)
    ensures Follows(t, v)
  {
  }

  lemma RemoveEnemyFollows(t: Tracked, id: BodyId)
    ensures Follows(t, RemoveEnemy(t, id))
  {
    WithoutRemovesExactly(t.enemies, id);
  }

  lemma RemoveScrollFollows(t: Tracked, id: BodyId)
    ensures Follows(t, RemoveScroll(t, id))
  {
    WithoutRemovesExactly(t.scrolls, id);
  }

  /** A single pair never takes points away, never gives a life back, never
      lets lives go below zero, and only ever removes bodies. */
  lemma ResolveFollows(t: Tracked, sc: Scene, p: Pair)
    requires Labelled(sc, p)
    ensures Follows(t, Resolve(t, sc, p))
  {
    var t1 := BounceTest(t, sc, p);
    var t2 := EnemyTest(t1, sc, p);
    var t3 := ScrollTest(t2, sc, p);
    assert Follows(t, t1);
    if t2 != t1 {
      var hit := t1.(lives := GameContext.LoseLife(t1.lives), sounds := t1.sounds + [HitSound]);
      RemoveEnemyFollows(hit, if sc.labels[p.a] == Enemy then p.a else p.b);
    }
    FollowsTransitive(t, t1, t2);
    if t3 != t2 {
      RemoveScrollFollows(AddPoints(t2, PlayerScrollPoints, CollectSound), if sc.labels[p.a] == Scroll then p.a else p.b);
    }
    FollowsTransitive(t, t2, t3);
    CloneTestFollows(t3, sc, p);
    FollowsTransitive(t, t3, Resolve(t, sc, p));
  }

  lemma CloneTestFollows(t: Tracked, sc: Scene, p: Pair)
    requires Labelled(sc, p)
    ensures Follows(t, CloneTest(t, sc, p))
  {
    match FindClone(sc.clones, p.a, p.b)
    case None =>
    case Some(c) =>
      var other := if c == p.a then p.b else p.a;
      var t1 := t;
      if sc.labels[other] == Enemy {
        RemoveEnemyFollows(AddPoints(t, ClonePoints, EnemyDefeatSound), other);
        t1 := RemoveEnemy(AddPoints(t, ClonePoints, EnemyDefeatSound), other);
      }
      if sc.labels[other] == Scroll {
        RemoveScrollFollows(AddPoints(t1, ClonePoints, CollectSound), other);
        FollowsTransitive(t, t1, RemoveScroll(AddPoints(t1, ClonePoints, CollectSound), other));
      }
  }

  /** The same over all the pairs of an event. */
  lemma {:induction false} ResolveAllFollows(t: Tracked, sc: Scene, pairs: seq<Pair>)
    requires AllLabelled(sc, pairs)
    ensures Follows(t, ResolveAll(t, sc, pairs))
    decreases |pairs|
  {
    if pairs != [] {
      var u := Resolve(t, sc, pairs[0]);
      ResolveFollows(t, sc, pairs[0]);
      ResolveAllFollows(u, sc, pairs[1..]);
      FollowsTransitive(t, u, ResolveAll(u, sc, pairs[1..]));
    }
  }

  /** Handling a pair twice over removes nothing more: a body removed by the
      first pass stays removed and is not removed "again" from any list. */
  lemma {:induction false} RemovedStaysRemoved(t: Tracked, sc: Scene, pairs: seq<Pair>, id: BodyId)
    requires AllLabelled(sc, pairs)
    requires id !in t.world && id !in Ids(t.enemies) && id !in Ids(t.scrolls)
    ensures var r := ResolveAll(t, sc, pairs);
      id !in r.world && id !in Ids(r.enemies) && id !in Ids(r.scrolls)
  {
    ResolveAllFollows(t, sc, pairs);
  }

  /** As written, removal does not stop scoring: a scroll that touches the
      player and a live clone in the same event is removed once but pays
      out twice, ten points and then five. */
  lemma ScrollTouchedTwiceInOneEventPaysTwice(t: Tracked, sc: Scene, c: BodyId, s: BodyId)
    requires WellFormed(sc) && c in sc.clones && s in sc.labels && sc.labels[s] == Scroll
    ensures var r := ResolveAll(t, sc, [Pair(sc.player, s), Pair(c, s)]);
      r.score == t.score + PlayerScrollPoints + ClonePoints
      && s !in r.world && s !in Ids(r.scrolls)
      && r.sounds == t.sounds + [CollectSound, CollectSound]
  {
    PlayerCollectsScroll(t, sc, s);
    var u := Resolve(t, sc, Pair(sc.player, s));
    CloneCollectsScroll(u, sc, c, s);
    var pairs := [Pair(sc.player, s), Pair(c, s)];
    assert pairs[1..] == [Pair(c, s)];
    assert pairs[1..][1..] == [];
    assert ResolveAll(t, sc, pairs) == ResolveAll(u, sc, [Pair(c, s)]);
    assert ResolveAll(u, sc, [Pair(c, s)]) == ResolveAll(Resolve(u, sc, Pair(c, s)), sc, []);
    WithoutRemovesExactly(t.scrolls, s);
    WithoutRemovesExactly(u.scrolls, s);
  }

  /** The world holds exactly the bodies the handler never removes (`fixed`:
      the player, the platforms and the live clones) and the tracked enemies
      and scrolls; the two lists hold only what their labels say. */
  predicate Coherent(world: set<BodyId>, enemies: seq<Body>, scrolls: seq<Body>,
                     labels: map<BodyId, Kind>, fixed: set<BodyId>)
  {
    && world == fixed + Ids(enemies) + Ids(scrolls)
    && Tagged(enemies, Enemy, labels)
    && Tagged(scrolls, Scroll, labels)
    && forall id :: id in fixed ==> id in labels && labels[id] != Enemy && labels[id] != Scroll
  }

  predicate CoherentState(t: Tracked, sc: Scene, fixed: set<BodyId>)
  {
    Coherent(t.world, t.enemies, t.scrolls, sc.labels, fixed)
  }

  lemma RemoveEnemyCoherent(t: Tracked, sc: Scene, fixed: set<BodyId>, e: BodyId)
    requires CoherentState(t, sc, fixed) && e in sc.labels && sc.labels[e] == Enemy
    ensures CoherentState(RemoveEnemy(t, e), sc, fixed)
  {
    WithoutRemovesExactly(t.enemies, e);
    NotTagged(t.scrolls, Scroll, sc.labels, e);
    var r := Without(t.enemies, e);
    forall i | 0 <= i < |r|
      ensures r[i].kind == Enemy && r[i].id in sc.labels && sc.labels[r[i].id] == Enemy
    {
      assert r[i] in t.enemies;
    }
  }

  lemma RemoveScrollCoherent(t: Tracked, sc: Scene, fixed: set<BodyId>, s: BodyId)
    requires CoherentState(t, sc, fixed) && s in sc.labels && sc.labels[s] == Scroll
    ensures CoherentState(RemoveScroll(t, s), sc, fixed)
  {
    WithoutRemovesExactly(t.scrolls, s);
    NotTagged(t.enemies, Enemy, sc.labels, s);
    var r := Without(t.scrolls, s);
    forall i | 0 <= i < |r|
      ensures r[i].kind == Scroll && r[i].id in sc.labels && sc.labels[r[i].id] == Scroll
    {
      assert r[i] in t.scrolls;
    }
  }

  /** Handling a pair keeps the world and the two lists in step: whatever
      leaves one leaves the others, and nothing else leaves. */
  lemma ResolveCoherent(t: Tracked, sc: Scene, fixed: set<BodyId>, p: Pair)
    requires Labelled(sc, p) && CoherentState(t, sc, fixed)
    ensures CoherentState(Resolve(t, sc, p), sc, fixed)
  {
    var t1 := BounceTest(t, sc, p);
    var t2 := EnemyTest(t1, sc, p);
    if t2 != t1 {
      var hit := t1.(lives := GameContext.LoseLife(t1.lives), sounds := t1.sounds + [HitSound]);
      RemoveEnemyCoherent(hit, sc, fixed, if sc.labels[p.a] == Enemy then p.a else p.b);
    }
    var t3 := ScrollTest(t2, sc, p);
    if t3 != t2 {
      RemoveScrollCoherent(AddPoints(t2, PlayerScrollPoints, CollectSound), sc, fixed,
                           if sc.labels[p.a] == Scroll then p.a else p.b);
    }
    match FindClone(sc.clones, p.a, p.b)
    case None =>
    case Some(c) =>
      var other := if c == p.a then p.b else p.a;
      var t4 := t3;
      if sc.labels[other] == Enemy {
        RemoveEnemyCoherent(AddPoints(t3, ClonePoints, EnemyDefeatSound), sc, fixed, other);
        t4 := RemoveEnemy(AddPoints(t3, ClonePoints, EnemyDefeatSound), other);
      }
      if sc.labels[other] == Scroll {
        RemoveScrollCoherent(AddPoints(t4, ClonePoints, CollectSound), sc, fixed, other);
      }
  }

  lemma {:induction false} ResolveAllCoherent(t: Tracked, sc: Scene, fixed: set<BodyId>, pairs: seq<Pair>)
    requires AllLabelled(sc, pairs) && CoherentState(t, sc, fixed)
    ensures CoherentState(ResolveAll(t, sc, pairs), sc, fixed)
    decreases |pairs|
  {
    if pairs != [] {
      ResolveCoherent(t, sc, fixed, pairs[0]);
      ResolveAllCoherent(Resolve(t, sc, pairs[0]), sc, fixed, pairs[1..]);
    }
  }
}
