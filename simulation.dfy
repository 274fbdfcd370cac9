/** The game screen's own bookkeeping around the physics engine: the player,
    the platforms, the clone list, the enemy and scroll lists, the world's
    membership, the input history and the sound cues, updated by the
    collision handler, the 16 ms game loop, the key callbacks and the
    player-control effect. */
module Simulation {
  import opened Options
  import opened Bodies
  import opened InputHistory
  import opened KeyControls
  import opened Movement
  import opened Collisions
  import opened Spawning
  import opened CloneLifecycle
  import Bounds
  import GameContext
  import Navigation

  /** A clone after replaying `sample`: only its body changes. */
  function ReplayEntry(c: CloneEntry, sample: Option<Sample>, platforms: seq<Body>): CloneEntry
    requires forall i :: 0 <= i < |platforms| ==> IsPlatformBox(platforms[i])
  {
    c.(body := Replay(c.body, sample, platforms))
  }

  /** Every clone replays the same delayed sample; the list keeps its
      order, its bodies and their lifetimes. */
  function ReplayAll(cs: seq<CloneEntry>, sample: Option<Sample>, platforms: seq<Body>): (r: seq<CloneEntry>)
    requires forall i :: 0 <= i < |platforms| ==> IsPlatformBox(platforms[i])
    ensures |r| == |cs|
    ensures forall i :: 0 <= i < |cs| ==>
      r[i].body.id == cs[i].body.id && r[i].body.kind == cs[i].body.kind
      && r[i].createdAt == cs[i].createdAt && r[i].expiresAt == cs[i].expiresAt
      && r[i].body.x == cs[i].body.x && r[i].body.y == cs[i].body.y
    ensures sample.None? ==> r == cs
  {
    seq(|cs|, i requires 0 <= i < |cs| => ReplayEntry(cs[i], sample, platforms))
  }

  /** The game-over effect: once lives are gone, the screen reports the score
      to the app. */
  function GameOverReport(lives: int, score: int): (r: Option<Navigation.Handler>)
    ensures r.Some? <==> lives <= 0
    ensures r.Some? ==> r.value == Navigation.EndGameCall(score)
  {
    if lives <= 0 then Some(Navigation.EndGameCall(score)) else None
  }

  /** The report takes the app to the game-over screen with that score, from
      any screen. */
  lemma GameOverReportShowsScore(v: Navigation.View, lives: int, score: int)
    requires lives <= 0
    ensures Navigation.Apply(v, GameOverReport(lives, score).value) == Navigation.View(Navigation.GameOver, score)
  {
  }

  /** From a fresh game and until a reset, the game screen reports the game
      over exactly once three `removeLife` calls have been made. */
  lemma GameEndsOnThirdLoss(ops: seq<GameContext.Op>)
    requires GameContext.NoReset(ops)
    ensures var s := GameContext.Run(GameContext.Initial, ops);
      GameOverReport(s.lives, s.score).Some? <==> GameContext.Losses(ops) >= 3
  {
    GameContext.LivesAfterLosses(GameContext.Initial, ops);
  }

  /** `restartGame` only switches the screen back to playing; nothing resets
      the context. After a lost game the remounted game screen therefore
      finds no lives left and reports the old score at once, which takes the
      app straight back to the game-over screen. */
  lemma RestartWithoutResetEndsAtOnce(v: Navigation.View, ops: seq<GameContext.Op>)
    requires GameContext.NoReset(ops) && GameContext.Losses(ops) >= 3
    ensures var s := GameContext.Run(GameContext.Initial, ops);
      var playing := Navigation.Apply(v, Navigation.RestartGameCall);
      && playing.screen == Navigation.Playing
      && GameOverReport(s.lives, s.score) == Some(Navigation.EndGameCall(s.score))
      && Navigation.Apply(playing, GameOverReport(s.lives, s.score).value)
         == Navigation.View(Navigation.GameOver, s.score)
  {
    GameEndsOnThirdLoss(ops);
  }

  /** The start screen's button resets the context before starting, so a
      game begun from the menu never reports at once, whatever came before. */
  lemma MenuStartBeginsAfresh(v: Navigation.View, ops: seq<GameContext.Op>)
    ensures var s := GameContext.Run(GameContext.Initial, ops + [GameContext.ResetGame]);
      && Navigation.Apply(v, Navigation.StartGameCall).screen == Navigation.Playing
      && s.lives == GameContext.InitialLives
      && GameOverReport(s.lives, s.score).None?
  {
    GameContext.ResetAfterAnything(GameContext.Initial, ops);
  }

  /** The bodies the collision handler never removes: the player, the
      platforms and the live clones. */
  function FixedIds(player: Body, platforms: seq<Body>, clones: seq<CloneEntry>): set<BodyId>
  {
    {player.id} + Ids(platforms) + CloneIds(clones)
  }

  /** What holds of the bodies the collision handler does not touch: every
      one carries its label, platforms are boxes, each clone is listed once
      and lives five seconds, and every label was handed out before
      `nextId`. */
  predicate SceneInvariant(player: Body, platforms: seq<Body>, clones: seq<CloneEntry>,
                           labels: map<BodyId, Kind>, nextId: nat)
  {
    && player.kind == Player && player.id in labels && labels[player.id] == Player
    && Tagged(platforms, Platform, labels)
    && (forall i :: 0 <= i < |platforms| ==> IsPlatformBox(platforms[i]))
    && ClonesTagged(clones, labels)
    && UniqueIds(clones)
    && (forall i :: 0 <= i < |clones| ==> clones[i].expiresAt == clones[i].createdAt + CloneLifetime)
    && (forall id :: id in labels ==> id < nextId)
  }

  /** A fresh enemy or scroll: its label is new, and the untouched bodies
      keep theirs. */
  lemma FreshBodyKeepsInvariant(
    player: Body, platforms: seq<Body>, clones: seq<CloneEntry>, labels: map<BodyId, Kind>, nextId: nat,
    world: set<BodyId>, enemies: seq<Body>, scrolls: seq<Body>, b: Body)
    requires SceneInvariant(player, platforms, clones, labels, nextId)
    requires Coherent(world, enemies, scrolls, labels, FixedIds(player, platforms, clones))
    requires b.id == nextId && (b.kind == Enemy || b.kind == Scroll)
    ensures nextId !in world
    ensures SceneInvariant(player, platforms, clones, labels[nextId := b.kind], nextId + 1)
    ensures b.kind == Enemy ==>
      Coherent(world + {nextId}, enemies + [b], scrolls, labels[nextId := b.kind], FixedIds(player, platforms, clones))
    ensures b.kind == Scroll ==>
      Coherent(world + {nextId}, enemies, scrolls + [b], labels[nextId := b.kind], FixedIds(player, platforms, clones))
  {
    var l := labels[nextId := b.kind];
    IdsAppend(enemies, b);
    IdsAppend(scrolls, b);
    assert Tagged(enemies, Enemy, l) && Tagged(scrolls, Scroll, l);
  }

  /** A fresh clone: the same, with the clone list growing instead. */
  lemma FreshCloneKeepsInvariant(
    player: Body, platforms: seq<Body>, clones: seq<CloneEntry>, labels: map<BodyId, Kind>, nextId: nat,
    world: set<BodyId>, enemies: seq<Body>, scrolls: seq<Body>, c: CloneEntry)
    requires SceneInvariant(player, platforms, clones, labels, nextId)
    requires Coherent(world, enemies, scrolls, labels, FixedIds(player, platforms, clones))
    requires c.body.id == nextId && c.body.kind == Clone && c.expiresAt == c.createdAt + CloneLifetime
    ensures nextId !in world
    ensures SceneInvariant(player, platforms, clones + [c], labels[nextId := Clone], nextId + 1)
    ensures Coherent(world + {nextId}, enemies, scrolls, labels[nextId := Clone], FixedIds(player, platforms, clones + [c]))
  {
    var l := labels[nextId := Clone];
    var cs := clones + [c];
    CloneIdsAppend(clones, c);
    assert Tagged(enemies, Enemy, l) && Tagged(scrolls, Scroll, l);
    assert ClonesTagged(cs, l) by {
      forall i | 0 <= i < |cs|
        ensures cs[i].body.kind == Clone && cs[i].body.id in l && l[cs[i].body.id] == Clone
      {
        if i < |clones| {
          assert cs[i] == clones[i];
        }
      }
    }
    assert UniqueIds(cs) by {
      forall i, j | 0 <= i < |cs| && 0 <= j < |cs| && cs[i].body.id == cs[j].body.id
        ensures cs[i] == cs[j]
      {
        if i < |clones| {
          assert cs[i] == clones[i] && cs[i].body.id in labels;
        }
        if j < |clones| {
          assert cs[j] == clones[j] && cs[j].body.id in labels;
        }
      }
    }
  }

  /** Replay moves the clones but keeps the list's bodies, labels and lifetimes. */
  lemma ReplayKeepsInvariant(
    player: Body, platforms: seq<Body>, clones: seq<CloneEntry>, labels: map<BodyId, Kind>, nextId: nat,
    sample: Option<Sample>)
    requires SceneInvariant(player, platforms, clones, labels, nextId)
    ensures SceneInvariant(player, platforms, ReplayAll(clones, sample, platforms), labels, nextId)
    ensures FixedIds(player, platforms, ReplayAll(clones, sample, platforms)) == FixedIds(player, platforms, clones)
  {
    var r := ReplayAll(clones, sample, platforms);
    forall x | x in CloneIds(clones)
      ensures x in CloneIds(r)
    {
      var j :| 0 <= j < |clones| && clones[j].body.id == x;
      assert r[j].body.id == x;
    }
    forall i, j | 0 <= i < |r| && 0 <= j < |r| && r[i].body.id == r[j].body.id
      ensures r[i] == r[j]
    {
      assert clones[i] == clones[j];
    }
  }

  /** Cleanup: the expired clones' bodies leave the world and the list. */
  lemma CleanupKeepsInvariant(
    player: Body, platforms: seq<Body>, clones: seq<CloneEntry>, labels: map<BodyId, Kind>, nextId: nat,
    world: set<BodyId>, enemies: seq<Body>, scrolls: seq<Body>, now: int)
    requires SceneInvariant(player, platforms, clones, labels, nextId)
    requires Coherent(world, enemies, scrolls, labels, FixedIds(player, platforms, clones))
    ensures SceneInvariant(player, platforms, Survivors(clones, now), labels, nextId)
    ensures Coherent(world - CloneIds(Expired(clones, now)), enemies, scrolls, labels,
                     FixedIds(player, platforms, Survivors(clones, now)))
  {
    var s := Survivors(clones, now);
    var gone := CloneIds(Expired(clones, now));
    CloneIdsPartition(clones, now);
    SurvivorsKeepTags(clones, labels, now);
    ExpiredAreClones(clones, labels, now);
    assert forall i :: 0 <= i < |s| ==> s[i] in clones;
    assert {player.id} !! gone;
    assert Ids(platforms) !! gone by {
      forall id | id in Ids(platforms) ensures id !in gone {
        var i :| 0 <= i < |platforms| && platforms[i].id == id;
      }
    }
    NotTaggedSet(enemies, Enemy, labels, gone);
    NotTaggedSet(scrolls, Scroll, labels, gone);
  }

  /** The expired clones' bodies are labelled as clones. */
  lemma ExpiredAreClones(cs: seq<CloneEntry>, labels: map<BodyId, Kind>, now: int)
    requires ClonesTagged(cs, labels)
    ensures forall id :: id in CloneIds(Expired(cs, now)) ==> id in labels && labels[id] == Clone
  {
    var e := Expired(cs, now);
    forall id | id in CloneIds(e)
      ensures id in labels && labels[id] == Clone
    {
      var j :| 0 <= j < |e| && e[j].body.id == id;
      assert e[j] in cs;
    }
  }

  lemma NotTaggedSet(bs: seq<Body>, k: Kind, labels: map<BodyId, Kind>, ids: set<BodyId>)
    requires Tagged(bs, k, labels) && k != Clone
    requires forall id :: id in ids ==> id in labels && labels[id] == Clone
    ensures Ids(bs) !! ids
  {
    forall id | id in ids
      ensures id !in Ids(bs)
    {
      NotTagged(bs, k, labels, id);
    }
  }

  /** `World.remove` for each of the given clones' bodies, one at a time. */
  method RemoveBodies(world: set<BodyId>, gone: seq<CloneEntry>) returns (remaining: set<BodyId>)
    ensures remaining == world - CloneIds(gone)
  {
    remaining := world;
    var i := 0;
    while i < |gone|
      invariant 0 <= i <= |gone|
      invariant remaining == world - CloneIds(gone[..i])
    {
      assert gone[..i + 1] == gone[..i] + [gone[i]];
      CloneIdsAppend(gone[..i], gone[i]);
      remaining := remaining - {gone[i].body.id};
      i := i + 1;
    }
    assert gone[..i] == gone;
  }

  /** The enemy list after a tick's spawns: one more enemy, numbered
      `nextId`, when the roll is under 0.02. */
  function EnemiesAfter(enemies: seq<Body>, nextId: nat, width: real, d: Draws): (r: seq<Body>)
    requires ValidDraws(d) && width >= 0.0
    ensures d.enemyRoll < EnemyChance ==> r == enemies + [NewEnemy(nextId, width, d.enemyX, d.enemyVx, d.enemyVy)]
    ensures d.enemyRoll >= EnemyChance ==> r == enemies
  {
    if d.enemyRoll < EnemyChance then enemies + [NewEnemy(nextId, width, d.enemyX, d.enemyVx, d.enemyVy)]
    else enemies
  }

  /** The scroll list after a tick's spawns: one more scroll when the roll is
      under 0.03, numbered after the enemy spawned in the same tick, if any. */
  function ScrollsAfter(scrolls: seq<Body>, nextId: nat, width: real, height: real, d: Draws): (r: seq<Body>)
    requires ValidDraws(d) && width >= 0.0 && height >= 0.0
    ensures d.scrollRoll >= ScrollChance ==> r == scrolls
    ensures d.scrollRoll < ScrollChance ==>
      r == scrolls + [NewScroll(if d.enemyRoll < EnemyChance then nextId + 1 else nextId, width, height, d.scrollX, d.scrollY)]
  {
    if d.scrollRoll < ScrollChance then
      var id := if d.enemyRoll < EnemyChance then nextId + 1 else nextId;
      scrolls + [NewScroll(id, width, height, d.scrollX, d.scrollY)]
    else scrolls
  }

  /** How many bodies a tick's draws spawn. */
  function SpawnCount(d: Draws): nat
  {
    (if d.enemyRoll < EnemyChance then 1 else 0) + (if d.scrollRoll < ScrollChance then 1 else 0)
  }

  /** The labels after a tick's spawns: the enemy's first, then the scroll's. */
  function LabelsAfter(labels: map<BodyId, Kind>, nextId: nat, d: Draws): map<BodyId, Kind>
  {
    var withEnemy := if d.enemyRoll < EnemyChance then labels[nextId := Enemy] else labels;
    if d.scrollRoll < ScrollChance then
      withEnemy[(if d.enemyRoll < EnemyChance then nextId + 1 else nextId) := Scroll]
    else withEnemy
  }

  /** The bodies a tick's draws add: the enemy, if any, then the scroll. */
  function NewBodies(nextId: nat, width: real, height: real, d: Draws): seq<Body>
    requires ValidDraws(d) && width >= 0.0 && height >= 0.0
  {
    var spawnEnemy := d.enemyRoll < EnemyChance;
    (if spawnEnemy then [NewEnemy(nextId, width, d.enemyX, d.enemyVx, d.enemyVy)] else [])
    + (if d.scrollRoll < ScrollChance then
         [NewScroll(if spawnEnemy then nextId + 1 else nextId, width, height, d.scrollX, d.scrollY)]
       else [])
  }

  /** The enemy and scroll lists after the spawns are the old lists with the
      new bodies of their kind appended. */
  lemma {:induction false} SpawnsAppendNewBodies(enemies: seq<Body>, scrolls: seq<Body>,
                                                 nextId: nat, width: real, height: real, d: Draws)
    requires ValidDraws(d) && width >= 0.0 && height >= 0.0
    ensures var nb := NewBodies(nextId, width, height, d);
      && EnemiesAfter(enemies, nextId, width, d)[|enemies|..] + ScrollsAfter(scrolls, nextId, width, height, d)[|scrolls|..] == nb
      && EnemiesAfter(enemies, nextId, width, d)[..|enemies|] == enemies
      && ScrollsAfter(scrolls, nextId, width, height, d)[..|scrolls|] == scrolls
  {
    var es := EnemiesAfter(enemies, nextId, width, d);
    var ss := ScrollsAfter(scrolls, nextId, width, height, d);
    assert es[..|enemies|] == enemies;
    assert ss[..|scrolls|] == scrolls;
  }

  /** A tick's spawns get identifiers no body had before, in the next
      `SpawnCount` slots, and distinct from each other. */
  lemma SpawnedBodiesAreFresh(labels: map<BodyId, Kind>, nextId: nat, width: real, height: real, d: Draws)
    requires ValidDraws(d) && width >= 0.0 && height >= 0.0
    requires forall id :: id in labels ==> id < nextId
    ensures var nb := NewBodies(nextId, width, height, d);
      && |nb| == SpawnCount(d)
      && (forall i :: 0 <= i < |nb| ==> nb[i].id == nextId + i && nb[i].id !in labels)
      && (forall i :: 0 <= i < |nb| ==> (nb[i].kind == Enemy <==> i == 0 && d.enemyRoll < EnemyChance))
      && (forall i :: 0 <= i < |nb| ==> nb[i].kind == Enemy || nb[i].kind == Scroll)
  {
  }

  /** The labels after the spawns are the old ones with each new body
      labelled with its own kind. */
  lemma {:induction false} SpawnedBodiesAreLabelled(labels: map<BodyId, Kind>, nextId: nat, width: real, height: real, d: Draws)
    requires ValidDraws(d) && width >= 0.0 && height >= 0.0
    requires forall id :: id in labels ==> id < nextId
    ensures var nb := NewBodies(nextId, width, height, d);
      var l := LabelsAfter(labels, nextId, d);
      && l.Keys == labels.Keys + Ids(nb)
      && (forall i :: 0 <= i < |nb| ==> l[nb[i].id] == nb[i].kind)
      && (forall id :: id in labels ==> l[id] == labels[id])
  {
    var nb := NewBodies(nextId, width, height, d);
    var empty: seq<Body> := [];
    assert Ids(empty) == {};
    if |nb| == 1 {
      IdsAppend(empty, nb[0]);
      assert nb == empty + [nb[0]];
    } else if |nb| == 2 {
      IdsAppend(empty, nb[0]);
      IdsAppend([nb[0]], nb[1]);
      assert empty + [nb[0]] == [nb[0]] && nb == [nb[0]] + [nb[1]];
    }
  }

  class GameScreen {
    const width: real
    const height: real
    const ctx: GameContext.GameState

    var player: Body
    var platforms: seq<Body>
    var clones: seq<CloneEntry>
    var enemies: seq<Body>
    var scrolls: seq<Body>
    /** The bodies currently in the engine's world. */
    var world: set<BodyId>
    /** The label of every body ever created. */
    var labels: map<BodyId, Kind>
    var history: seq<Sample>
    /** The cues played so far, in order. */
    var sounds: seq<Sound>
    /** The next unused body identifier. */
    var nextId: nat

    ghost predicate Valid()
      reads this
    {
      && width >= 0.0 && height >= 0.0
      && SceneInvariant(player, platforms, clones, labels, nextId)
      && Coherent(world, enemies, scrolls, labels, FixedIds(player, platforms, clones))
    }

    /** What the collision handler reads. */
    function Scene(): Collisions.Scene
      reads this
    {
      Collisions.Scene(player.id, CloneBodies(clones), labels)
    }

    /** What the collision handler changes. */
    function TrackedState(): Tracked
      reads this, ctx
    {
      Tracked(world, enemies, scrolls, ctx.score, ctx.lives, sounds)
    }

    /** Set-up after the engine is created: the player, then the four platforms. */
    constructor (w: real, h: real, ctx: GameContext.GameState)
      requires w >= 0.0 && h >= 0.0
      ensures Valid() && this.ctx == ctx && width == w && height == h
      ensures player == NewPlayer(0, w, h) && platforms == InitialPlatforms(1, w, h)
      ensures world == {0, 1, 2, 3, 4} && nextId == 5
      ensures clones == [] && enemies == [] && scrolls == [] && history == [] && sounds == []
    {
      width, height, this.ctx := w, h, ctx;
      player := NewPlayer(0, w, h);
      platforms := InitialPlatforms(1, w, h);
      labels := map[0 := Player, 1 := Platform, 2 := Platform, 3 := Platform, 4 := Platform];
      world := {0, 1, 2, 3, 4};
      clones, enemies, scrolls, history, sounds := [], [], [], [], [];
      nextId := 5;
      new;
      assert Ids(platforms) == {1, 2, 3, 4} by {
        assert platforms[0].id == 1 && platforms[1].id == 2 && platforms[2].id == 3 && platforms[3].id == 4;
      }
      assert CloneIds(clones) == {};
    }

    lemma WellFormedScene()
      requires Valid()
      ensures WellFormed(Scene())
    {
    }

    /** Player against platform: the bounce cue. */
    method BounceCheck(p: Pair)
      requires Labelled(Scene(), p)
      modifies this
      ensures TrackedState() == BounceTest(old(TrackedState()), old(Scene()), p)
      ensures player == old(player) && platforms == old(platforms) && clones == old(clones)
      ensures labels == old(labels) && history == old(history) && nextId == old(nextId)
    {
      if (p.a == player.id && labels[p.b] == Platform) || (p.b == player.id && labels[p.a] == Platform) {
        sounds := sounds + [BounceSound];
      }
    }

    /** Player against enemy: a life lost, the hit cue, the enemy removed. */
    method EnemyCheck(p: Pair)
      requires Labelled(Scene(), p)
      modifies this, ctx
      ensures TrackedState() == EnemyTest(old(TrackedState()), old(Scene()), p)
      ensures player == old(player) && platforms == old(platforms) && clones == old(clones)
      ensures labels == old(labels) && history == old(history) && nextId == old(nextId)
      ensures ctx.level == old(ctx.level) && ctx.paused == old(ctx.paused)
    {
      if (p.a == player.id && labels[p.b] == Enemy) || (p.b == player.id && labels[p.a] == Enemy) {
        ctx.RemoveLife();
        sounds := sounds + [HitSound];
        var enemy := if labels[p.a] == Enemy then p.a else p.b;
        world := world - {enemy};
        enemies := Without(enemies, enemy);
      }
    }

    /** Player against scroll: ten points, the collect cue, the scroll removed. */
    method ScrollCheck(p: Pair)
      requires Labelled(Scene(), p)
      modifies this, ctx
      ensures TrackedState() == ScrollTest(old(TrackedState()), old(Scene()), p)
      ensures player == old(player) && platforms == old(platforms) && clones == old(clones)
      ensures labels == old(labels) && history == old(history) && nextId == old(nextId)
      ensures ctx.level == old(ctx.level) && ctx.paused == old(ctx.paused)
    {
      if (p.a == player.id && labels[p.b] == Scroll) || (p.b == player.id && labels[p.a] == Scroll) {
        var scroll := if labels[p.a] == Scroll then p.a else p.b;
        ctx.AddScore(PlayerScrollPoints);
        sounds := sounds + [CollectSound];
        world := world - {scroll};
        scrolls := Without(scrolls, scroll);
      }
    }

    /** A live clone against an enemy or a scroll: five points either way. */
    method CloneCheck(p: Pair)
      requires Labelled(Scene(), p)
      modifies this, ctx
      ensures TrackedState() == CloneTest(old(TrackedState()), old(Scene()), p)
      ensures player == old(player) && platforms == old(platforms) && clones == old(clones)
      ensures labels == old(labels) && history == old(history) && nextId == old(nextId)
      ensures ctx.level == old(ctx.level) && ctx.paused == old(ctx.paused)
    {
      var found := FindClone(CloneBodies(clones), p.a, p.b);
      if found.Some? {
        var other := if found.value == p.a then p.b else p.a;
        ghost var t1 := TrackedState();
        if labels[other] == Enemy {
          ctx.AddScore(ClonePoints);
          sounds := sounds + [EnemyDefeatSound];
          world := world - {other};
          enemies := Without(enemies, other);
        }
        assert TrackedState() ==
          if labels[other] == Enemy then RemoveEnemy(AddPoints(t1, ClonePoints, EnemyDefeatSound), other) else t1;
        if labels[other] == Scroll {
          ctx.AddScore(ClonePoints);
          sounds := sounds + [CollectSound];
          world := world - {other};
          scrolls := Without(scrolls, other);
        }
      }
    }

    /** The body of the collision loop for one pair: the player-platform,
        player-enemy, player-scroll and clone tests, in that order. */
    method HandlePair(p: Pair)
      requires Valid() && Labelled(Scene(), p)
      modifies this, ctx
      ensures Valid()
      ensures TrackedState() == Resolve(old(TrackedState()), old(Scene()), p)
      ensures player == old(player) && platforms == old(platforms) && clones == old(clones)
      ensures labels == old(labels) && history == old(history) && nextId == old(nextId)
      ensures ctx.level == old(ctx.level) && ctx.paused == old(ctx.paused)
    {
      ResolveCoherent(TrackedState(), Scene(), FixedIds(player, platforms, clones), p);
      BounceCheck(p);
      EnemyCheck(p);
      ScrollCheck(p);
      CloneCheck(p);
    }

    /** The `collisionStart` listener: every pair of the event, in order. */
    method OnCollisionStart(pairs: seq<Pair>)
      requires Valid() && AllLabelled(Scene(), pairs)
      modifies this, ctx
      ensures Valid()
      ensures TrackedState() == ResolveAll(old(TrackedState()), old(Scene()), pairs)
      ensures player == old(player) && platforms == old(platforms) && clones == old(clones)
      ensures labels == old(labels) && history == old(history) && nextId == old(nextId)
      ensures ctx.level == old(ctx.level) && ctx.paused == old(ctx.paused)
    {
      var i := 0;
      while i < |pairs|
        invariant 0 <= i <= |pairs|
        invariant Valid()
        invariant player == old(player) && platforms == old(platforms) && clones == old(clones)
        invariant labels == old(labels) && history == old(history) && nextId == old(nextId)
        invariant ctx.level == old(ctx.level) && ctx.paused == old(ctx.paused)
        invariant AllLabelled(Scene(), pairs[i..])
        invariant ResolveAll(TrackedState(), Scene(), pairs[i..]) == ResolveAll(old(TrackedState()), old(Scene()), pairs)
      {
        assert pairs[i..][0] == pairs[i] && pairs[i..][1..] == pairs[i + 1..];
        HandlePair(pairs[i]);
        i := i + 1;
      }
      assert pairs[i..] == [];
    }

    /** `updateClones`: each clone replays the input recorded one second ago. */
    method UpdateClones(now: int)
      requires Valid()
      modifies this
      ensures Valid()
      ensures clones == ReplayAll(old(clones), Delayed(history, now), platforms)
      ensures player == old(player) && platforms == old(platforms) && world == old(world)
      ensures enemies == old(enemies) && scrolls == old(scrolls) && labels == old(labels)
      ensures history == old(history) && sounds == old(sounds) && nextId == old(nextId)
    {
      var updated := clones;
      var i := 0;
      while i < |updated|
        invariant 0 <= i <= |updated| == |clones|
        invariant forall j :: 0 <= j < i ==> updated[j] == ReplayEntry(clones[j], Delayed(history, now), platforms)
        invariant forall j :: i <= j < |updated| ==> updated[j] == clones[j]
      {
        var sample := Delayed(history, now);
        updated := updated[i := ReplayEntry(updated[i], sample, platforms)];
        i := i + 1;
      }
      assert updated == ReplayAll(clones, Delayed(history, now), platforms);
      ReplayKeepsInvariant(player, platforms, clones, labels, nextId, Delayed(history, now));
      clones := updated;
    }

    /** `checkBounds`: wrap the player around the side edges, and after a
        fall well below the bottom edge take a life, play the fall cue and
        put the player back in the centre at rest. */
    method CheckBounds()
      requires Valid()
      modifies this, ctx
      ensures Valid()
      ensures var r := Bounds.CheckBounds(old(player), width, height);
        && player == r.player
        && ctx.lives == (if r.fell then GameContext.LoseLife(old(ctx.lives)) else old(ctx.lives))
        && sounds == old(sounds) + (if r.fell then [FallSound] else [])
      ensures ctx.score == old(ctx.score) && ctx.level == old(ctx.level) && ctx.paused == old(ctx.paused)
      ensures platforms == old(platforms) && clones == old(clones) && world == old(world)
      ensures enemies == old(enemies) && scrolls == old(scrolls) && labels == old(labels)
      ensures history == old(history) && nextId == old(nextId)
    {
      var x, y := player.x, player.y;
      if x < 0.0 {
        player := SetPosition(player, width, y);
      }
      if x > width {
        player := SetPosition(player, 0.0, y);
      }
      if y > height + Bounds.FallMargin {
        ctx.RemoveLife();
        sounds := sounds + [FallSound];
        player := SetPosition(player, width / 2.0, height / 2.0);
        player := SetVelocity(player, 0.0, 0.0);
      }
    }

    /** `spawnEnemy`, with its three random draws as parameters. */
    method SpawnEnemy(rx: real, rvx: real, rvy: real)
      requires Valid() && IsDraw(rx) && IsDraw(rvx) && IsDraw(rvy)
      modifies this
      ensures Valid()
      ensures enemies == old(enemies) + [NewEnemy(old(nextId), width, rx, rvx, rvy)]
      ensures world == old(world) + {old(nextId)} && old(nextId) !in old(world)
      ensures labels == old(labels)[old(nextId) := Enemy] && nextId == old(nextId) + 1
      ensures player == old(player) && platforms == old(platforms) && clones == old(clones)
      ensures scrolls == old(scrolls) && history == old(history) && sounds == old(sounds)
    {
      var enemy := NewEnemy(nextId, width, rx, rvx, rvy);
      FreshBodyKeepsInvariant(player, platforms, clones, labels, nextId, world, enemies, scrolls, enemy);
      world := world + {enemy.id};
      enemies := enemies + [enemy];
      labels := labels[enemy.id := Enemy];
      nextId := nextId + 1;
    }

    /** `spawnChakraScroll`, with its two random draws as parameters. */
    method SpawnChakraScroll(rx: real, ry: real)
      requires Valid() && IsDraw(rx) && IsDraw(ry)
      modifies this
      ensures Valid()
      ensures scrolls == old(scrolls) + [NewScroll(old(nextId), width, height, rx, ry)]
      ensures world == old(world) + {old(nextId)} && old(nextId) !in old(world)
      ensures labels == old(labels)[old(nextId) := Scroll] && nextId == old(nextId) + 1
      ensures player == old(player) && platforms == old(platforms) && clones == old(clones)
      ensures enemies == old(enemies) && history == old(history) && sounds == old(sounds)
    {
      var scroll := NewScroll(nextId, width, height, rx, ry);
      FreshBodyKeepsInvariant(player, platforms, clones, labels, nextId, world, enemies, scrolls, scroll);
      world := world + {scroll.id};
      scrolls := scrolls + [scroll];
      labels := labels[scroll.id := Scroll];
      nextId := nextId + 1;
    }

    /** `createClone`, called back on the clone key: the clone cue, a new
        clone body at the player's position, listed with its lifetime. */
    method CreateClone(now: int)
      requires Valid()
      modifies this
      ensures Valid()
      ensures clones == old(clones) + [NewClone(old(nextId), old(player), now)]
      ensures sounds == old(sounds) + [CloneSound]
      ensures world == old(world) + {old(nextId)} && old(nextId) !in old(world)
      ensures labels == old(labels)[old(nextId) := Clone] && nextId == old(nextId) + 1
      ensures player == old(player) && platforms == old(platforms)
      ensures enemies == old(enemies) && scrolls == old(scrolls) && history == old(history)
    {
      sounds := sounds + [CloneSound];
      var clone := NewClone(nextId, player, now);
      FreshCloneKeepsInvariant(player, platforms, clones, labels, nextId, world, enemies, scrolls, clone);
      world := world + {clone.body.id};
      clones := clones + [clone];
      labels := labels[clone.body.id := Clone];
      nextId := nextId + 1;
    }

    /** `cleanupExpiredClones`: the expired clones' bodies leave the world,
        one by one, and only the live clones stay on the list. */
    method CleanupExpiredClones(now: int)
      requires Valid()
      modifies this
      ensures Valid()
      ensures clones == Survivors(old(clones), now)
      ensures world == old(world) - CloneIds(Expired(old(clones), now))
      ensures forall c :: c in clones ==> c.expiresAt > now
      ensures player == old(player) && platforms == old(platforms) && labels == old(labels)
      ensures enemies == old(enemies) && scrolls == old(scrolls) && history == old(history)
      ensures sounds == old(sounds) && nextId == old(nextId)
    {
      CleanupKeepsInvariant(player, platforms, clones, labels, nextId, world, enemies, scrolls, now);
      var expired := Expired(clones, now);
      var remaining := RemoveBodies(world, expired);
      world := remaining;
      ExpiryPartitions(clones, now);
      clones := Survivors(clones, now);
    }

    /** The player-control effect, run whenever the held keys or the pause
        flag change: nothing while paused; otherwise the key force, and a
        jump with its cue when standing on a platform. */
    method ApplyControls(keys: KeyState)
      requires Valid()
      modifies this
      ensures Valid()
      ensures ctx.paused ==> player == old(player) && sounds == old(sounds)
      ensures !ctx.paused ==> player == ControlPlayer(old(player), keys, platforms)
      ensures !ctx.paused ==>
        sounds == old(sounds) + (if keys.jump && OnPlatform(platforms, old(player).x, old(player).y) then [JumpSound] else [])
      ensures platforms == old(platforms) && clones == old(clones) && world == old(world)
      ensures enemies == old(enemies) && scrolls == old(scrolls) && labels == old(labels)
      ensures history == old(history) && nextId == old(nextId)
    {
      if ctx.paused {
        return;
      }
      var force := KeyForce(keys);
      if force != 0.0 {
        player := ApplyForce(player, force, 0.0);
      }
      if keys.jump {
        var onPlatform := OnPlatform(platforms, player.x, player.y);
        if onPlatform {
          player := SetVelocity(player, player.vx, PlayerJumpVelocity);
          sounds := sounds + [JumpSound];
        }
      }
      assert player.id == old(player).id && player.kind == old(player).kind;
    }

    /** The input recorder: push the current intent, then drop what is
        older than five seconds. */
    method RecordInput(now: int, keys: KeyState)
      requires Valid()
      modifies this
      ensures Valid()
      ensures history == Record(old(history), keys, now)
      ensures player == old(player) && platforms == old(platforms) && clones == old(clones) && world == old(world)
      ensures enemies == old(enemies) && scrolls == old(scrolls) && labels == old(labels)
      ensures sounds == old(sounds) && nextId == old(nextId)
    {
      history := history + [Sample(now, Encode(keys))];
      history := Prune(history, now);
    }

    /** The two random spawns of a tick: an enemy with chance 0.02, then a
        scroll with chance 0.03, each numbered with the next free identifier. */
    method RandomSpawns(draws: Draws)
      requires Valid() && ValidDraws(draws)
      modifies this
      ensures Valid()
      ensures enemies == EnemiesAfter(old(enemies), old(nextId), width, draws)
      ensures scrolls == ScrollsAfter(old(scrolls), old(nextId), width, height, draws)
      ensures labels == LabelsAfter(old(labels), old(nextId), draws)
      ensures nextId == old(nextId) + SpawnCount(draws)
      ensures player == old(player) && platforms == old(platforms) && clones == old(clones)
      ensures history == old(history) && sounds == old(sounds)
    {
      if draws.enemyRoll < EnemyChance {
        SpawnEnemy(draws.enemyX, draws.enemyVx, draws.enemyVy);
      }
      if draws.scrollRoll < ScrollChance {
        SpawnChakraScroll(draws.scrollX, draws.scrollY);
      }
    }

    /** One 16 ms tick of the game loop. `paused` is the flag the loop sees,
        `keys` the held keys it sees, `now` the clock and `draws` its random
        draws. */
    method Tick(now: int, keys: KeyState, paused: bool, draws: Draws)
      requires Valid() && ValidDraws(draws)
      modifies this, ctx
      ensures Valid()
      ensures paused ==> unchanged(this) && unchanged(ctx)
      ensures !paused ==> history == Record(old(history), keys, now)
      ensures !paused ==>
        clones == Survivors(ReplayAll(old(clones), Delayed(history, now), platforms), now)
      ensures !paused ==> forall c :: c in clones ==> c.expiresAt > now
      ensures !paused ==>
        var r := Bounds.CheckBounds(old(player), width, height);
        && player == r.player
        && ctx.lives == (if r.fell then GameContext.LoseLife(old(ctx.lives)) else old(ctx.lives))
        && sounds == old(sounds) + (if r.fell then [FallSound] else [])
      ensures !paused ==> enemies == EnemiesAfter(old(enemies), old(nextId), width, draws)
      ensures !paused ==> scrolls == ScrollsAfter(old(scrolls), old(nextId), width, height, draws)
      ensures !paused ==> labels == LabelsAfter(old(labels), old(nextId), draws)
      ensures !paused ==> nextId == old(nextId) + SpawnCount(draws)
      ensures ctx.score == old(ctx.score) && ctx.level == old(ctx.level) && ctx.paused == old(ctx.paused)
      ensures platforms == old(platforms)
    {
      if paused {
        return;
      }
      RecordInput(now, keys);
      UpdateClones(now);
      CheckBounds();
      RandomSpawns(draws);
      CleanupExpiredClones(now);
    }
  }
}
