/** The clone list: each entry is a clone's body with the time it was made
    and the time it expires, five seconds later. */
module CloneLifecycle {
  import opened Seqs
  import opened Bodies

  datatype CloneEntry = CloneEntry(body: Body, createdAt: int, expiresAt: int)

  /** Milliseconds a clone lives. */
  const CloneLifetime := 5000

  /** `createClone`: a ball at the player's position, at rest, that expires
      five seconds after `now`. */
  function NewClone(id: BodyId, player: Body, now: int): (c: CloneEntry)
    ensures c.createdAt == now && c.expiresAt == now + CloneLifetime
    ensures c.createdAt < c.expiresAt
    ensures c.body.id == id && c.body.kind == Clone && c.body.shape == Circle(BallRadius)
    ensures c.body.x == player.x && c.body.y == player.y
    ensures c.body.vx == 0.0 && c.body.vy == 0.0 && c.body.fx == 0.0 && c.body.fy == 0.0
  {
    CloneEntry(Body(id, Clone, Circle(BallRadius), player.x, player.y, 0.0, 0.0, 0.0, 0.0), now, now + CloneLifetime)
  }

  function IsLive(now: int): CloneEntry -> bool
  {
    (c: CloneEntry) => c.expiresAt > now
  }

  function IsExpired(now: int): CloneEntry -> bool
  {
    (c: CloneEntry) => c.expiresAt <= now
  }

  /** The clones kept at `now`. */
  function Survivors(cs: seq<CloneEntry>, now: int): seq<CloneEntry>
  {
    Filter(cs, IsLive(now))
  }

  /** The clones whose bodies leave the world at `now`. */
  function Expired(cs: seq<CloneEntry>, now: int): seq<CloneEntry>
  {
    Filter(cs, IsExpired(now))
  }

  function CloneIds(cs: seq<CloneEntry>): (r: set<BodyId>)
    ensures forall i :: 0 <= i < |cs| ==> cs[i].body.id in r
    ensures forall id :: id in r ==> exists i :: 0 <= i < |cs| && cs[i].body.id == id
  {
    set i | 0 <= i < |cs| :: cs[i].body.id
  }

  /** The clones' bodies in list order. */
  function CloneBodies(cs: seq<CloneEntry>): (r: seq<BodyId>)
    ensures |r| == |cs| && forall i :: 0 <= i < |cs| ==> r[i] == cs[i].body.id
  {
    seq(|cs|, i requires 0 <= i < |cs| => cs[i].body.id)
  }

  /** Cleanup splits the list in two: every clone is either kept (it expires
      after `now`) or dropped (it expires at or before `now`), none is both,
      none is lost or duplicated, and the kept ones keep their order. */
  lemma ExpiryPartitions(cs: seq<CloneEntry>, now: int)
    ensures forall c :: c in Survivors(cs, now) <==> c in cs && c.expiresAt > now
    ensures forall c :: c in Expired(cs, now) <==> c in cs && c.expiresAt <= now
    ensures multiset(Survivors(cs, now)) + multiset(Expired(cs, now)) == multiset(cs)
    ensures Survivors(Survivors(cs, now), now) == Survivors(cs, now)
  {
    forall c
      ensures (multiset(Survivors(cs, now)) + multiset(Expired(cs, now)))[c] == multiset(cs)[c]
    {
      FilterMultiset(cs, IsLive(now), c);
      FilterMultiset(cs, IsExpired(now), c);
    }
    FilterIdempotent(cs, IsLive(now));
  }

  /** Cleanup commutes with appending: a clone created later is judged on its
      own and goes after the older survivors. */
  lemma SurvivorsAppend(a: seq<CloneEntry>, b: seq<CloneEntry>, now: int)
    ensures Survivors(a + b, now) == Survivors(a, now) + Survivors(b, now)
  {
    FilterAppend(a, b, IsLive(now));
  }

  /** A clone made at time 0 is still there at 4999 and gone at 5000. */
  lemma ExpiryExample(id: BodyId, player: Body)
    ensures var c := NewClone(id, player, 0);
      Survivors([c], 4999) == [c] && Survivors([c], 5000) == [] && Expired([c], 5000) == [c]
  {
    var c := NewClone(id, player, 0);
    FilterSingleton(c, IsLive(4999));
    FilterSingleton(c, IsLive(5000));
    FilterSingleton(c, IsExpired(5000));
  }

  /** A newly made clone survives every cleanup before its fifth second. */
  lemma NewCloneSurvivesItsLifetime(id: BodyId, player: Body, created: int, now: int)
    requires now < created + CloneLifetime
    ensures Survivors([NewClone(id, player, created)], now) == [NewClone(id, player, created)]
  {
    FilterSingleton(NewClone(id, player, created), IsLive(now));
  }

  /** Every clone's body carries the clone kind, and so does its label. */
  predicate ClonesTagged(cs: seq<CloneEntry>, labels: map<BodyId, Kind>)
  {
    forall i :: 0 <= i < |cs| ==> cs[i].body.kind == Clone && cs[i].body.id in labels && labels[cs[i].body.id] == Clone
  }

  /** A body is on the clone list at most once: entries with the same body
      are the same entry. */
  predicate UniqueIds(cs: seq<CloneEntry>)
  {
    forall i, j :: 0 <= i < |cs| && 0 <= j < |cs| && cs[i].body.id == cs[j].body.id ==> cs[i] == cs[j]
  }

  lemma CloneIdsAppend(cs: seq<CloneEntry>, c: CloneEntry)
    ensures CloneIds(cs + [c]) == CloneIds(cs) + {c.body.id}
  {
    var r := cs + [c];
    assert r[|cs|] == c;
    forall x | x in CloneIds(cs)
      ensures x in CloneIds(r)
    {
      var i :| 0 <= i < |cs| && cs[i].body.id == x;
      assert r[i] == cs[i];
    }
  }

  /** Cleanup removes from the world exactly the bodies of the expired
      clones: the survivors' bodies are all the others, and each body is
      still listed once. */
  lemma CloneIdsPartition(cs: seq<CloneEntry>, now: int)
    requires UniqueIds(cs)
    ensures CloneIds(Survivors(cs, now)) == CloneIds(cs) - CloneIds(Expired(cs, now))
    ensures UniqueIds(Survivors(cs, now))
  {
    var s := Survivors(cs, now);
    var e := Expired(cs, now);
    forall x | x in CloneIds(s)
      ensures x in CloneIds(cs) - CloneIds(e)
    {
      var i :| 0 <= i < |s| && s[i].body.id == x;
      assert s[i] in cs;
      var k :| 0 <= k < |cs| && cs[k] == s[i];
    }
    forall x | x in CloneIds(cs) - CloneIds(e)
      ensures x in CloneIds(s)
    {
      var i :| 0 <= i < |cs| && cs[i].body.id == x;
      var c := cs[i];
      assert c.expiresAt <= now ==> c in e;
      assert c in s;
      var j :| 0 <= j < |s| && s[j] == cs[i];
    }
    forall i, j | 0 <= i < |s| && 0 <= j < |s| && s[i].body.id == s[j].body.id
      ensures s[i] == s[j]
    {
      assert s[i] in cs && s[j] in cs;
      var k :| 0 <= k < |cs| && cs[k] == s[i];
      var m :| 0 <= m < |cs| && cs[m] == s[j];
    }
  }

  /** Cleanup keeps the survivors' labels and lifetimes. */
  lemma SurvivorsKeepTags(cs: seq<CloneEntry>, labels: map<BodyId, Kind>, now: int)
    requires ClonesTagged(cs, labels)
    ensures ClonesTagged(Survivors(cs, now), labels)
    ensures forall c :: c in Survivors(cs, now) ==> c in cs
  {
    var s := Survivors(cs, now);
    forall i | 0 <= i < |s|
      ensures s[i].body.kind == Clone && s[i].body.id in labels && labels[s[i].body.id] == Clone
    {
      assert s[i] in cs;
    }
  }
}
