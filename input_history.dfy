/** The input recorder: once per tick the held keys are encoded as a movement
    intent and time-stamped; the history keeps a rolling five-second window,
    and clones look up the intent recorded one second earlier. */
module InputHistory {
  import opened Seqs
  import opened Options
  import opened KeyControls

  /** Horizontal intent x in {-1, 0, 1}; vertical intent y in {-1, 0}
      (-1 means jump, in a y-down coordinate system). */
  datatype Action = Action(x: int, y: int)

  datatype Sample = Sample(time: int, action: Action)

  /** Milliseconds of input kept. */
  const HistoryWindow := 5000

  /** Milliseconds by which a clone lags behind the player. */
  const CloneDelay := 1000

  /** The recorded intent: left wins over right when both are held. */
  function Encode(k: KeyState): (a: Action)
    ensures a.x == -1 <==> k.left
    ensures a.x == 1 <==> !k.left && k.right
    ensures a.x == 0 <==> !k.left && !k.right
    ensures a.y == -1 <==> k.jump
    ensures a.y == 0 <==> !k.jump
  {
    Action(if k.left then -1 else if k.right then 1 else 0, if k.jump then -1 else 0)
  }

  /** The samples still inside the window at time `now`. */
  function Prune(h: seq<Sample>, now: int): seq<Sample>
  {
    Filter(h, (s: Sample) => s.time > now - HistoryWindow)
  }

  /** Pruning keeps exactly the samples newer than `now - 5000`, in their
      original order, and pruning again at the same time changes nothing. */
  lemma PruneKeepsWindow(h: seq<Sample>, now: int)
    ensures forall s :: s in Prune(h, now) <==> s in h && s.time > now - HistoryWindow
    ensures forall i :: 0 <= i < |Prune(h, now)| ==> Prune(h, now)[i].time > now - HistoryWindow
    ensures Prune(Prune(h, now), now) == Prune(h, now)
  {
    FilterIdempotent(h, (s: Sample) => s.time > now - HistoryWindow);
  }

  /** Pruning preserves order: the pruned history of a concatenation is the
      concatenation of the pruned parts. */
  lemma PruneAppend(a: seq<Sample>, b: seq<Sample>, now: int)
    ensures Prune(a + b, now) == Prune(a, now) + Prune(b, now)
  {
    FilterAppend(a, b, (s: Sample) => s.time > now - HistoryWindow);
  }

  /** The sample a clone replays: the latest one at or before `target`. The
      source filters, sorts by time descending and takes the first element;
      the sort is stable, so among samples of equal time the earliest
      recorded one wins. */
  function Closest(h: seq<Sample>, target: int): (r: Option<Sample>)
    ensures r.None? <==> forall i :: 0 <= i < |h| ==> h[i].time > target
    ensures r.Some? ==> r.value in h && r.value.time <= target
    ensures r.Some? ==> forall i :: 0 <= i < |h| && h[i].time <= target ==> h[i].time <= r.value.time
    ensures r.Some? ==> exists j :: 0 <= j < |h| && h[j] == r.value
                                    && forall i :: 0 <= i < j ==> h[i].time != r.value.time
    decreases |h|
  {
    if h == [] then None
    else
      var rest := Closest(h[1..], target);
      if h[0].time <= target && (rest.None? || rest.value.time <= h[0].time) then
        Some(h[0])
      else
        ClosestTail(h, target, rest);
        rest
  }

  /** Why a result found in the tail is still the first of its time in `h`. */
  lemma ClosestTail(h: seq<Sample>, target: int, rest: Option<Sample>)
    requires h != []
    requires rest.Some? ==> exists j :: 0 <= j < |h[1..]| && h[1..][j] == rest.value
                                        && forall i :: 0 <= i < j ==> h[1..][i].time != rest.value.time
    requires rest.Some? && h[0].time <= target ==> h[0].time < rest.value.time
    requires rest.Some? ==> rest.value.time <= target
    ensures rest.Some? ==> exists j :: 0 <= j < |h| && h[j] == rest.value
                                      && forall i :: 0 <= i < j ==> h[i].time != rest.value.time
  {
    if rest.Some? {
      var j :| 0 <= j < |h[1..]| && h[1..][j] == rest.value
               && forall i :: 0 <= i < j ==> h[1..][i].time != rest.value.time;
      assert h[j + 1] == rest.value;
      forall i | 0 <= i < j + 1
        ensures h[i].time != rest.value.time
      {
        if i > 0 {
          assert h[i] == h[1..][i - 1];
        }
      }
    }
  }

  /** The sample a clone replays at time `now`. */
  function Delayed(h: seq<Sample>, now: int): Option<Sample>
  {
    Closest(h, now - CloneDelay)
  }

  /** A sample one second old is found; a query before any sample finds nothing. */
  lemma DelayedLookupExamples()
    ensures Delayed([Sample(1000, Action(1, 0))], 2000) == Some(Sample(1000, Action(1, 0)))
    ensures Delayed([Sample(1000, Action(1, 0))], 500) == None
  {
  }

  /** Samples at 0, 2000, 4000 and 6000 pruned at 6000 keep 2000, 4000 and 6000. */
  lemma PruneExample()
    ensures Prune([Sample(0, Action(0, 0)), Sample(2000, Action(0, 0)), Sample(4000, Action(0, 0)), Sample(6000, Action(0, 0))], 6000)
            == [Sample(2000, Action(0, 0)), Sample(4000, Action(0, 0)), Sample(6000, Action(0, 0))]
  {
    var h := [Sample(0, Action(0, 0)), Sample(2000, Action(0, 0)), Sample(4000, Action(0, 0)), Sample(6000, Action(0, 0))];
    assert h[1..][1..][1..][1..] == [];
  }

  /** One tick's recording: append the current intent, then prune. */
  function Record(h: seq<Sample>, k: KeyState, now: int): seq<Sample>
  {
    Prune(h + [Sample(now, Encode(k))], now)
  }

  /** The sample just recorded is always retained, and is the last one. */
  lemma RecordKeepsNewest(h: seq<Sample>, k: KeyState, now: int)
    ensures Record(h, k, now) == Prune(h, now) + [Sample(now, Encode(k))]
  {
    PruneAppend(h, [Sample(now, Encode(k))], now);
    FilterSingleton(Sample(now, Encode(k)), (s: Sample) => s.time > now - HistoryWindow);
  }

  /** A sample newer than the target never affects the lookup. */
  lemma {:induction false} ClosestIgnoresNewer(h: seq<Sample>, s: Sample, target: int)
    requires s.time > target
    ensures Closest(h + [s], target) == Closest(h, target)
    decreases |h|
  {
    if h == [] {
      assert [s][1..] == [];
    } else {
      assert (h + [s])[1..] == h[1..] + [s];
      ClosestIgnoresNewer(h[1..], s, target);
    }
  }

  /** Clones lag one second behind: the sample recorded at `now` is never
      the one replayed at `now`, so recording first and replaying second
      gives what replaying the pruned history alone would. */
  lemma NewSampleNotReplayedYet(h: seq<Sample>, k: KeyState, now: int)
    ensures Delayed(Record(h, k, now), now) == Delayed(Prune(h, now), now)
  {
    RecordKeepsNewest(h, k, now);
    ClosestIgnoresNewer(Prune(h, now), Sample(now, Encode(k)), now - CloneDelay);
  }
}
