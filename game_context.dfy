/** The game's authoritative state record (the React context provider):
    score, remaining lives, level and the pause flag, changed only through
    the provider's operations. */
module GameContext {

  /** The four state cells, as a value. */
  datatype Stats = Stats(score: int, lives: int, level: int, paused: bool)

  /** The provider's operations, so that runs of them can be reasoned about. */
  datatype Op =
    | AddScore(points: int)
    | RemoveLife
    | ResetGame
    | TogglePause
    | IncrementLevel
    | SetPaused(p: bool)

  const InitialLives := 3

  /** The state a fresh provider starts in, and the one `resetGame` restores. */
  const Initial := Stats(0, InitialLives, 1, false)

  /** `Math.max(0, lives - 1)`: one life less, never below zero. */
  function LoseLife(lives: int): (r: int)
    ensures r >= 0
    ensures lives > 0 ==> r == lives - 1
    ensures lives <= 0 ==> r == 0
    ensures r <= lives || lives < 0
  {
    if lives - 1 > 0 then lives - 1 else 0
  }

  /** The effect of one operation on the four cells. */
  function Step(s: Stats, op: Op): Stats
  {
    match op
    case AddScore(points) => s.(score := s.score + points)
    case RemoveLife => s.(lives := LoseLife(s.lives))
    case ResetGame => Initial
    case TogglePause => s.(paused := !s.paused)
    case IncrementLevel => s.(level := s.level + 1)
    case SetPaused(p) => s.(paused := p)
  }

  /** The effect of a run of operations, applied left to right. */
  function Run(s: Stats, ops: seq<Op>): Stats
    decreases |ops|
  {
    if ops == [] then s else Run(Step(s, ops[0]), ops[1..])
  }

  /** The range the cells stay in. */
  predicate InRange(s: Stats)
  {
    0 <= s.score && 0 <= s.lives <= InitialLives && 1 <= s.level
  }

  predicate NoReset(ops: seq<Op>)
  {
    forall i :: 0 <= i < |ops| ==> !ops[i].ResetGame?
  }

  predicate NonNegativePoints(ops: seq<Op>)
  {
    forall i :: 0 <= i < |ops| ==> (ops[i].AddScore? ==> ops[i].points >= 0)
  }

  /** How many `removeLife` calls a run makes. */
  function Losses(ops: seq<Op>): nat
    decreases |ops|
  {
    if ops == [] then 0 else (if ops[0].RemoveLife? then 1 else 0) + Losses(ops[1..])
  }

  /** Without a reset, lives after a run are the starting lives less one per
      `removeLife`, floored at zero. */
  lemma {:induction false} LivesAfterLosses(s: Stats, ops: seq<Op>)
    requires s.lives >= 0 && NoReset(ops)
    ensures Run(s, ops).lives == if s.lives > Losses(ops) then s.lives - Losses(ops) else 0
    decreases |ops|
  {
    if ops != [] {
      assert !ops[0].ResetGame?;
      LivesAfterLosses(Step(s, ops[0]), ops[1..]);
    }
  }

  /** One step never takes lives below zero. */
  lemma StepKeepsLivesNonNegative(s: Stats, op: Op)
    requires s.lives >= 0
    ensures Step(s, op).lives >= 0
  {
  }

  /** Lives never go negative, whatever the operations. */
  lemma {:induction false} RunKeepsLivesNonNegative(s: Stats, ops: seq<Op>)
    requires s.lives >= 0
    ensures Run(s, ops).lives >= 0
    decreases |ops|
  {
    if ops != [] {
      StepKeepsLivesNonNegative(s, ops[0]);
      RunKeepsLivesNonNegative(Step(s, ops[0]), ops[1..]);
    }
  }

  /** Until a reset, lives never increase. */
  lemma {:induction false} LivesNonIncreasingWithoutReset(s: Stats, ops: seq<Op>)
    requires s.lives >= 0
    requires NoReset(ops)
    ensures Run(s, ops).lives <= s.lives
    decreases |ops|
  {
    if ops != [] {
      assert !ops[0].ResetGame?;
      LivesNonIncreasingWithoutReset(Step(s, ops[0]), ops[1..]);
    }
  }

  /** With only non-negative `addScore` calls and no reset, the score never decreases. */
  lemma {:induction false} ScoreNonDecreasing(s: Stats, ops: seq<Op>)
    requires NoReset(ops) && NonNegativePoints(ops)
    ensures Run(s, ops).score >= s.score
    decreases |ops|
  {
    if ops != [] {
      assert !ops[0].ResetGame? && (ops[0].AddScore? ==> ops[0].points >= 0);
      ScoreNonDecreasing(Step(s, ops[0]), ops[1..]);
    }
  }

  /** Starting from a state in range, non-negative `addScore` calls keep every cell in range. */
  lemma {:induction false} RunStaysInRange(s: Stats, ops: seq<Op>)
    requires InRange(s) && NonNegativePoints(ops)
    ensures InRange(Run(s, ops))
    decreases |ops|
  {
    if ops != [] {
      assert ops[0].AddScore? ==> ops[0].points >= 0;
      RunStaysInRange(Step(s, ops[0]), ops[1..]);
    }
  }

  /** Only `addScore` and a reset touch the score; only `removeLife` and a reset touch lives. */
  lemma {:induction false} ScoreOnlyFromAddScore(s: Stats, ops: seq<Op>)
    requires NoReset(ops)
    requires forall i :: 0 <= i < |ops| ==> !ops[i].AddScore?
    ensures Run(s, ops).score == s.score
    decreases |ops|
  {
    if ops != [] {
      assert !ops[0].ResetGame? && !ops[0].AddScore?;
      ScoreOnlyFromAddScore(Step(s, ops[0]), ops[1..]);
    }
  }

  /** A run that drives lives to zero stays at zero until a reset. */
  lemma {:induction false} GameOverIsSticky(s: Stats, ops: seq<Op>)
    requires s.lives == 0 && NoReset(ops)
    ensures Run(s, ops).lives == 0
    decreases |ops|
  {
    if ops != [] {
      assert !ops[0].ResetGame?;
      GameOverIsSticky(Step(s, ops[0]), ops[1..]);
    }
  }

  /** Runs compose: doing `a` then `b` is doing `a + b`. */
  lemma {:induction false} RunAppend(s: Stats, a: seq<Op>, b: seq<Op>)
    ensures Run(s, a + b) == Run(Run(s, a), b)
    decreases |a|
  {
    if a != [] {
      assert (a + b)[0] == a[0];
      assert (a + b)[1..] == a[1..] + b;
      RunAppend(Step(s, a[0]), a[1..], b);
      assert Run(s, a + b) == Run(Step(s, a[0]), a[1..] + b);
    } else {
      assert a + b == b;
    }
  }

  /** A run ending in `resetGame` lands in the initial state, whatever came before. */
  lemma ResetAfterAnything(s: Stats, ops: seq<Op>)
    ensures Run(s, ops + [ResetGame]) == Initial
  {
    RunAppend(s, ops, [ResetGame]);
  }

  /** Toggling the pause twice is the identity. */
  lemma ToggleTwice(s: Stats)
    ensures Step(Step(s, TogglePause), TogglePause) == s
  {
  }

  /** Resetting is idempotent. */
  lemma ResetIdempotent(s: Stats)
    ensures Step(Step(s, ResetGame), ResetGame) == Step(s, ResetGame) == Initial
  {
  }

  /** The provider's four `useState` cells, overwritten by its operations. */
  class GameState {
    var score: int
    var lives: int
    var level: int
    var paused: bool

    function Snapshot(): Stats
      reads this
    {
      Stats(score, lives, level, paused)
    }

    constructor ()
      ensures score == 0 && lives == 3 && level == 1 && !paused
      ensures Snapshot() == Initial
    {
      score, lives, level, paused := 0, 3, 1, false;
    }

    method AddScore(points: int)
      modifies this
      ensures score == old(score) + points
      ensures lives == old(lives) && level == old(level) && paused == old(paused)
      ensures Snapshot() == Step(old(Snapshot()), Op.AddScore(points))
    {
      score := score + points;
    }

    method RemoveLife()
      modifies this
      ensures lives == LoseLife(old(lives))
      ensures score == old(score) && level == old(level) && paused == old(paused)
      ensures Snapshot() == Step(old(Snapshot()), Op.RemoveLife)
    {
      lives := if lives - 1 > 0 then lives - 1 else 0;
    }

    method ResetGame()
      modifies this
      ensures Snapshot() == Initial
      ensures Snapshot() == Step(old(Snapshot()), Op.ResetGame)
    {
      score := 0;
      lives := 3;
      level := 1;
      paused := false;
    }

    method TogglePause()
      modifies this
      ensures paused == !old(paused)
      ensures score == old(score) && lives == old(lives) && level == old(level)
      ensures Snapshot() == Step(old(Snapshot()), Op.TogglePause)
    {
      paused := !paused;
    }

    method IncrementLevel()
      modifies this
      ensures level == old(level) + 1
      ensures score == old(score) && lives == old(lives) && paused == old(paused)
      ensures Snapshot() == Step(old(Snapshot()), Op.IncrementLevel)
    {
      level := level + 1;
    }

    method SetPaused(p: bool)
      modifies this
      ensures paused == p
      ensures score == old(score) && lives == old(lives) && level == old(level)
      ensures Snapshot() == Step(old(Snapshot()), Op.SetPaused(p))
    {
      paused := p;
    }
  }

  /** What `useContext` sees: the value of the nearest provider, or nothing. */
  datatype Enclosing = NoProvider | Provider(state: GameState)

  datatype Lookup = Found(state: GameState) | UsedOutsideProvider

  /** `useGameContext`: the nearest provider's state, or the error it throws
      when no provider encloses the caller. */
  function UseGameContext(enclosing: Enclosing): (r: Lookup)
    ensures r.UsedOutsideProvider? <==> enclosing.NoProvider?
    ensures r.Found? ==> r.state == enclosing.state
  {
    match enclosing
    case NoProvider => UsedOutsideProvider
    case Provider(state) => Found(state)
  }
}
