/** The top-level screen switch: which of the three screens is shown, and
    the score reported by the last finished game. */
module Navigation {
  import GameContext

  datatype Screen = Start | Playing | GameOver

  /** The screen components the top-level component can render. */
  datatype Component = StartScreen | GameScreen | GameOverScreen

  /** The components rendered for a screen: three independent conditional
      renders, of which exactly one holds. */
  function Rendered(s: Screen): (r: seq<Component>)
    ensures |r| == 1
    ensures r[0] == StartScreen <==> s == Start
    ensures r[0] == GameScreen <==> s == Playing
    ensures r[0] == GameOverScreen <==> s == GameOver
  {
    (if s == Start then [StartScreen] else [])
    + (if s == Playing then [GameScreen] else [])
    + (if s == GameOver then [GameOverScreen] else [])
  }

  /** The tree the top-level component renders: the shown screen component,
      paired with what encloses it, which is always the one `GameProvider`. */
  function Mounted(s: Screen, provider: GameContext.GameState): seq<(Component, GameContext.Enclosing)>
  {
    seq(|Rendered(s)|, i requires 0 <= i < |Rendered(s)| => (Rendered(s)[i], GameContext.Provider(provider)))
  }

  /** Whatever the screen, the component shown finds the provider's state:
      `useGameContext` never throws inside the app. */
  lemma ScreensFindTheProvider(s: Screen, provider: GameContext.GameState)
    ensures |Mounted(s, provider)| == 1 && Mounted(s, provider)[0].0 == Rendered(s)[0]
    ensures forall i :: 0 <= i < |Mounted(s, provider)| ==>
      GameContext.UseGameContext(Mounted(s, provider)[i].1) == GameContext.Found(provider)
  {
  }

  /** The four handlers, as events. */
  datatype Handler = StartGameCall | EndGameCall(score: int) | RestartGameCall | GoToStartCall

  datatype View = View(screen: Screen, finalScore: int)

  function Apply(v: View, h: Handler): View
  {
    match h
    case StartGameCall => v.(screen := Playing)
    case EndGameCall(score) => View(GameOver, score)
    case RestartGameCall => v.(screen := Playing)
    case GoToStartCall => v.(screen := Start)
  }

  function ApplyAll(v: View, hs: seq<Handler>): View
    decreases |hs|
  {
    if hs == [] then v else ApplyAll(Apply(v, hs[0]), hs[1..])
  }

  /** The score of the last `endGame` in a run, if there was one. */
  function LastReported(hs: seq<Handler>, otherwise: int): int
    decreases |hs|
  {
    if hs == [] then otherwise
    else if hs[|hs| - 1].EndGameCall? then hs[|hs| - 1].score
    else LastReported(hs[..|hs| - 1], otherwise)
  }

  /** The shown final score is always the one reported by the most recent
      game over, or the initial 0 before the first one. */
  lemma {:induction false} FinalScoreIsLastReported(v: View, hs: seq<Handler>)
    ensures ApplyAll(v, hs).finalScore == LastReported(hs, v.finalScore)
    decreases |hs|
  {
    if hs != [] {
      FinalScoreIsLastReported(Apply(v, hs[0]), hs[1..]);
      LastReportedOfTail(hs, v.finalScore);
    }
  }

  lemma {:induction false} LastReportedOfTail(hs: seq<Handler>, otherwise: int)
    requires hs != []
    ensures LastReported(hs[1..], if hs[0].EndGameCall? then hs[0].score else otherwise)
            == LastReported(hs, otherwise)
    decreases |hs|
  {
    if |hs| > 1 && !hs[|hs| - 1].EndGameCall? {
      assert hs[1..][..|hs[1..]| - 1] == hs[..|hs| - 1][1..];
      LastReportedOfTail(hs[..|hs| - 1], otherwise);
    } else if |hs| == 1 {
      assert hs[..0] == [];
    }
  }

  /** The game-over screen is shown exactly when the last handler run was `endGame`. */
  lemma GameOverShownAfterEndGame(v: View, hs: seq<Handler>)
    requires hs != []
    ensures ApplyAll(v, hs).screen == GameOver <==> hs[|hs| - 1].EndGameCall?
  {
    ApplyAllLast(v, hs);
  }

  lemma {:induction false} ApplyAllLast(v: View, hs: seq<Handler>)
    requires hs != []
    ensures ApplyAll(v, hs) == Apply(ApplyAll(v, hs[..|hs| - 1]), hs[|hs| - 1])
    decreases |hs|
  {
    if |hs| > 1 {
      assert hs[1..][..|hs[1..]| - 1] == hs[..|hs| - 1][1..];
      ApplyAllLast(Apply(v, hs[0]), hs[1..]);
    } else {
      assert hs[..0] == [];
    }
  }

  class App {
    var screen: Screen
    var finalScore: int

    function Current(): View
      reads this
    {
      View(screen, finalScore)
    }

    constructor ()
      ensures screen == Start && finalScore == 0
    {
      screen := Start;
      finalScore := 0;
    }

    method StartGame()
      modifies this
      ensures screen == Playing && finalScore == old(finalScore)
      ensures Current() == Apply(old(Current()), StartGameCall)
    {
      screen := Playing;
    }

    /** The game screen's `onGameOver` callback. */
    method EndGame(score: int)
      modifies this
      ensures screen == GameOver && finalScore == score
      ensures Current() == Apply(old(Current()), EndGameCall(score))
    {
      finalScore := score;
      screen := GameOver;
    }

    method RestartGame()
      modifies this
      ensures screen == Playing && finalScore == old(finalScore)
      ensures Current() == Apply(old(Current()), RestartGameCall)
    {
      screen := Playing;
    }

    method GoToStart()
      modifies this
      ensures screen == Start && finalScore == old(finalScore)
      ensures Current() == Apply(old(Current()), GoToStartCall)
    {
      screen := Start;
    }
  }
}
