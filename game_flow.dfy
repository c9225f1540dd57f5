/**
 * The game's flow: three rounds, one per word, each going through the intro, play and
 * celebrate screens, and then the survey screen, which the game never leaves.
 */
module GameFlow {
  import Translations

  datatype Screen = Intro | Play | Celebrate | Survey

  datatype Word = Sun | Cat | Ball

  /** The record the game hook holds. */
  datatype GameState = GameState(
    currentRound: int,
    currentScreen: Screen,
    currentWord: Word,
    completedWords: seq<Word>,
    totalRounds: int)

  /** The words of the game, one per round, in order. */
  const Words: seq<Word> := [Sun, Cat, Ball]

  /** The key the translation tables use for a word. */
  function WordKey(w: Word): string
  {
    match w
    case Sun => "sun"
    case Cat => "cat"
    case Ball => "ball"
  }

  /** The record a game starts from, and the one `resetGame` restores. */
  function Initial(): GameState
  {
    GameState(1, Intro, Words[0], [], |Words|)
  }

  /**
   * `nextScreen` reads `words[nextRound - 1]` when it leaves the celebrate screen before the
   * last round; the index is in range only when the round is between 1 and the word count.
   */
  predicate CanAdvance(s: GameState)
  {
    s.currentScreen == Celebrate && s.currentRound != s.totalRounds ==> 1 <= s.currentRound + 1 <= |Words|
  }

  /**
   * `nextScreen`: intro, play and celebrate follow each other; celebrate either starts the
   * next round or, after the last one, shows the survey, which stays put.
   */
  function Next(s: GameState): (r: GameState)
    requires CanAdvance(s)
    ensures r.totalRounds == s.totalRounds
    ensures s.currentRound <= r.currentRound <= s.currentRound + 1
    ensures r.currentRound == s.currentRound + 1
        <==> s.currentScreen == Celebrate && s.currentRound != s.totalRounds
    ensures r.completedWords == s.completedWords + [s.currentWord] <==> s.currentScreen == Celebrate
    ensures s.currentScreen != Celebrate ==> r.completedWords == s.completedWords
    ensures r.currentScreen == Survey
        <==> s.currentScreen == Survey || (s.currentScreen == Celebrate && s.currentRound == s.totalRounds)
    ensures r.currentWord != s.currentWord ==> r.currentRound == s.currentRound + 1
    ensures s.currentScreen == Survey ==> r == s
    ensures s.currentScreen == Intro ==> r.currentScreen == Play
    ensures s.currentScreen == Play ==> r.currentScreen == Celebrate
    ensures s.currentScreen == Celebrate && s.currentRound != s.totalRounds ==> r.currentScreen == Intro
  {
    match s.currentScreen
    case Intro => s.(currentScreen := Play)
    case Play => s.(currentScreen := Celebrate)
    case Celebrate =>
      if s.currentRound == s.totalRounds then
        s.(currentScreen := Survey, completedWords := s.completedWords + [s.currentWord])
      else
        var nextRound := s.currentRound + 1;
        s.(currentRound := nextRound, currentScreen := Intro, currentWord := Words[nextRound - 1],
           completedWords := s.completedWords + [s.currentWord])
    case Survey => s
  }

  /** `isGameComplete`. */
  predicate GameComplete(s: GameState)
  {
    s.currentScreen == Survey
  }

  /**
   * The states a game can reach: the round is between 1 and 3 and names the current word;
   * before the survey the completed words are those of the earlier rounds, at the survey all
   * three.
   */
  predicate Reachable(s: GameState)
  {
    && s.totalRounds == |Words|
    && 1 <= s.currentRound <= s.totalRounds
    && s.currentWord == Words[s.currentRound - 1]
    && (s.currentScreen != Survey ==> s.completedWords == Words[..s.currentRound - 1])
    && (s.currentScreen == Survey ==> s.currentRound == s.totalRounds && s.completedWords == Words)
  }

  /** A game starts in a reachable state: round 1, intro, `sun`, nothing completed, 3 rounds. */
  lemma InitialReachable()
    ensures Reachable(Initial())
    ensures Initial().currentRound == 1 && Initial().currentScreen == Intro
    ensures Initial().currentWord == Sun && Initial().completedWords == [] && Initial().totalRounds == 3
  {
  }

  /** Every reachable state can advance, and advancing keeps it reachable. */
  lemma NextReachable(s: GameState)
    requires Reachable(s)
    ensures CanAdvance(s)
    ensures Reachable(Next(s))
  {
    if s.currentScreen == Celebrate && s.currentRound != s.totalRounds {
      assert Words[..s.currentRound - 1] + [Words[s.currentRound - 1]] == Words[..s.currentRound];
    }
    if s.currentScreen == Celebrate && s.currentRound == s.totalRounds {
      assert Words[..2] + [Words[2]] == Words;
    }
  }

  /** The state after `k` calls of `nextScreen` from the start of a game. */
  function Run(k: nat): (s: GameState)
    ensures Reachable(s)
  {
    if k == 0 then
      InitialReachable();
      Initial()
    else
      var p := Run(k - 1);
      NextReachable(p);
      Next(p)
  }

  /** The screen of step `k` of a round. */
  function RoundScreen(k: nat): Screen
  {
    if k % 3 == 0 then Intro else if k % 3 == 1 then Play else Celebrate
  }

  /**
   * The whole game: the first nine steps go through intro, play and celebrate for each word
   * in turn; from the ninth on the survey is shown, with all three words completed.
   */
  lemma {:induction false} RunClosedForm(k: nat)
    ensures k < 9 ==> Run(k).currentRound == k / 3 + 1 && Run(k).currentScreen == RoundScreen(k)
                      && Run(k).completedWords == Words[..k / 3]
    ensures k >= 9 ==> Run(k).currentRound == 3 && Run(k).currentScreen == Survey
                       && Run(k).currentWord == Ball && Run(k).completedWords == Words
  {
    if k > 0 {
      RunClosedForm(k - 1);
    }
  }

  /** The game is complete exactly from the ninth `nextScreen` on; never while celebrating. */
  lemma CompleteAfterNineSteps(k: nat)
    ensures GameComplete(Run(k)) <==> k >= 9
    ensures Run(k).currentScreen == Celebrate ==> !GameComplete(Run(k))
  {
    RunClosedForm(k);
  }

  /** Along a game the round never decreases and the completed words only grow at the end. */
  lemma {:induction false} RunMonotone(j: nat, k: nat)
    requires j <= k
    ensures Run(j).currentRound <= Run(k).currentRound
    ensures Run(j).completedWords <= Run(k).completedWords
    decreases k - j
  {
    if j < k {
      RunMonotone(j, k - 1);
      var p := Run(k - 1);
      NextReachable(p);
    }
  }

  /** `getClue`: the English clue of a word (useGameState.ts:16-20). */
  function Clue(w: Word): string
  {
    match w
    case Sun => "It shines in the sky in daytime."
    case Cat => "A small animal that says meow."
    case Ball => "You can throw it; it can bounce."
  }

  /** The twist prompts of a word (useGameState.ts:22-26). */
  function TwistPromptList(w: Word): seq<string>
  {
    match w
    case Sun => ["Draw a tiny sun", "Draw a sleepy sun", "Draw a rainbow sun"]
    case Cat => ["Draw a flying cat", "Draw a superhero cat", "Draw a dancing cat"]
    case Ball => ["Draw a square ball", "Draw a bouncing ball", "Draw a magic ball"]
  }

  /**
   * `getTwistPrompt`: the prompt at `Math.floor(random * prompts.length)`, where `random`
   * stands for the value `Math.random()` returned, in [0, 1).
   */
  function TwistPrompt(w: Word, random: real): (p: string)
    requires 0.0 <= random < 1.0
    ensures p in TwistPromptList(w)
  {
    var prompts := TwistPromptList(w);
    var i := (random * |prompts| as real).Floor;
    assert 0 <= i < |prompts| by {
      assert 0.0 <= random * 3.0 < 3.0;
    }
    prompts[i]
  }

  /** Every prompt can be drawn: each has a range of random values that selects it. */
  lemma EveryTwistPromptReachable(w: Word, i: nat)
    requires i < 3
    ensures TwistPrompt(w, i as real / 3.0) == TwistPromptList(w)[i]
  {
    assert (i as real / 3.0 * 3.0).Floor == i;
  }

  /**
   * The hook's own English clues and twist prompts are the English entries of the
   * translation tables, and the game's words are the tables' keys.
   */
  lemma AgreesWithEnglishTables(w: Word)
    ensures WordKey(w) in Translations.Clues(Translations.En)
    ensures Translations.Clues(Translations.En)[WordKey(w)] == Clue(w)
    ensures Translations.TwistPrompts(Translations.En)[WordKey(w)] == TwistPromptList(w)
    ensures Translations.Words(Translations.En)[WordKey(w)] == WordKey(w)
  {
  }

  /** The hook: the game record it holds and the updates `nextScreen` and `resetGame` make. */
  class GameStore {
    var gameState: GameState

    /** The record `useState` starts from. */
    constructor()
      ensures gameState == Initial() && Reachable(gameState)
    {
      gameState := Initial();
      InitialReachable();
    }

    /** `nextScreen`: replaces the record by its successor. */
    method NextScreen()
      requires Reachable(gameState)
      modifies this
      ensures Reachable(gameState)
      ensures gameState == Next(old(gameState))
    {
      NextReachable(gameState);
      gameState := Next(gameState);
    }

    /** `resetGame`: from any record, back to the start of a game. */
    method ResetGame()
      modifies this
      ensures gameState == Initial() && Reachable(gameState)
    {
      gameState := Initial();
      InitialReachable();
    }
  }
}
