/**
 * The server's game model: one guessing session per session id, held in a
 * registry (`class Game` with its `games` Map in the source).
 *
 * A session is a record that `processGuess` updates in place; here it is a
 * `GameState` value that the registry's map holds and that `ProcessGuess`
 * replaces.  `GuessStep` states one guess as a function of the old state;
 * `ProcessGuess` performs it field by field and is proved to agree with it.
 * Clocks are parameters: `now` is the millisecond timestamp `Date.now()`
 * would give.
 */
module Session {
  import opened Wrappers
  import opened Text
  import opened LetterFeedback

  datatype Status = Active | Won | Lost

  datatype GuessResult = GuessResult(word: string, feedback: seq<Tag>, guessNumber: nat)

  datatype GameState = GameState(
    sessionId: string,
    targetWord: string,
    guesses: seq<GuessResult>,
    maxGuesses: nat,
    gameStatus: Status,
    currentGuess: nat,
    score: int,
    startTime: int,
    endTime: Option<int>)

  /** What the client is shown of a session. */
  datatype PublicGameState = PublicGameState(
    sessionId: string,
    guesses: seq<GuessResult>,
    maxGuesses: nat,
    gameStatus: Status,
    currentGuess: nat,
    score: int,
    wordLength: nat,
    targetWord: Option<string>)

  datatype GameError =
    | SessionNotFound       // 'Game session not found'
    | GameFinished          // 'Game is already finished'
    | MaxGuessesReached     // 'Maximum guesses reached'
    | WrongLength(expected: nat)  // 'Word must be N letters long'

  datatype GuessReply = GuessReply(guessResult: GuessResult, gameState: PublicGameState)

  const MaxGuesses: nat := 6
  const BaseScore: int := 1000

  // ---------------------------------------------------------------------
  // Scoring

  /** max(0, 500 - floor(elapsedMs / 1000) * 10); Dafny's `/` by a positive
      divisor is the floor, as `Math.floor` of the quotient is. */
  function TimeBonus(elapsedMs: int): (b: int)
    ensures b >= 0 && b % 10 == 0
    ensures 0 <= elapsedMs ==> b <= 500
    ensures b == 0 <==> elapsedMs >= 50000
    ensures 0 <= elapsedMs < 1000 ==> b == 500
  {
    var raw := 500 - (elapsedMs / 1000) * 10;
    if raw < 0 then 0 else raw
  }

  /** The time bonus never grows with the elapsed time. */
  lemma TimeBonusMonotone(e1: int, e2: int)
    requires e1 <= e2
    ensures TimeBonus(e2) <= TimeBonus(e1)
  {
  }

  /** Milliseconds from start to end; a missing end time reads as 0, as
      `null` does in the source's subtraction. */
  function Elapsed(s: GameState): (ms: int) {
    (if s.endTime.Some? then s.endTime.value else 0) - s.startTime
  }

  function CalculateScore(s: GameState): (r: int)
    ensures s.gameStatus != Won ==> r == 0
  {
    if s.gameStatus != Won then 0
    else BaseScore + (s.maxGuesses - s.currentGuess) * 100 + TimeBonus(Elapsed(s))
  }

  /** A win on the first of six guesses after ten seconds scores
      1000 + 500 + 400. */
  lemma ScoreExample(s: GameState)
    requires s.gameStatus == Won && s.maxGuesses == 6 && s.currentGuess == 1
    requires Elapsed(s) == 10000
    ensures CalculateScore(s) == 1900
  {
  }

  // ---------------------------------------------------------------------
  // The session state machine

  /** The record `createGame` builds. */
  function NewGame(sessionId: string, targetWord: string, now: int): (s: GameState)
    ensures s.sessionId == sessionId && s.targetWord == ToUpper(targetWord)
    ensures s.guesses == [] && s.currentGuess == 0 && s.maxGuesses == 6
    ensures s.gameStatus == Active && s.score == 0 && s.endTime == None
    ensures s.startTime == now
    ensures WellFormed(s)
  {
    ToUpperNoLower(targetWord);
    GameState(sessionId, ToUpper(targetWord), [], MaxGuesses, Active, 0, 0, now, None)
  }

  /** The guess at position k is the target word. */
  predicate Hits(s: GameState, k: int)
    requires 0 <= k < |s.guesses|
  {
    s.guesses[k].word == s.targetWord
  }

  /** The invariants `createGame` establishes and `processGuess` keeps. */
  ghost predicate WellFormed(s: GameState) {
    && NoLower(s.targetWord)
    && |s.guesses| == s.currentGuess <= s.maxGuesses
    && (forall k :: 0 <= k < |s.guesses| ==>
          s.guesses[k].guessNumber == k + 1
          && |s.guesses[k].word| == |s.targetWord|
          && s.guesses[k].feedback == Feedback(s.guesses[k].word, s.targetWord))
    && (forall k :: 0 <= k < |s.guesses| - 1 ==> !Hits(s, k))
    && (s.gameStatus == Active ==>
          s.currentGuess < s.maxGuesses && s.endTime == None && s.score == 0
          && (s.guesses != [] ==> !Hits(s, |s.guesses| - 1)))
    && (s.gameStatus == Won ==>
          s.guesses != [] && Hits(s, |s.guesses| - 1) && s.endTime.Some? && s.score == CalculateScore(s))
    && (s.gameStatus == Lost ==>
          s.currentGuess == s.maxGuesses && s.endTime.Some? && s.score == 0
          && (s.guesses != [] ==> !Hits(s, |s.guesses| - 1)))
  }

  /** One call of `processGuess` on a session that exists: the three checks
      in the source's order, then the appended result and the status change. */
  function GuessStep(s: GameState, guess: string, now: int): (r: Result<(GameState, GuessResult), GameError>)
    ensures r.Failure? <==>
      s.gameStatus != Active || s.currentGuess >= s.maxGuesses || |guess| != |s.targetWord|
    ensures s.gameStatus != Active ==> r == Failure(GameFinished)
    ensures s.gameStatus == Active && s.currentGuess >= s.maxGuesses ==> r == Failure(MaxGuessesReached)
    ensures s.gameStatus == Active && s.currentGuess < s.maxGuesses && |guess| != |s.targetWord| ==>
      r == Failure(WrongLength(|s.targetWord|))
    ensures r.Success? ==>
      var (t, g) := r.value;
      && g == GuessResult(ToUpper(guess), Feedback(ToUpper(guess), s.targetWord), s.currentGuess + 1)
      && t.guesses == s.guesses + [g]
      && t.currentGuess == s.currentGuess + 1
      && t.sessionId == s.sessionId && t.targetWord == s.targetWord
      && t.maxGuesses == s.maxGuesses && t.startTime == s.startTime
      && (t.gameStatus == Won <==> g.word == s.targetWord)
      && (t.gameStatus == Lost <==> g.word != s.targetWord && t.currentGuess >= t.maxGuesses)
      && (t.gameStatus != Active ==> t.endTime == Some(now))
      && (t.gameStatus == Active ==> t.endTime == s.endTime && t.score == s.score)
  {
    if s.gameStatus != Active then Failure(GameFinished)
    else if s.currentGuess >= s.maxGuesses then Failure(MaxGuessesReached)
    else
      var upper := ToUpper(guess);
      if |upper| != |s.targetWord| then Failure(WrongLength(|s.targetWord|))
      else
        var g := GuessResult(upper, Feedback(upper, s.targetWord), s.currentGuess + 1);
        var t := s.(guesses := s.guesses + [g], currentGuess := s.currentGuess + 1);
        if upper == s.targetWord then
          var w := t.(gameStatus := Won, endTime := Some(now));
          Success((w.(score := CalculateScore(w)), g))
        else if t.currentGuess >= t.maxGuesses then
          Success((t.(gameStatus := Lost, endTime := Some(now)), g))
        else
          Success((t, g))
  }

  /** A valid active session always has a guess left, so the source's
      'Maximum guesses reached' check never fires on a session it created. */
  lemma ActiveHasGuessLeft(s: GameState)
    requires WellFormed(s) && s.gameStatus == Active
    ensures s.currentGuess < s.maxGuesses
    ensures GuessStep(s, s.targetWord, 0) != Failure(MaxGuessesReached)
  {
  }

  /** Every successful guess keeps the session invariants. */
  lemma GuessStepKeepsValid(s: GameState, guess: string, now: int)
    requires WellFormed(s)
    requires GuessStep(s, guess, now).Success?
    ensures WellFormed(GuessStep(s, guess, now).value.0)
  {
    var (t, g) := GuessStep(s, guess, now).value;
    assert t.guesses[|s.guesses|] == g;
    assert forall k :: 0 <= k < |s.guesses| ==> t.guesses[k] == s.guesses[k];
    forall k | 0 <= k < |t.guesses| - 1
      ensures !Hits(t, k)
    {
      assert t.guesses[k] == s.guesses[k];
      assert k < |s.guesses| - 1 ==> !Hits(s, k);
    }
  }

  /** Status only moves forward: from active, and only to won or lost. */
  lemma GuessStepStatus(s: GameState, guess: string, now: int)
    requires GuessStep(s, guess, now).Success?
    ensures s.gameStatus == Active
    ensures GuessStep(s, guess, now).value.0.gameStatus == Won <==> ToUpper(guess) == s.targetWord
  {
  }

  /** The target word itself, in any letter case, wins and gets all-`correct` feedback. */
  lemma GuessingTheTargetWins(s: GameState, guess: string, now: int)
    requires WellFormed(s) && s.gameStatus == Active
    requires ToUpper(guess) == s.targetWord
    ensures GuessStep(s, guess, now).Success?
    ensures var (t, g) := GuessStep(s, guess, now).value;
      t.gameStatus == Won && g.feedback == seq(|s.targetWord|, _ => Correct)
      && t.score == CalculateScore(t) && t.score >= BaseScore
  {
    FeedbackAllCorrect(s.targetWord);
  }

  /** The last allowed guess, when it misses, loses the game with score 0,
      and every later guess is refused. */
  lemma LastMissLoses(s: GameState, guess: string, now: int, later: string, now2: int)
    requires WellFormed(s) && s.gameStatus == Active
    requires s.currentGuess == s.maxGuesses - 1
    requires |guess| == |s.targetWord| && ToUpper(guess) != s.targetWord
    ensures GuessStep(s, guess, now).Success?
    ensures var t := GuessStep(s, guess, now).value.0;
      t.gameStatus == Lost && t.score == 0 && t.currentGuess == t.maxGuesses
      && GuessStep(t, later, now2) == Failure(GameFinished)
  {
  }

  /** A won score is 1000 plus the guess bonus plus the time bonus, so with
      six guesses and a non-negative elapsed time it lies in [1000, 2000]. */
  lemma WonScoreBounds(s: GameState)
    requires WellFormed(s) && s.gameStatus == Won
    requires s.maxGuesses == MaxGuesses && Elapsed(s) >= 0
    ensures s.score == BaseScore + (s.maxGuesses - s.currentGuess) * 100 + TimeBonus(Elapsed(s))
    ensures BaseScore <= s.score <= 2000
  {
  }

  /** The view the client gets: the target is hidden while the game is active. */
  function PublicView(s: GameState): (v: PublicGameState)
    ensures v.targetWord.Some? <==> s.gameStatus != Active
    ensures v.targetWord.Some? ==> v.targetWord.value == s.targetWord
    ensures v.wordLength == |s.targetWord|
    ensures v.guesses == s.guesses && v.currentGuess == s.currentGuess && v.maxGuesses == s.maxGuesses
    ensures v.gameStatus == s.gameStatus && v.score == s.score && v.sessionId == s.sessionId
  {
    PublicGameState(s.sessionId, s.guesses, s.maxGuesses, s.gameStatus, s.currentGuess, s.score,
                    |s.targetWord|, if s.gameStatus != Active then Some(s.targetWord) else None)
  }

  // ---------------------------------------------------------------------
  // The registry

  class GameRegistry {
    var games: map<string, GameState>

    /** Every stored session is filed under its own id and is valid. */
    ghost predicate Valid()
      reads this
    {
      forall id :: id in games ==> games[id].sessionId == id && WellFormed(games[id])
    }

    constructor ()
      ensures Valid() && games == map[]
    {
      games := map[];
    }

    /** `createGame`: registers (or replaces) an active, empty session. */
    method CreateGame(sessionId: string, targetWord: string, now: int) returns (view: PublicGameState)
      requires Valid()
      modifies this
      ensures Valid()
      ensures games == old(games)[sessionId := NewGame(sessionId, targetWord, now)]
      ensures view == PublicView(NewGame(sessionId, targetWord, now))
      ensures view.targetWord == None && view.wordLength == |targetWord| && view.guesses == []
    {
      var state := GameState(sessionId, ToUpper(targetWord), [], MaxGuesses, Active, 0, 0, now, None);
      games := games[sessionId := state];
      view := PublicView(state);
    }

    /** `processGuess`: every failure leaves the registry as it was. */
    method ProcessGuess(sessionId: string, guess: string, now: int) returns (r: Result<GuessReply, GameError>)
      requires Valid()
      modifies this
      ensures Valid()
      ensures sessionId !in old(games) ==> r == Failure(SessionNotFound) && games == old(games)
      ensures sessionId in old(games) ==>
        match GuessStep(old(games)[sessionId], guess, now)
        case Failure(e) => r == Failure(e) && games == old(games)
        case Success((t, g)) => r == Success(GuessReply(g, PublicView(t))) && games == old(games)[sessionId := t]
    {
      if sessionId !in games {
        return Failure(SessionNotFound);
      }
      var state := games[sessionId];
      if state.gameStatus != Active {
        return Failure(GameFinished);
      }
      if state.currentGuess >= state.maxGuesses {
        return Failure(MaxGuessesReached);
      }
      var upper := ToUpper(guess);
      var target := state.targetWord;
      if |upper| != |target| {
        return Failure(WrongLength(|target|));
      }

      var next, result := RecordGuess(state, guess, upper, now);
      GuessStepKeepsValid(state, guess, now);
      games := games[sessionId := next];
      r := Success(GuessReply(result, PublicView(next)));
    }

    /** The part of `processGuess` after its checks: the feedback is computed,
        the result appended, and the status, end time and score updated. */
    static method RecordGuess(state: GameState, guess: string, upper: string, now: int)
      returns (next: GameState, result: GuessResult)
      requires upper == ToUpper(guess)
      requires state.gameStatus == Active && state.currentGuess < state.maxGuesses
      requires |upper| == |state.targetWord|
      ensures GuessStep(state, guess, now) == Success((next, result))
    {
      var target := state.targetWord;
      var feedback := CalculateFeedback(upper, target);
      result := GuessResult(upper, feedback, state.currentGuess + 1);

      next := state.(guesses := state.guesses + [result]);
      next := next.(currentGuess := next.currentGuess + 1);

      if upper == target {
        next := next.(gameStatus := Won);
        next := next.(endTime := Some(now));
        next := next.(score := CalculateScore(next));
      } else if next.currentGuess >= next.maxGuesses {
        next := next.(gameStatus := Lost);
        next := next.(endTime := Some(now));
      }
    }

    /** `getGame`: the public view, or 'Game session not found'. */
    method GetGame(sessionId: string) returns (r: Result<PublicGameState, GameError>)
      ensures sessionId in games ==> r == Success(PublicView(games[sessionId]))
      ensures sessionId !in games ==> r == Failure(SessionNotFound)
    {
      if sessionId !in games {
        return Failure(SessionNotFound);
      }
      r := Success(PublicView(games[sessionId]));
    }

    /** `deleteGame`: removing an id that is not there changes nothing. */
    method DeleteGame(sessionId: string)
      requires Valid()
      modifies this
      ensures Valid()
      ensures games == old(games) - {sessionId}
      ensures sessionId !in old(games) ==> games == old(games)
    {
      games := games - {sessionId};
    }

    /** `getActiveGamesCount`: the number of stored sessions, finished ones included. */
    method GetActiveGamesCount() returns (n: nat)
      ensures n == |games|
    {
      n := |games|;
    }
  }
}
