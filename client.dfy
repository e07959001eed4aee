/**
 * The browser's game manager: the letters typed for the current row, the row
 * being filled, the flag that blocks input while a guess is in flight, the
 * session the server last reported, and the win/loss counters kept in the
 * browser's storage.
 *
 * Server replies are parameters: `StartGame` receives the new session (or
 * nothing when the request failed) and `SubmitGuess` receives the outcome of
 * its two requests, the dictionary check and the guess itself.  Drawing
 * tiles, toasts and animations is not modelled.
 */
module Client {
  import opened Wrappers
  import opened Text
  import opened Session

  /** The counters kept in the browser's storage. */
  datatype Statistics = Statistics(totalGames: nat, gamesWon: nat, bestScore: int)

  const DefaultStatistics: Statistics := Statistics(0, 0, 0)

  /** What came back for a submitted guess. */
  datatype Exchange =
    | NotInDictionary          // the dictionary check answered "not valid"
    | RequestFailed            // one of the two requests threw
    | Accepted(reply: GuessReply)

  /** What a key press asks for. */
  datatype KeyAction = Submit | Erase | Type(letter: char) | Ignore

  // ---------------------------------------------------------------------
  // The typed-guess buffer, as functions

  /** A letter appended while the buffer is shorter than the word. */
  function Typed(buffer: string, letter: char, wordLength: nat): (typed: string) {
    if |buffer| < wordLength then buffer + [letter] else buffer
  }

  /** The last letter removed, if there is one. */
  function Erased(buffer: string): (erased: string) {
    if |buffer| > 0 then buffer[..|buffer| - 1] else buffer
  }

  /** Typing never makes the buffer longer than the word. */
  lemma TypedBounded(buffer: string, letter: char, wordLength: nat)
    requires |buffer| <= wordLength
    ensures |Typed(buffer, letter, wordLength)| <= wordLength
    ensures Typed(buffer, letter, wordLength) == buffer <==> |buffer| == wordLength
  {
  }

  /** A letter typed and then erased leaves the buffer as it was, and erasing
      an empty buffer does nothing. */
  lemma ErasedTyped(buffer: string, letter: char, wordLength: nat)
    requires |buffer| < wordLength
    ensures Erased(Typed(buffer, letter, wordLength)) == buffer
    ensures Erased([]) == []
  {
  }

  /** ENTER submits, BACKSPACE erases, a single letter of either case is typed
      upper-cased, and every other key is ignored. */
  function Classify(key: string): (a: KeyAction)
    ensures a == Submit <==> key == "ENTER"
    ensures a == Erase <==> key == "BACKSPACE"
    ensures a.Type? <==> |key| == 1 && IsLetter(key[0])
    ensures a.Type? ==> IsUpper(a.letter) && a.letter == UpperChar(key[0])
  {
    if key == "ENTER" then Submit
    else if key == "BACKSPACE" then Erase
    else if |key| == 1 && IsLetter(key[0]) then Type(UpperChar(key[0]))
    else Ignore
  }

  /** The counters after one finished game. */
  function Counted(stats: Statistics, isWin: bool, score: int): (t: Statistics)
    ensures t.totalGames == stats.totalGames + 1
    ensures t.gamesWon == stats.gamesWon + (if isWin then 1 else 0)
    ensures t.bestScore >= stats.bestScore
    ensures isWin ==> t.bestScore >= score && (t.bestScore == score || t.bestScore == stats.bestScore)
    ensures !isWin ==> t.bestScore == stats.bestScore
  {
    var t := stats.(totalGames := stats.totalGames + 1);
    if isWin then
      t.(gamesWon := t.gamesWon + 1, bestScore := if score > t.bestScore then score else t.bestScore)
    else t
  }

  /** No more wins than games, before and after. */
  lemma CountedKeepsWinsBounded(stats: Statistics, isWin: bool, score: int)
    requires stats.gamesWon <= stats.totalGames
    ensures Counted(stats, isWin, score).gamesWon <= Counted(stats, isWin, score).totalGames
  {
  }

  // ---------------------------------------------------------------------
  // The manager

  class GameManager {
    var currentGame: Option<PublicGameState>
    var currentGuess: string
    var currentRow: nat
    var isProcessing: bool
    var difficulty: string
    var gameMode: string
    var stats: Statistics

    /** The buffer fits the word of an active game, holds only upper-case
        letters, and the stored counters have no more wins than games. */
    ghost predicate Valid()
      reads this
    {
      && (currentGame.Some? && currentGame.value.gameStatus == Active ==>
            |currentGuess| <= currentGame.value.wordLength)
      && (forall i :: 0 <= i < |currentGuess| ==> IsUpper(currentGuess[i]))
      && stats.gamesWon <= stats.totalGames
    }

    /** A fresh manager; the counters are those found in storage, or zeros
        when there are none. */
    constructor (stored: Option<Statistics>)
      requires stored.Some? ==> stored.value.gamesWon <= stored.value.totalGames
      ensures currentGame == None && currentGuess == "" && currentRow == 0 && !isProcessing
      ensures difficulty == "medium" && gameMode == "classic"
      ensures stats == if stored.Some? then stored.value else DefaultStatistics
      ensures Valid()
    {
      currentGame := None;
      currentGuess := "";
      currentRow := 0;
      difficulty := "medium";
      gameMode := "classic";
      isProcessing := false;
      stats := if stored.Some? then stored.value else DefaultStatistics;
    }

    /** Resets the buffer, the row and the in-flight flag, then installs the
        session the server created (none if the request failed). */
    method StartGame(difficulty': string, gameMode': string, response: Option<PublicGameState>)
      requires Valid()
      modifies this
      ensures Valid()
      ensures currentGuess == "" && currentRow == 0 && !isProcessing
      ensures difficulty == difficulty' && gameMode == gameMode'
      ensures currentGame == if response.Some? then response else old(currentGame)
      ensures stats == old(stats)
    {
      difficulty := difficulty';
      gameMode := gameMode';
      currentGuess := "";
      currentRow := 0;
      isProcessing := false;
      if response.Some? {
        currentGame := response;
      }
    }

    method AddLetter(letter: char)
      requires Valid() && IsUpper(letter)
      requires currentGame.Some?
      modifies this`currentGuess
      ensures Valid()
      ensures currentGuess == Typed(old(currentGuess), letter, currentGame.value.wordLength)
    {
      if |currentGuess| < currentGame.value.wordLength {
        currentGuess := currentGuess + [letter];
      }
    }

    method DeleteLetter()
      requires Valid()
      modifies this`currentGuess
      ensures Valid()
      ensures currentGuess == Erased(old(currentGuess))
    {
      if |currentGuess| > 0 {
        currentGuess := currentGuess[..|currentGuess| - 1];
      }
    }

    /** Counts a finished game in the stored statistics. */
    method UpdateStatistics(isWin: bool)
      requires Valid()
      requires isWin ==> currentGame.Some?
      modifies this`stats
      ensures Valid()
      ensures stats == Counted(old(stats), isWin, if isWin then currentGame.value.score else 0)
    {
      var s := stats;
      s := s.(totalGames := s.totalGames + 1);
      if isWin {
        s := s.(gamesWon := s.gamesWon + 1);
        if currentGame.value.score > s.bestScore {
          s := s.(bestScore := currentGame.value.score);
        }
      }
      stats := s;
    }

    /** What submitting the buffer did, against the state before.  A buffer
        of the wrong length (or no game) changes nothing.  A word the
        dictionary rejects, or a failed request, leaves everything as it was
        and clears the in-flight flag.  An accepted guess installs the
        server's new session; a win or a loss is counted, and a game that
        goes on moves to the next row with an empty buffer. */
    twostate predicate Submitted(exchange: Exchange)
      reads this
    {
      && difficulty == old(difficulty) && gameMode == old(gameMode)
      && (old(currentGame).None? || |old(currentGuess)| != old(currentGame).value.wordLength ==>
        && currentGame == old(currentGame) && currentGuess == old(currentGuess)
        && currentRow == old(currentRow) && isProcessing == old(isProcessing) && stats == old(stats))
      && (old(currentGame).Some? && |old(currentGuess)| == old(currentGame).value.wordLength ==>
        && !isProcessing
        && (exchange.Accepted? ==>
              var g := exchange.reply.gameState;
              && currentGame == Some(g)
              && (g.gameStatus == Active ==>
                    currentRow == old(currentRow) + 1 && currentGuess == "" && stats == old(stats))
              && (g.gameStatus != Active ==>
                    currentRow == old(currentRow) && currentGuess == old(currentGuess)
                    && stats == Counted(old(stats), g.gameStatus == Won, if g.gameStatus == Won then g.score else 0)))
        && (!exchange.Accepted? ==>
              currentGame == old(currentGame) && currentGuess == old(currentGuess)
              && currentRow == old(currentRow) && stats == old(stats)))
    }

    method SubmitGuess(exchange: Exchange)
      requires Valid()
      modifies this
      ensures Valid()
      ensures Submitted(exchange)
    {
      if currentGame.None? || |currentGuess| != currentGame.value.wordLength {
        return;
      }
      isProcessing := true;
      match exchange {
        case NotInDictionary =>
          isProcessing := false;
        case RequestFailed =>
          isProcessing := false;
        case Accepted(reply) =>
          currentGame := Some(reply.gameState);
          if reply.gameState.gameStatus == Won {
            UpdateStatistics(true);
          } else if reply.gameState.gameStatus == Lost {
            UpdateStatistics(false);
          } else {
            currentRow := currentRow + 1;
            currentGuess := "";
          }
          isProcessing := false;
      }
    }

    /** Ignores every key while a guess is in flight, without a game, or once
        the game is over; otherwise submits, erases or types as the key asks. */
    method HandleKeyPress(key: string, exchange: Exchange)
      requires Valid()
      modifies this
      ensures Valid()
      ensures difficulty == old(difficulty) && gameMode == old(gameMode)
      ensures old(isProcessing) || old(currentGame).None? || old(currentGame).value.gameStatus != Active ==>
        && currentGame == old(currentGame) && currentGuess == old(currentGuess)
        && currentRow == old(currentRow) && isProcessing == old(isProcessing) && stats == old(stats)
      ensures !old(isProcessing) && old(currentGame).Some? && old(currentGame).value.gameStatus == Active ==>
        match Classify(key)
        case Type(c) =>
          currentGuess == Typed(old(currentGuess), c, old(currentGame).value.wordLength)
          && currentGame == old(currentGame) && currentRow == old(currentRow) && stats == old(stats)
          && isProcessing == old(isProcessing)
        case Erase =>
          currentGuess == Erased(old(currentGuess))
          && currentGame == old(currentGame) && currentRow == old(currentRow) && stats == old(stats)
          && isProcessing == old(isProcessing)
        case Ignore =>
          currentGuess == old(currentGuess)
          && currentGame == old(currentGame) && currentRow == old(currentRow) && stats == old(stats)
          && isProcessing == old(isProcessing)
        case Submit =>
          Submitted(exchange)
    {
      if isProcessing || currentGame.None? || currentGame.value.gameStatus != Active {
        return;
      }
      var action := Classify(key);
      match action {
        case Submit => SubmitGuess(exchange);
        case Erase => DeleteLetter();
        case Type(c) => AddLetter(c);
        case Ignore =>
      }
    }
  }
}
