# Vocabulary word-guessing game: a Dafny model of its core

This project models the core of a vocabulary game in the style of Wordle. A
player guesses a hidden word within six tries. After each guess every letter is
tagged `correct` (right letter, right place), `present` (in the word, elsewhere)
or `absent`. A win is scored, and a player's progress record collects
experience, levels and badges. The model covers:

- `feedback.dfy` (module `LetterFeedback`): the two-pass feedback algorithm.
  It is written as the source writes it, over three arrays (`MarkCorrect`,
  then `MarkPresent`), and proved to compute a recursive specification
  (`Feedback`). The key theorem: the letters credited (tagged `correct` or
  `present`) are exactly the multiset intersection of guess and target. So a
  repeated letter is never credited more often than the target holds it.
- `session.dfy` (module `Session`): a guessing session and the server's
  session registry (`class Game` with its `games` map).
  - `GuessStep` states one `processGuess` call as a function of the old
    session.
  - `GameRegistry.ProcessGuess` performs it and is proved to agree with it.
  - `WellFormed` is the session invariant that every guess keeps.
  - The score is 1000, plus 100 per unused guess, plus a time bonus that loses
    10 points per elapsed second.
- `catalog.dfy` (module `Catalog`): the vocabulary table (easy, medium, hard,
  expert) and its lookups. The word lookups (`isValidWord`, `getWordDetails`,
  `getWordDifficulty`) upper-case the word first, so they ignore letter case;
  level names are matched exactly as given. Each lookup is
  proved for every table: `getAllWords`, `getWordsByLevel`,
  `getRandomWordByLevel` (the random index is a parameter), `isValidWord`,
  `getWordDetails` and `getWordDifficulty`. The table constant itself is
  checked level by level.
- `progression.dfy` (module `Progression`): the player's progress record.
  - The in-memory part of `updateProgress`: counters, streaks, per-difficulty
    tallies, modes played, experience points and level, the bounded game
    history, and the badge check.
  - `calculateXP`, `calculateLevel` (an exact integer square root) and
    `checkBadges` over the twelve-badge table.
  - `UserProgress` is the fetched record object. Its methods update it field
    by field, and each step is proved equal to a function of the record
    before it.
- `client.dfy` (module `Client`): the browser's game manager. It covers the
  typed-letter buffer, key handling, submitting a guess, starting a game and
  the stored win/loss statistics. Server replies are parameters.
- `keyboard.dfy` (module `Keyboard`): the on-screen keyboard's hint classes.
  - A key never loses its strongest hint.
  - After a guess, a key shows the best tag its letter received.
  - Also covered: resetting the keyboard, and the game-over score breakdown.
    The breakdown is proved to recover the server's base, guess and time
    terms exactly.
- `text.dfy` (upper-casing of ASCII letters) and `wrappers.dfy` (`Option`,
  `Result`) are shared helpers.

Three behaviours of the code are easy to misread, and the model follows the
code in each:

- `totalScore` adds the score of every game, lost ones included
  (`backend/models/User.js:311`).
- A speed win needs a non-zero duration under 30 seconds. A recorded time of 0
  does not count (`backend/models/User.js:328`).
- `modesPlayed` is a duplicate-free list rather than a set
  (`backend/models/User.js:351-353`).

## Model

| member | source | states |
|---|---|---|
| LetterFeedback.CalculateFeedback | backend/models/Game.js:116-142 | the source's two loops over its three arrays return exactly `Feedback(guess, target)` |
| LetterFeedback.MarkCorrect | backend/models/Game.js:122-128 | the first loop leaves tags and consumed letters as `FirstPass` after every position |
| LetterFeedback.MarkPresent | backend/models/Game.js:131-139 | the second loop leaves tags and consumed target letters as `SecondPass` after every position |
| LetterFeedback.IndexOf | backend/models/Game.js:133 | `indexOf`: the first position holding the letter, and -1 exactly when no position does |
| LetterFeedback.FirstPassState | backend/models/Game.js:122-128 | after k positions, a position is `correct` iff it is below k and the words agree there; no position is `present`; exactly the matched letters are consumed |
| LetterFeedback.SecondPassState | backend/models/Game.js:131-139 | the second pass keeps the `correct` tags; a handled position left `absent` has no unconsumed occurrence of its letter left in the target |
| LetterFeedback.FeedbackCorrectIff | backend/models/Game.js:122-128 | a position is tagged `correct` exactly when guess and target hold the same letter there |
| LetterFeedback.FeedbackCredits | backend/models/Game.js:116-142 | the letters tagged `correct` or `present` form exactly the multiset intersection of guess and target |
| LetterFeedback.FeedbackNeverOverCounts | backend/models/Game.js:131-139 | a letter is never credited more often than the target holds it |
| LetterFeedback.FeedbackAllCorrect | backend/models/Game.js:122-128 | guessing the target itself tags every position `correct` |
| Session.TimeBonus | backend/models/Game.js:156 | the time bonus is a non-negative multiple of 10, at most 500, 500 within the first second, and 0 exactly from 50 s on |
| Session.TimeBonusMonotone | backend/models/Game.js:156 | a longer game never earns a larger time bonus |
| Session.CalculateScore | backend/models/Game.js:149-159 | a game that is not won scores 0; the value of a win is stated by `WonScoreBounds` and `ScoreExample` |
| Session.ScoreExample | backend/models/Game.js:149-159 | a win with the first of six guesses after 10 s scores 1000 + 500 + 400 |
| Session.WonScoreBounds | backend/models/Game.js:149-159 | a won session's score is base plus guess bonus plus time bonus, between 1000 and 2000 |
| Session.NewGame | backend/models/Game.js:16-28 | a new session is active, empty, upper-cased, has six guesses, score 0 and the given start time, and satisfies the session invariant |
| Session.GuessStep | backend/models/Game.js:57-102 | the checks in the source's order (finished, out of guesses, wrong length); on success one result with its feedback is appended; won iff the guess is the target; lost iff it misses on the last guess; end time set on either |
| Session.ActiveHasGuessLeft | backend/models/Game.js:68-70 | an active session that satisfies the invariant always has a guess left, so 'Maximum guesses reached' never fires |
| Session.GuessStepKeepsValid | backend/models/Game.js:78-102 | every accepted guess keeps the session invariant (numbering, feedback, no earlier hit, status, end time and score agree) |
| Session.GuessStepStatus | backend/models/Game.js:92-101 | only an active session accepts a guess, and it is won exactly when the upper-cased guess is the target |
| Session.GuessingTheTargetWins | backend/models/Game.js:92-96 | the target in any letter case wins, gets all-`correct` feedback and scores at least 1000 |
| Session.LastMissLoses | backend/models/Game.js:98-101 | a miss on the last guess loses with score 0, and every later guess is refused as finished |
| Session.PublicView | backend/models/Game.js:38-49 | the client view hides the target while the game is active and shows it once it is over; the other fields are copied |
| Session.GameRegistry.constructor | backend/models/Game.js:5-8 | the registry starts empty |
| Session.GameRegistry.CreateGame | backend/models/Game.js:16-31 | the new session is stored under its id, replacing any old one; the view hides the word and gives its length |
| Session.GameRegistry.ProcessGuess | backend/models/Game.js:57-109 | an unknown id is refused; otherwise the reply and the stored session are those of `GuessStep`; every failure leaves the registry unchanged; the registry invariant is kept |
| Session.GameRegistry.RecordGuess | backend/models/Game.js:78-101 | the field-by-field update after the checks equals `GuessStep`'s success |
| Session.GameRegistry.GetGame | backend/models/Game.js:166-172 | the stored session's public view, or 'Game session not found' |
| Session.GameRegistry.DeleteGame | backend/models/Game.js:178-180 | the id is removed and nothing else changes; deleting a missing id changes nothing |
| Session.GameRegistry.GetActiveGamesCount | backend/models/Game.js:186-188 | the number of stored sessions, finished ones included |
| Catalog.GetAllWords | backend/config/wordList.js:279-285 | every entry's word, level by level in table order |
| Catalog.PushWords | backend/config/wordList.js:281-283 | one level's words appended, in order |
| Catalog.AllWordsSize | backend/config/wordList.js:279-285 | one word per entry of every level |
| Catalog.FindLevel | backend/config/wordList.js:291 | the entries of the level with that name, and none exactly when no level has the name |
| Catalog.GetWordsByLevel | backend/config/wordList.js:290-292 | the named level's entries, or the empty list for an unknown level |
| Catalog.GetRandomWordByLevel | backend/config/wordList.js:297-301 | none exactly for an empty or unknown level, otherwise an entry of that level, namely the one at the drawn index |
| Catalog.LevelHas | backend/config/wordList.js:318 | true exactly when some entry of the level has the word |
| Catalog.InDatabase | backend/config/wordList.js:317-321 | true exactly when some entry of the table has the word |
| Catalog.IsValidWord | backend/config/wordList.js:315-323 | valid exactly when some level holds the upper-cased word; `IsValidWordIff` relates it to `getAllWords` and to letter case |
| Catalog.IsValidWordIff | backend/config/wordList.js:315-323 | a word is valid exactly when its upper-cased form is among `getAllWords`; validity ignores letter case |
| Catalog.FirstIndex | backend/config/wordList.js:331 | the position of the first entry with the word, and -1 exactly when there is none |
| Catalog.FirstIndexAppend | backend/config/wordList.js:329-333 | searching level after level finds the first match of the whole table |
| Catalog.FindEntry | backend/config/wordList.js:331 | `find`: none exactly when no entry has the word, else the first entry with that word |
| Catalog.DetailsIn | backend/config/wordList.js:329-334 | the first entry in table order with the word, and none exactly when the table lacks it |
| Catalog.GetWordDetails | backend/config/wordList.js:328-335 | details exist exactly for valid words, and are those of the first matching entry in table order |
| Catalog.LevelIndex | backend/config/wordList.js:341-346 | the first level holding the word; no earlier level holds it; -1 exactly when none does |
| Catalog.GetWordDifficulty | backend/config/wordList.js:340-348 | a level name exists exactly for valid words, and it names a level holding the word |
| Catalog.EasyWellFormed | backend/config/wordList.js:8-57 | every easy word is upper-case and the first of its four choices |
| Catalog.MediumWellFormed | backend/config/wordList.js:60-109 | every medium word is upper-case and the first of its four choices |
| Catalog.HardWellFormed | backend/config/wordList.js:112-233 | every hard word is upper-case and the first of its four choices |
| Catalog.ExpertWellFormed | backend/config/wordList.js:236-273 | every expert word is upper-case and the first of its four choices |
| Progression.BadgeIdsDistinct | backend/models/User.js:18-103 | the table has twelve badges with distinct ids |
| Progression.AwardAppends | backend/models/User.js:488-491 | the check only appends: held ids afterwards are the old ones followed by the ids awarded |
| Progression.AwardSound | backend/models/User.js:468-492 | every badge awarded is from the table, was not held, and has all its criteria met |
| Progression.AwardComplete | backend/models/User.js:468-492 | every table badge not held whose criteria are met is awarded |
| Progression.AwardNoDuplicates | backend/models/User.js:470-472 | a held list without duplicates stays without duplicates |
| Progression.AwardNothingNew | backend/models/User.js:468-492 | when every earned badge is already held, nothing is awarded and nothing changes |
| Progression.AwardIdempotent | backend/models/User.js:453-495 | a second check right after the first awards nothing |
| Progression.AwardGrantsEarned | backend/models/User.js:468-492 | a table badge that is not held and is earned is among those awarded |
| Progression.AwardExactlyFor | backend/models/User.js:468-492 | a badge is awarded iff it is in the table, not held, and earned |
| Progression.AwardExactly | backend/models/User.js:453-495 | the same for the source's badge table |
| Progression.WinPoints | backend/models/User.js:423-427 | a win's points are 100 times the difficulty multiplier (100, 150, 200, 300; 100 for an unknown difficulty) |
| Progression.GuessBonus | backend/models/User.js:430-431 | 200 exactly for one guess, 50 exactly for two or three, 0 exactly above three |
| Progression.Multiplier | backend/models/User.js:426-427 | the source's multiplier table as reals: 1, 1.5, 2, 3, and 1 for any other difficulty, so always between 1 and 3 |
| Progression.CalculateXP | backend/models/User.js:417-440 | a loss earns 25; a win earns between 100 and 500 plus a tenth of the score |
| Progression.SourceXP | backend/models/User.js:417-440 | the source's computation over exact reals, never below 25; `XPMatchesSource` proves `CalculateXP` equal to it |
| Progression.XPMatchesSource | backend/models/User.js:417-440 | the integer experience equals the source's computation over exact reals (100 times the 1 / 1.5 / 2 / 3 multiplier, plus the guess bonus, plus the floor of a tenth of the score; 25 for a loss), and the final floor leaves it unchanged |
| Progression.XPOrdering | backend/models/User.js:417-440 | a higher score in no more guesses never earns less, and a win always earns more than a loss |
| Progression.XPDifficultyOrder | backend/models/User.js:426-427 | a harder difficulty earns strictly more for the same win |
| Progression.ISqrtBounds | backend/models/User.js:447 | the integer square root k satisfies k*k <= n < (k+1)*(k+1) |
| Progression.CalculateLevel | backend/models/User.js:445-448 | a level is at least 1 |
| Progression.LevelBand | backend/models/User.js:445-448 | level k holds exactly the experience from 100*(k-1)^2 up to below 100*k^2 |
| Progression.LevelUnique | backend/models/User.js:445-448 | experience within a level's band gives that level |
| Progression.LevelMonotone | backend/models/User.js:445-448 | more experience never gives a lower level |
| Progression.LevelExamples | backend/models/User.js:445-448 | 0 and 99 XP give level 1, 100 gives 2, 899 gives 3, 900 gives 4, 8099 gives 9, 8100 gives 10 |
| Progression.Recent | backend/models/User.js:365-374 | the new entry comes first, followed by the old history in order, and at most 50 entries are kept |
| Progression.AfterGameCounters | backend/models/User.js:309-340 | one more game and its score; a win extends both streaks and sets the best to the larger of the old best and the new current streak; a loss resets both streaks and keeps the best |
| Progression.AfterGameWinKinds | backend/models/User.js:322-335 | each of the perfect, speed and expert counters grows by one exactly on a win of that kind |
| Progression.AfterGameTallies | backend/models/User.js:342-353 | only the game's own difficulty tally changes, and only when that difficulty is tracked; a mode already played leaves the modes list unchanged, and a new mode is appended at its end |
| Progression.AfterGameExperience | backend/models/User.js:355-374 | experience grows by `calculateXP`, the level follows it and never drops, and the game heads the bounded history |
| Progression.AfterGameValid | backend/models/User.js:307-374 | a game keeps the record invariant |
| Progression.WithBadgesValid | backend/models/User.js:377 | the badge check keeps the record invariant, changes only the badges, only appends to them, and is idempotent |
| Progression.UserProgress.constructor | backend/models/User.js:153-176 | a new account's record: level 1, everything else zero or empty, four difficulty tallies |
| Progression.UserProgress.MeetsCriteria | backend/models/User.js:475-486 | the criteria loop answers exactly whether every criterion is met |
| Progression.UserProgress.CheckBadges | backend/models/User.js:453-495 | the walk over the table appends and returns exactly what `Award` specifies |
| Progression.UserProgress.CountWinKind | backend/models/User.js:322-335 | the perfect, speed and expert counters are updated as `WinKinds` says |
| Progression.UserProgress.RecordWin | backend/models/User.js:314-320 | one more win; both streaks extended; the best streak raised to the current one |
| Progression.UserProgress.RecordLoss | backend/models/User.js:337-339 | one more loss; both streaks reset |
| Progression.UserProgress.RecordOutcome | backend/models/User.js:309-340 | games, score, outcome and streaks are updated as `Outcome` says |
| Progression.UserProgress.RecordDifficultyAndMode | backend/models/User.js:342-353 | the difficulty tally and modes played are updated as `Tallied` says |
| Progression.UserProgress.GainExperience | backend/models/User.js:355-362 | experience added, the level recomputed, and a level-up reported exactly when the level rose |
| Progression.UserProgress.UpdateProgress | backend/models/User.js:307-377 | the record becomes the badge check of `AfterGame`; the XP reported is `calculateXP`; a level-up is reported exactly when the level rose; the record invariant is kept |
| Client.TypedBounded | frontend/js/game.js:90-95 | typing never makes the buffer longer than the word, and leaves it unchanged exactly when it is full |
| Client.ErasedTyped | frontend/js/game.js:100-105 | erasing undoes typing, and erasing an empty buffer does nothing |
| Client.Classify | frontend/js/game.js:72-84 | ENTER submits, BACKSPACE erases, a single letter of either case is typed upper-cased, and any other key is ignored |
| Client.Counted | frontend/js/game.js:284-299 | one more game; one more win on a win; the best score never drops, and is raised to a winning score above it |
| Client.CountedKeepsWinsBounded | frontend/js/game.js:284-299 | there are never more wins than games |
| Client.GameManager.constructor | frontend/js/game.js:7-15 | no game, an empty buffer, row 0, medium difficulty, classic mode, and the stored statistics or zeros |
| Client.GameManager.StartGame | frontend/js/game.js:22-66 | buffer, row and in-flight flag are reset; the server's new session is installed, and the old one is kept when the request fails |
| Client.GameManager.AddLetter | frontend/js/game.js:90-95 | the letter is appended only while the buffer is shorter than the word |
| Client.GameManager.DeleteLetter | frontend/js/game.js:100-105 | the last letter is removed, if any |
| Client.GameManager.UpdateStatistics | frontend/js/game.js:284-299 | the stored counters become `Counted` of the old ones and the game's score |
| Client.GameManager.SubmitGuess | frontend/js/game.js:110-177 | a buffer of the wrong length changes nothing; a rejected word or failed request changes only the in-flight flag; an accepted guess installs the new session and then counts a win or loss, or moves to the next row with an empty buffer |
| Client.GameManager.HandleKeyPress | frontend/js/game.js:72-84 | keys are ignored while a guess is in flight, without a game, or after it ends; otherwise the key submits, erases or types as `Classify` says |
| Keyboard.UpdateKeyRank | frontend/js/ui.js:234-246 | a key's strongest hint after an update is the larger of its hint and the tag |
| Keyboard.UpdateKeySingle | frontend/js/ui.js:234-246 | a key that shows at most one hint still shows one, the stronger of the two |
| Keyboard.BestIsMaximum | frontend/js/ui.js:228-248 | the best tag of a letter is the maximum over its positions, whatever their order |
| Keyboard.ApplyRanks | frontend/js/ui.js:228-248 | the keys are kept; each key rises to the larger of its rank and its letter's best tag; keys of unused letters are untouched |
| Keyboard.ApplyKeepsSingle | frontend/js/ui.js:228-248 | keys that show at most one hint still do after a guess |
| Keyboard.ApplySingle | frontend/js/ui.js:228-248 | such a key then shows exactly the hint named by the larger of its old rank and its letter's best tag |
| Keyboard.KeyboardView.UpdateKeyboard | frontend/js/ui.js:228-248 | the position-by-position loop computes `Apply` for the whole guess, keeps the keys, and raises each key to its letter's best tag |
| Keyboard.KeyboardView.ResetKeyboard | frontend/js/ui.js:361-365 | every key is kept and shows no hint |
| Keyboard.ScoreBreakdown | frontend/js/ui.js:324-338 | zeros unless won; on a win a 1000 base, the shown score as the final line, a non-negative time bonus, and lines that add up whenever the score covers base and guess bonus; `BreakdownMatchesServer` ties it to the server's terms |
| Keyboard.BreakdownMatchesServer | frontend/js/ui.js:324-338 | for a won session the breakdown recovers the server's 1000 base, 100 per unused guess and the time bonus, which sum to the score; otherwise all zeros |

## Left out

- Database access is not modelled: the fetch, create and update of user records and the leaderboard queries. `UserProgress` is the record after its fetch.
- Registration, login, password hashing, tokens, HTTP routes and middleware are not modelled.
- Rendering of tiles, toasts and animations is not modelled, and neither is the rest of the page. `KeyboardView` keeps only the three hint classes per key.
- Browser storage is not modelled. The stored statistics are a field, and the constructor takes them as a parameter.
- Clocks and randomness are parameters. `now` stands for the millisecond clock. `roll` stands for the random index of `getRandomWordByLevel`. A history entry's time stamp is an `int` and not an ISO string.
- The floating-point win rate that `updateStatistics` computes (`frontend/js/game.js:295`) is not modelled, because it is a float; `getStatistics` is not modelled either.
- These are outside the model's scope: `getRandomWord`, `getAllBadges`, `getUserBadges`, `getLeaderboard`, `getAllUsers`, hints, multiple-choice mode and ending a game early.
- Session.GameRegistry.ProcessGuess replaces the stored session value, while the source mutates one shared record. That record's `guesses` array is the same object the public view returns, and this aliasing is not captured.
- Concurrency is not modelled: the asynchronous interleaving of requests, and the `isProcessing` flag across awaits. `SubmitGuess` takes the outcome of its two requests as one parameter.
- Client.GameManager.SubmitGuess does not model a failure thrown after the session is installed, e.g. by an animation. Such a failure would leave the new session in place.
- Text.ToUpper upper-cases ASCII letters only, while JavaScript's `toUpperCase` also maps other alphabets.
- Lookups with keys that hit the JavaScript object prototype (`constructor`, `toString`) are not modelled. An unknown difficulty or level is simply absent.
- Progression.GameResult has a natural-number `score`. A negative score sent by a client, or a missing score (`score || 0`), is not modelled.
- Progression.CalculateXP: the guess count is an integer. A missing or fractional count, which JavaScript would accept, is not modelled.
- A badge's icon and the record's achievements field are not modelled.
- The vocabulary table's well-formedness is stated level by level and not for the whole table at once. Each level's lemma covers all of its entries.
