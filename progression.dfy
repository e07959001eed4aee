/**
 * A player's progress record and what one finished game does to it: the
 * counters, the streaks, the per-difficulty tallies, experience points, the
 * level they determine, the recent-game history and the badges.
 *
 * The source fetches the record from its database, updates the fetched
 * object field by field and writes it back; the fetch and the write are not
 * part of this model, and `UserProgress` is the fetched object.  The time
 * stamp of a history entry is a parameter.
 */
module Progression {

  // ---------------------------------------------------------------------
  // Badges

  /** The counters a badge criterion can name. */
  datatype Metric =
    | GamesPlayed | GamesWon | WinStreak | PerfectGames
    | ExpertWins | SpeedWins | ModesPlayed | LevelReached

  /** "at least `threshold` of `metric`" */
  datatype Criterion = Criterion(metric: Metric, threshold: nat)

  datatype Badge = Badge(id: string, name: string, description: string, criteria: seq<Criterion>)

  /** The badge table, in the order the source lists it. */
  const Badges: seq<Badge> := [
    Badge("first_game", "First Steps", "Played your first game", [Criterion(GamesPlayed, 1)]),
    Badge("first_win", "Victory", "Won your first game", [Criterion(GamesWon, 1)]),
    Badge("streak_3", "Hot Streak", "Win 3 games in a row", [Criterion(WinStreak, 3)]),
    Badge("streak_5", "Unstoppable", "Win 5 games in a row", [Criterion(WinStreak, 5)]),
    Badge("games_10", "Dedicated", "Played 10 games", [Criterion(GamesPlayed, 10)]),
    Badge("games_50", "Enthusiast", "Played 50 games", [Criterion(GamesPlayed, 50)]),
    Badge("wins_10", "Champion", "Won 10 games", [Criterion(GamesWon, 10)]),
    Badge("perfect_game", "Perfect!", "Won in 1 guess", [Criterion(PerfectGames, 1)]),
    Badge("vocab_master", "Vocabulary Master", "Beat Expert level", [Criterion(ExpertWins, 1)]),
    Badge("speed_demon", "Speed Demon", "Won in under 30 seconds", [Criterion(SpeedWins, 1)]),
    Badge("explorer", "Explorer", "Tried all game modes", [Criterion(ModesPlayed, 3)]),
    Badge("word_wizard", "Word Wizard", "Reached level 10", [Criterion(LevelReached, 10)])
  ]

  /** The values badge criteria are checked against. */
  datatype Counters = Counters(
    gamesPlayed: nat, gamesWon: nat, winStreak: nat, perfectGames: nat,
    expertWins: nat, speedWins: nat, modesPlayed: nat, level: nat)

  function MetricValue(c: Counters, m: Metric): (v: nat) {
    match m
    case GamesPlayed => c.gamesPlayed
    case GamesWon => c.gamesWon
    case WinStreak => c.winStreak
    case PerfectGames => c.perfectGames
    case ExpertWins => c.expertWins
    case SpeedWins => c.speedWins
    case ModesPlayed => c.modesPlayed
    case LevelReached => c.level
  }

  /** A badge is earned when every one of its criteria is met. */
  predicate Earned(b: Badge, c: Counters) {
    forall j :: 0 <= j < |b.criteria| ==> MetricValue(c, b.criteria[j].metric) >= b.criteria[j].threshold
  }

  function Ids(bs: seq<Badge>): (ids: seq<string>)
    ensures |ids| == |bs| && forall k :: 0 <= k < |bs| ==> ids[k] == bs[k].id
  {
    seq(|bs|, k requires 0 <= k < |bs| => bs[k].id)
  }

  predicate NoDuplicates<T(==)>(s: seq<T>) {
    forall i, j :: 0 <= i < j < |s| ==> s[i] != s[j]
  }

  /** The badge ids held and the badges awarded so far by one check. */
  datatype Awarded = Awarded(held: seq<string>, granted: seq<Badge>)

  /** The badge check after its first `i` table entries: an entry whose id is
      not yet held and whose criteria are all met is appended to both lists. */
  function AwardUpTo(table: seq<Badge>, held: seq<string>, c: Counters, i: nat): (awarded: Awarded)
    requires i <= |table|
  {
    if i == 0 then Awarded(held, [])
    else
      var a := AwardUpTo(table, held, c, i - 1);
      var b := table[i - 1];
      if b.id !in a.held && Earned(b, c) then Awarded(a.held + [b.id], a.granted + [b]) else a
  }

  function Award(table: seq<Badge>, held: seq<string>, c: Counters): (awarded: Awarded) {
    AwardUpTo(table, held, c, |table|)
  }

  /** A check only appends: the ids held afterwards are those held before
      followed by the ids of the badges it hands out. */
  lemma {:induction false} AwardAppends(table: seq<Badge>, held: seq<string>, c: Counters, i: nat)
    requires i <= |table|
    ensures var a := AwardUpTo(table, held, c, i); a.held == held + Ids(a.granted)
  {
    if i > 0 {
      AwardAppends(table, held, c, i - 1);
      var a := AwardUpTo(table, held, c, i - 1);
      var b := table[i - 1];
      if b.id !in a.held && Earned(b, c) {
        assert Ids(a.granted + [b]) == Ids(a.granted) + [b.id];
      }
    }
  }

  /** Every badge a check hands out comes from the table, was not held
      before and is earned. */
  lemma {:induction false} AwardSound(table: seq<Badge>, held: seq<string>, c: Counters, i: nat)
    requires i <= |table|
    ensures var a := AwardUpTo(table, held, c, i);
      forall k :: 0 <= k < |a.granted| ==>
        a.granted[k] in table[..i] && a.granted[k].id !in held && Earned(a.granted[k], c)
  {
    if i > 0 {
      AwardSound(table, held, c, i - 1);
      AwardAppends(table, held, c, i - 1);
      assert table[..i] == table[..i - 1] + [table[i - 1]];
    }
  }

  /** Every earned table entry is held after a check. */
  lemma {:induction false} AwardComplete(table: seq<Badge>, held: seq<string>, c: Counters, i: nat)
    requires i <= |table|
    ensures var a := AwardUpTo(table, held, c, i);
      forall k :: 0 <= k < i && Earned(table[k], c) ==> table[k].id in a.held
  {
    if i > 0 {
      AwardComplete(table, held, c, i - 1);
    }
  }

  /** A check never duplicates a held id. */
  lemma {:induction false} AwardNoDuplicates(table: seq<Badge>, held: seq<string>, c: Counters, i: nat)
    requires i <= |table|
    requires NoDuplicates(held)
    ensures NoDuplicates(AwardUpTo(table, held, c, i).held)
  {
    if i > 0 {
      AwardNoDuplicates(table, held, c, i - 1);
    }
  }

  /** A check changes nothing when every earned table entry is already held. */
  lemma {:induction false} AwardNothingNew(table: seq<Badge>, held: seq<string>, c: Counters, i: nat)
    requires i <= |table|
    requires forall k :: 0 <= k < i && Earned(table[k], c) ==> table[k].id in held
    ensures AwardUpTo(table, held, c, i) == Awarded(held, [])
  {
    if i > 0 {
      AwardNothingNew(table, held, c, i - 1);
    }
  }

  /** Checking twice with the same counters: the second check awards nothing. */
  lemma AwardIdempotent(table: seq<Badge>, held: seq<string>, c: Counters)
    ensures var a := Award(table, held, c);
      Award(table, a.held, c) == Awarded(a.held, [])
  {
    AwardComplete(table, held, c, |table|);
    AwardNothingNew(table, Award(table, held, c).held, c, |table|);
  }

  /** The ids of the source's badge table are pairwise distinct. */
  lemma BadgeIdsDistinct()
    ensures |Badges| == 12
    ensures NoDuplicates(Ids(Badges))
  {
  }

  /** An earned table entry whose id was not held is among those a check
      hands out, when the table's ids are distinct. */
  lemma AwardGrantsEarned(table: seq<Badge>, held: seq<string>, c: Counters, k: nat)
    requires NoDuplicates(Ids(table))
    requires k < |table| && table[k].id !in held && Earned(table[k], c)
    ensures table[k] in Award(table, held, c).granted
  {
    var a := Award(table, held, c);
    assert table[k].id in Ids(a.granted) by {
      AwardAppends(table, held, c, |table|);
      AwardComplete(table, held, c, |table|);
    }
    var m :| 0 <= m < |a.granted| && a.granted[m].id == table[k].id;
    assert a.granted[m] in table by {
      AwardSound(table, held, c, |table|);
      assert a == AwardUpTo(table, held, c, |table|);
      assert a.granted[m] in table[..|table|];
      assert table[..|table|] == table;
    }
    var n :| 0 <= n < |table| && table[n] == a.granted[m];
    assert n == k by {
      assert Ids(table)[n] == Ids(table)[k];
    }
  }

  /** With a table whose ids are distinct, a check hands out exactly the
      table's badges that are earned and not yet held. */
  lemma AwardExactlyFor(table: seq<Badge>, held: seq<string>, c: Counters, b: Badge)
    requires NoDuplicates(Ids(table))
    ensures b in Award(table, held, c).granted <==> b in table && b.id !in held && Earned(b, c)
  {
    var a := Award(table, held, c);
    if b in a.granted {
      var m :| 0 <= m < |a.granted| && a.granted[m] == b;
      AwardSound(table, held, c, |table|);
      assert a == AwardUpTo(table, held, c, |table|);
      assert b in table[..|table|];
      assert table[..|table|] == table;
    }
    if b in table && b.id !in held && Earned(b, c) {
      var k :| 0 <= k < |table| && table[k] == b;
      AwardGrantsEarned(table, held, c, k);
    }
  }

  /** The source's table: a check hands out exactly the badges that are
      earned and not yet held. */
  lemma AwardExactly(held: seq<string>, c: Counters, b: Badge)
    ensures b in Award(Badges, held, c).granted <==> b in Badges && b.id !in held && Earned(b, c)
  {
    BadgeIdsDistinct();
    AwardExactlyFor(Badges, held, c, b);
  }

  // ---------------------------------------------------------------------
  // Experience points and levels

  /** What a finished game reports; `score` is the game's score and
      `timeElapsed` its duration in milliseconds. */
  datatype GameResult = GameResult(
    won: bool, difficulty: string, gameMode: string,
    score: nat, guesses: int, timeElapsed: int)

  /** The source's difficulty multiplier: 1, 1.5, 2 and 3 for easy, medium,
      hard and expert, and 1 for any other difficulty. */
  function Multiplier(difficulty: string): (m: real)
    ensures 1.0 <= m <= 3.0
  {
    match difficulty
    case "easy" => 1.0
    case "medium" => 1.5
    case "hard" => 2.0
    case "expert" => 3.0
    case _ => 1.0
  }

  /** The 100 points of a win scaled by the difficulty multiplier, in whole
      points. */
  function WinPoints(difficulty: string): (p: nat)
    ensures p as real == 100.0 * Multiplier(difficulty)
    ensures 100 <= p <= 300
    ensures difficulty !in {"easy", "medium", "hard", "expert"} ==> p == 100
  {
    if difficulty == "medium" then 150
    else if difficulty == "hard" then 200
    else if difficulty == "expert" then 300
    else 100
  }

  /** 200 extra points for a one-guess win, 50 for a win in at most three. */
  function GuessBonus(guesses: int): (b: nat)
    ensures b == 200 <==> guesses == 1
    ensures b == 50 <==> guesses != 1 && guesses <= 3
    ensures b == 0 <==> guesses > 3
  {
    if guesses == 1 then 200 else if guesses <= 3 then 50 else 0
  }

  /** The experience a game earns, in whole numbers; `XPMatchesSource` shows
      that it equals the source's computation over the reals. */
  function CalculateXP(r: GameResult): (xp: nat)
    ensures !r.won ==> xp == 25
    ensures r.won ==> 100 + r.score / 10 <= xp <= 500 + r.score / 10
  {
    if r.won then WinPoints(r.difficulty) + GuessBonus(r.guesses) + r.score / 10 else 25
  }

  /** The source's computation as it is written, over exact reals: 100 times
      the multiplier, then the guess bonus, then the floor of a tenth of the
      score; 25 for a loss. */
  function SourceXP(r: GameResult): (x: real)
    ensures x >= 25.0
  {
    if r.won then
      var xp := 100.0 * Multiplier(r.difficulty);
      var xp' := xp + if r.guesses == 1 then 200.0 else if r.guesses <= 3 then 50.0 else 0.0;
      xp' + ((r.score as real) / 10.0).Floor as real
    else 25.0
  }

  /** Every intermediate value of the source's computation is a whole number,
      so the integer form is exact and the final floor changes nothing. */
  lemma XPMatchesSource(r: GameResult)
    ensures CalculateXP(r) as real == SourceXP(r)
    ensures SourceXP(r).Floor == CalculateXP(r)
  {
    var q, m := r.score / 10, r.score % 10;
    assert (r.score as real) / 10.0 == q as real + (m as real) / 10.0;
    assert ((r.score as real) / 10.0).Floor == q;
  }

  /** A win earns more than a loss, a higher score never less, and fewer
      guesses (from one on) never less. */
  lemma XPOrdering(r: GameResult, r': GameResult)
    requires r.won && r'.won && r.difficulty == r'.difficulty
    requires r.score <= r'.score && 1 <= r'.guesses <= r.guesses
    ensures CalculateXP(r) <= CalculateXP(r')
    ensures CalculateXP(r) > CalculateXP(r.(won := false))
  {
  }

  /** Harder difficulties earn more for the same win. */
  lemma XPDifficultyOrder(r: GameResult)
    requires r.won
    ensures CalculateXP(r.(difficulty := "easy")) < CalculateXP(r.(difficulty := "medium"))
    ensures CalculateXP(r.(difficulty := "medium")) < CalculateXP(r.(difficulty := "hard"))
    ensures CalculateXP(r.(difficulty := "hard")) < CalculateXP(r.(difficulty := "expert"))
  {
  }

  /** The integer square root, counting up from that of n - 1. */
  function ISqrt(n: nat): (root: nat) {
    if n == 0 then 0
    else
      var r := ISqrt(n - 1);
      if (r + 1) * (r + 1) <= n then r + 1 else r
  }

  /** ISqrt(n) is the largest k with k * k <= n. */
  lemma {:induction false} ISqrtBounds(n: nat)
    ensures var k := ISqrt(n); k * k <= n < (k + 1) * (k + 1)
  {
    if n > 0 {
      ISqrtBounds(n - 1);
      var r := ISqrt(n - 1);
      if (r + 1) * (r + 1) <= n {
        assert (r + 1) * (r + 1) == n;
        assert (r + 2) * (r + 2) == (r + 1) * (r + 1) + 2 * r + 3;
      }
    }
  }

  /** floor(sqrt(xp / 100)) + 1. */
  function CalculateLevel(xp: nat): (level: nat)
    ensures level >= 1
  {
    ISqrt(xp / 100) + 1
  }

  /** Level k covers the experience band 100 (k-1)^2 <= xp < 100 k^2. */
  lemma LevelBand(xp: nat)
    ensures var level := CalculateLevel(xp);
      100 * ((level - 1) * (level - 1)) <= xp < 100 * (level * level)
  {
    var q := xp / 100;
    var k := ISqrt(q);
    ISqrtBounds(q);
    assert 100 * (k * k) <= 100 * q <= xp;
    assert xp < 100 * (q + 1) <= 100 * ((k + 1) * (k + 1));
  }

  lemma SquareMonotone(a: nat, b: nat)
    requires a <= b
    ensures a * a <= b * b
  {
    assert a * a <= a * b <= b * b;
  }

  /** The level is the only k >= 1 whose band holds xp. */
  lemma LevelUnique(xp: nat, k: nat)
    requires k >= 1 && 100 * ((k - 1) * (k - 1)) <= xp < 100 * (k * k)
    ensures CalculateLevel(xp) == k
  {
    var level := CalculateLevel(xp);
    LevelBand(xp);
    if level < k {
      SquareMonotone(level, k - 1);
      assert false;
    } else if level > k {
      SquareMonotone(k, level - 1);
      assert false;
    }
  }

  /** More experience never lowers the level. */
  lemma LevelMonotone(xp: nat, xp': nat)
    requires xp <= xp'
    ensures CalculateLevel(xp) <= CalculateLevel(xp')
  {
    var a, b := CalculateLevel(xp), CalculateLevel(xp');
    LevelBand(xp);
    LevelBand(xp');
    if b < a {
      SquareMonotone(b, a - 1);
      assert false;
    }
  }

  lemma LevelExamples()
    ensures CalculateLevel(0) == 1 && CalculateLevel(99) == 1 && CalculateLevel(100) == 2
    ensures CalculateLevel(899) == 3 && CalculateLevel(900) == 4
    ensures CalculateLevel(8100) == 10 && CalculateLevel(8099) == 9
  {
    LevelUnique(0, 1);
    LevelUnique(99, 1);
    LevelUnique(100, 2);
    LevelUnique(899, 3);
    LevelUnique(900, 4);
    LevelUnique(8100, 10);
    LevelUnique(8099, 9);
  }

  // ---------------------------------------------------------------------
  // The progress record

  datatype Tally = Tally(played: nat, won: nat)

  datatype HistoryEntry = HistoryEntry(result: GameResult, timestamp: int, xpGained: nat)

  const HistoryLimit: nat := 50

  /** A win counts as fast when its duration is truthy (non-zero) and under
      30 seconds. */
  predicate SpeedWin(timeElapsed: int) {
    timeElapsed != 0 && timeElapsed < 30000
  }

  /** The newest entry first, at most `HistoryLimit` kept. */
  function Recent(entry: HistoryEntry, history: seq<HistoryEntry>): (h: seq<HistoryEntry>)
    ensures |h| == if |history| < HistoryLimit then |history| + 1 else HistoryLimit
    ensures h[0] == entry
    ensures forall k :: 1 <= k < |h| ==> h[k] == history[k - 1]
  {
    var h := [entry] + history;
    if |h| > HistoryLimit then h[..HistoryLimit] else h
  }

  /** The value of every field of a progress record. */
  datatype ProgressRecord = ProgressRecord(
    level: nat, xp: nat, totalScore: nat,
    gamesPlayed: nat, gamesWon: nat, gamesLost: nat,
    currentStreak: nat, bestStreak: nat, winStreak: nat,
    perfectGames: nat, speedWins: nat, expertWins: nat,
    modesPlayed: seq<string>, badges: seq<string>,
    gameHistory: seq<HistoryEntry>, statistics: map<string, Tally>)

  /** The record a new account starts with. */
  const NewRecord: ProgressRecord := ProgressRecord(
    1, 0, 0,
    0, 0, 0,
    0, 0, 0,
    0, 0, 0,
    [], [],
    [], map["easy" := Tally(0, 0), "medium" := Tally(0, 0), "hard" := Tally(0, 0), "expert" := Tally(0, 0)])

  /** What every update keeps true of a record: the counters agree with each
      other, the lists hold no duplicates, no difficulty has more wins than
      games, the history is bounded and the level is the one the experience
      determines. */
  ghost predicate ValidRecord(p: ProgressRecord) {
    && p.gamesPlayed == p.gamesWon + p.gamesLost
    && p.currentStreak == p.winStreak <= p.bestStreak
    && p.currentStreak <= p.gamesWon
    && p.perfectGames <= p.gamesWon && p.speedWins <= p.gamesWon && p.expertWins <= p.gamesWon
    && NoDuplicates(p.modesPlayed)
    && NoDuplicates(p.badges)
    && (forall d :: d in p.statistics ==> p.statistics[d].won <= p.statistics[d].played)
    && |p.gameHistory| <= HistoryLimit
    && p.level == CalculateLevel(p.xp)
  }

  function Counts(p: ProgressRecord): (counters: Counters) {
    Counters(p.gamesPlayed, p.gamesWon, p.winStreak, p.perfectGames,
             p.expertWins, p.speedWins, |p.modesPlayed|, p.level)
  }

  // One game, step by step, as functions of the record before the step.

  /** The one-guess, fast and expert-level win counters on a win. */
  function WinKinds(p: ProgressRecord, r: GameResult): (next: ProgressRecord) {
    p.(perfectGames := p.perfectGames + (if r.guesses == 1 then 1 else 0),
       speedWins := p.speedWins + (if SpeedWin(r.timeElapsed) then 1 else 0),
       expertWins := p.expertWins + (if r.difficulty == "expert" then 1 else 0))
  }

  /** One more game and its score. */
  function Played(p: ProgressRecord, r: GameResult): (next: ProgressRecord) {
    p.(gamesPlayed := p.gamesPlayed + 1, totalScore := p.totalScore + r.score)
  }

  /** One more win; both streaks one longer, the best raised to the current. */
  function Won(p: ProgressRecord): (next: ProgressRecord) {
    var current := p.currentStreak + 1;
    p.(gamesWon := p.gamesWon + 1, currentStreak := current, winStreak := p.winStreak + 1,
       bestStreak := if current > p.bestStreak then current else p.bestStreak)
  }

  /** One more loss; both streaks back to zero. */
  function Lost(p: ProgressRecord): (next: ProgressRecord) {
    p.(gamesLost := p.gamesLost + 1, currentStreak := 0, winStreak := 0)
  }

  /** Games, score, wins or losses and the streaks. */
  function Outcome(p: ProgressRecord, r: GameResult): (next: ProgressRecord) {
    if r.won then WinKinds(Won(Played(p, r)), r) else Lost(Played(p, r))
  }

  /** The difficulty's tally, for a difficulty the record tracks, and the
      modes played. */
  function Tallied(p: ProgressRecord, r: GameResult): (next: ProgressRecord) {
    var stats :=
      if r.difficulty in p.statistics then
        var t := p.statistics[r.difficulty];
        p.statistics[r.difficulty := Tally(t.played + 1, t.won + if r.won then 1 else 0)]
      else p.statistics;
    var modes := if r.gameMode in p.modesPlayed then p.modesPlayed else p.modesPlayed + [r.gameMode];
    p.(statistics := stats, modesPlayed := modes)
  }

  /** Experience added and the level recomputed from it. */
  function Experienced(p: ProgressRecord, gained: nat): (next: ProgressRecord) {
    p.(xp := p.xp + gained, level := CalculateLevel(p.xp + gained))
  }

  /** Everything one game changes before the badge check. */
  function AfterGame(p: ProgressRecord, r: GameResult, timestamp: int): (next: ProgressRecord) {
    var gained := CalculateXP(r);
    var q := Experienced(Tallied(Outcome(p, r), r), gained);
    q.(gameHistory := Recent(HistoryEntry(r, timestamp, gained), q.gameHistory))
  }

  /** The badge check: the record with the awarded ids appended, and the
      badges awarded. */
  function WithBadges(p: ProgressRecord): (checked: (ProgressRecord, seq<Badge>)) {
    var a := Award(Badges, p.badges, Counts(p));
    (p.(badges := a.held), a.granted)
  }

  // What one game does, as the source promises it.

  /** One more game and its score; on a win one more win, both streaks one
      longer and the best streak at least the current one; on a loss one
      more loss and both streaks back to zero. */
  lemma AfterGameCounters(p: ProgressRecord, r: GameResult, timestamp: int)
    ensures var q := AfterGame(p, r, timestamp);
      && q.gamesPlayed == p.gamesPlayed + 1
      && q.totalScore == p.totalScore + r.score
      && q.gamesWon + q.gamesLost == p.gamesWon + p.gamesLost + 1
      && (r.won ==> q.gamesWon == p.gamesWon + 1 && q.currentStreak == p.currentStreak + 1
                    && q.winStreak == p.winStreak + 1
                    && q.bestStreak == (if q.currentStreak > p.bestStreak then q.currentStreak else p.bestStreak))
      && (!r.won ==> q.gamesLost == p.gamesLost + 1 && q.currentStreak == 0 && q.winStreak == 0
                     && q.bestStreak == p.bestStreak)
  {
  }

  /** The one-guess, fast and expert-level counters move only on a win of
      that kind, and by one. */
  lemma AfterGameWinKinds(p: ProgressRecord, r: GameResult, timestamp: int)
    ensures var q := AfterGame(p, r, timestamp);
      && (q.perfectGames == p.perfectGames + 1 <==> r.won && r.guesses == 1)
      && (q.speedWins == p.speedWins + 1 <==> r.won && SpeedWin(r.timeElapsed))
      && (q.expertWins == p.expertWins + 1 <==> r.won && r.difficulty == "expert")
      && q.perfectGames - p.perfectGames in {0, 1}
      && q.speedWins - p.speedWins in {0, 1}
      && q.expertWins - p.expertWins in {0, 1}
  {
  }

  /** Only the game's own difficulty tally changes, and only when the record
      tracks that difficulty; the mode is recorded once. */
  lemma AfterGameTallies(p: ProgressRecord, r: GameResult, timestamp: int)
    ensures var q := AfterGame(p, r, timestamp);
      && q.statistics.Keys == p.statistics.Keys
      && (forall d :: d in p.statistics && d != r.difficulty ==> q.statistics[d] == p.statistics[d])
      && (r.difficulty in p.statistics ==>
            q.statistics[r.difficulty].played == p.statistics[r.difficulty].played + 1
            && q.statistics[r.difficulty].won == p.statistics[r.difficulty].won + (if r.won then 1 else 0))
      && r.gameMode in q.modesPlayed
      && q.modesPlayed[..|p.modesPlayed|] == p.modesPlayed
      && |q.modesPlayed| <= |p.modesPlayed| + 1
      && (r.gameMode in p.modesPlayed ==> q.modesPlayed == p.modesPlayed)
      && (r.gameMode !in p.modesPlayed ==> q.modesPlayed == p.modesPlayed + [r.gameMode])
      && (NoDuplicates(p.modesPlayed) ==> NoDuplicates(q.modesPlayed))
  {
  }

  /** The experience grows by what the game earns, the level follows it and
      never drops, and the game heads the bounded history. */
  lemma AfterGameExperience(p: ProgressRecord, r: GameResult, timestamp: int)
    requires p.level == CalculateLevel(p.xp)
    ensures var q := AfterGame(p, r, timestamp);
      && q.xp == p.xp + CalculateXP(r)
      && q.level == CalculateLevel(q.xp) >= p.level
      && q.gameHistory[0] == HistoryEntry(r, timestamp, CalculateXP(r))
      && |q.gameHistory| <= HistoryLimit
      && q.badges == p.badges
  {
    LevelMonotone(p.xp, p.xp + CalculateXP(r));
  }

  /** A game keeps a valid record valid. */
  lemma AfterGameValid(p: ProgressRecord, r: GameResult, timestamp: int)
    requires ValidRecord(p)
    ensures ValidRecord(AfterGame(p, r, timestamp))
  {
    AfterGameCounters(p, r, timestamp);
    AfterGameWinKinds(p, r, timestamp);
    AfterGameTallies(p, r, timestamp);
    AfterGameExperience(p, r, timestamp);
  }

  /** The badge check keeps a valid record valid, changes nothing but the
      badges, only appends to them, and a second check awards nothing. */
  lemma WithBadgesValid(p: ProgressRecord)
    requires ValidRecord(p)
    ensures var (q, granted) := WithBadges(p);
      && ValidRecord(q)
      && q == p.(badges := q.badges)
      && q.badges == p.badges + Ids(granted)
      && WithBadges(q) == (q, [])
  {
    AwardAppends(Badges, p.badges, Counts(p), |Badges|);
    AwardNoDuplicates(Badges, p.badges, Counts(p), |Badges|);
    AwardIdempotent(Badges, p.badges, Counts(p));
  }

  class UserProgress {
    var level: nat
    var xp: nat
    var totalScore: nat
    var gamesPlayed: nat
    var gamesWon: nat
    var gamesLost: nat
    var currentStreak: nat
    var bestStreak: nat
    var winStreak: nat
    var perfectGames: nat
    var speedWins: nat
    var expertWins: nat
    var modesPlayed: seq<string>
    var badges: seq<string>
    var gameHistory: seq<HistoryEntry>
    var statistics: map<string, Tally>

    function Record(): (rec: ProgressRecord)
      reads this
    {
      ProgressRecord(level, xp, totalScore, gamesPlayed, gamesWon, gamesLost,
        currentStreak, bestStreak, winStreak, perfectGames, speedWins, expertWins,
        modesPlayed, badges, gameHistory, statistics)
    }

    ghost predicate Valid()
      reads this
    {
      ValidRecord(Record())
    }

    /** The record a new account starts with. */
    constructor ()
      ensures Record() == NewRecord && Valid()
    {
      level, xp, totalScore := 1, 0, 0;
      gamesPlayed, gamesWon, gamesLost := 0, 0, 0;
      currentStreak, bestStreak, winStreak := 0, 0, 0;
      perfectGames, speedWins, expertWins := 0, 0, 0;
      modesPlayed, badges, gameHistory := [], [], [];
      statistics := map["easy" := Tally(0, 0), "medium" := Tally(0, 0),
                        "hard" := Tally(0, 0), "expert" := Tally(0, 0)];
      LevelUnique(0, 1);
    }

    /** Checks a badge's criteria one by one: met when none falls short. */
    static method MeetsCriteria(badge: Badge, counters: Counters) returns (earned: bool)
      ensures earned == Earned(badge, counters)
    {
      earned := true;
      var j := 0;
      while j < |badge.criteria|
        invariant 0 <= j <= |badge.criteria|
        invariant earned <==> forall t :: 0 <= t < j ==>
          MetricValue(counters, badge.criteria[t].metric) >= badge.criteria[t].threshold
      {
        var criterion := badge.criteria[j];
        if MetricValue(counters, criterion.metric) < criterion.threshold {
          earned := false;
        }
        j := j + 1;
      }
    }

    /** Walks the badge table, appending to `badges` (and to the result) every
        badge not yet held whose criteria the record meets. */
    method CheckBadges() returns (newBadges: seq<Badge>)
      modifies this`badges
      ensures (Record(), newBadges) == WithBadges(old(Record()))
    {
      var counters := Counts(Record());
      newBadges := [];
      var i := 0;
      while i < |Badges|
        invariant 0 <= i <= |Badges|
        invariant AwardUpTo(Badges, old(badges), counters, i) == Awarded(badges, newBadges)
      {
        var badge := Badges[i];
        if badge.id !in badges {
          var earned := MeetsCriteria(badge, counters);
          if earned {
            badges := badges + [badge.id];
            newBadges := newBadges + [badge];
          }
        }
        i := i + 1;
      }
    }

    method CountWinKind(result: GameResult)
      modifies this`perfectGames, this`speedWins, this`expertWins
      ensures Record() == WinKinds(old(Record()), result)
    {
      if result.guesses == 1 {
        perfectGames := perfectGames + 1;
      }
      if SpeedWin(result.timeElapsed) {
        speedWins := speedWins + 1;
      }
      if result.difficulty == "expert" {
        expertWins := expertWins + 1;
      }
    }

    method RecordWin()
      modifies this`gamesWon, this`currentStreak, this`winStreak, this`bestStreak
      ensures Record() == Won(old(Record()))
    {
      gamesWon := gamesWon + 1;
      currentStreak := currentStreak + 1;
      winStreak := winStreak + 1;
      if currentStreak > bestStreak {
        bestStreak := currentStreak;
      }
    }

    method RecordLoss()
      modifies this`gamesLost, this`currentStreak, this`winStreak
      ensures Record() == Lost(old(Record()))
    {
      gamesLost := gamesLost + 1;
      currentStreak := 0;
      winStreak := 0;
    }

    method RecordOutcome(result: GameResult)
      modifies this`gamesPlayed, this`totalScore, this`gamesWon, this`gamesLost
      modifies this`currentStreak, this`bestStreak, this`winStreak
      modifies this`perfectGames, this`speedWins, this`expertWins
      ensures Record() == Outcome(old(Record()), result)
    {
      gamesPlayed := gamesPlayed + 1;
      totalScore := totalScore + result.score;
      if result.won {
        RecordWin();
        CountWinKind(result);
      } else {
        RecordLoss();
      }
    }

    method RecordDifficultyAndMode(result: GameResult)
      modifies this`statistics, this`modesPlayed
      ensures Record() == Tallied(old(Record()), result)
    {
      if result.difficulty in statistics {
        var t := statistics[result.difficulty];
        statistics := statistics[result.difficulty :=
          Tally(t.played + 1, t.won + if result.won then 1 else 0)];
      }
      if result.gameMode !in modesPlayed {
        modesPlayed := modesPlayed + [result.gameMode];
      }
    }

    method GainExperience(gained: nat) returns (leveledUp: bool)
      modifies this`xp, this`level
      ensures Record() == Experienced(old(Record()), gained)
      ensures leveledUp <==> level > old(level)
    {
      xp := xp + gained;
      var newLevel := CalculateLevel(xp);
      leveledUp := newLevel > level;
      level := newLevel;
    }

    /** Records one finished game: counters and streaks, the difficulty tally
        and modes, experience and level, the history entry (newest first, the
        latest fifty kept), and then the badge check on the updated record. */
    method UpdateProgress(result: GameResult, timestamp: int)
      returns (newBadges: seq<Badge>, leveledUp: bool, xpGained: nat)
      modifies this
      ensures (Record(), newBadges) == WithBadges(AfterGame(old(Record()), result, timestamp))
      ensures xpGained == CalculateXP(result)
      ensures leveledUp <==> level > old(level)
      ensures old(Valid()) ==> Valid()
    {
      ghost var before := Record();
      RecordOutcome(result);
      RecordDifficultyAndMode(result);
      xpGained := CalculateXP(result);
      leveledUp := GainExperience(xpGained);
      gameHistory := Recent(HistoryEntry(result, timestamp, xpGained), gameHistory);
      newBadges := CheckBadges();
      if ValidRecord(before) {
        AfterGameValid(before, result, timestamp);
        WithBadgesValid(AfterGame(before, result, timestamp));
      }
    }
  }
}
