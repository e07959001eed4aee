/**
 * The on-screen keyboard's hints and the game-over score breakdown.
 *
 * Each key carries a set of hint classes drawn from correct, present and
 * absent; the page's other classes are not modelled, and a key is looked up
 * by its letter in a map standing for the page.  The hints form the order
 * none < absent < present < correct, and an update never lowers a key.
 */
module Keyboard {
  import opened Wrappers
  import opened LetterFeedback
  import opened Session

  type Hints = set<Tag>

  function TagRank(t: Tag): (rank: nat) {
    match t
    case Absent => 1
    case Present => 2
    case Correct => 3
  }

  /** The strongest hint a key shows: 0 for none. */
  function Rank(h: Hints): (rank: nat) {
    if Correct in h then 3 else if Present in h then 2 else if Absent in h then 1 else 0
  }

  /** The single-hint set of a rank. */
  function HintsOf(rank: nat): (h: Hints) {
    if rank == 0 then {} else if rank == 1 then {Absent} else if rank == 2 then {Present} else {Correct}
  }

  function Max(a: nat, b: nat): (m: nat) {
    if a >= b then a else b
  }

  /** One position's tag applied to its key's classes: correct replaces the
      other two; present replaces absent unless correct is shown; absent is
      added only when neither of the others is shown. */
  function UpdateKey(h: Hints, tag: Tag): (updated: Hints) {
    if tag == Correct then h - {Present, Absent} + {Correct}
    else if tag == Present && Correct !in h then h - {Absent} + {Present}
    else if tag == Absent && Correct !in h && Present !in h then h + {Absent}
    else h
  }

  /** A key's rank after an update is the larger of its rank and the tag's. */
  lemma UpdateKeyRank(h: Hints, tag: Tag)
    ensures Rank(UpdateKey(h, tag)) == Max(Rank(h), TagRank(tag))
  {
  }

  /** A key showing at most one hint shows exactly the hint its rank names. */
  lemma SingleHint(h: Hints)
    requires |h| <= 1
    ensures h == HintsOf(Rank(h))
  {
    if h != {} {
      var t :| t in h;
      assert |h - {t}| == 0;
      assert h - {t} == {};
      assert h == {t};
      match t
      case Absent =>
      case Present =>
      case Correct =>
    }
  }

  /** A key showing at most one hint still shows at most one, namely the
      stronger of its hint and the tag. */
  lemma UpdateKeySingle(h: Hints, tag: Tag)
    requires |h| <= 1
    ensures UpdateKey(h, tag) == HintsOf(Max(Rank(h), TagRank(tag)))
  {
    SingleHint(h);
  }

  /** The three hint classes are all a key can show. */
  lemma NoOtherHints(h: Hints)
    ensures h - {Absent, Present, Correct} == {}
  {
    forall t | t in h
      ensures t in {Absent, Present, Correct}
    {
      match t
      case Absent =>
      case Present =>
      case Correct =>
    }
  }

  /** The keys after the first `n` positions of a guess, in order; a letter
      without a key, or a position without a tag, is skipped. */
  function Apply(keys: map<char, Hints>, word: string, feedback: seq<Tag>, n: nat): (after: map<char, Hints>)
    requires n <= |word|
  {
    if n == 0 then keys
    else
      var k := Apply(keys, word, feedback, n - 1);
      var c := word[n - 1];
      if c in k && n - 1 < |feedback| then k[c := UpdateKey(k[c], feedback[n - 1])] else k
  }

  /** The strongest tag the first `n` positions give to letter `c`. */
  function Best(word: string, feedback: seq<Tag>, c: char, n: nat): (best: nat)
    requires n <= |word|
  {
    if n == 0 then 0
    else
      var b := Best(word, feedback, c, n - 1);
      if word[n - 1] == c && n - 1 < |feedback| then Max(b, TagRank(feedback[n - 1])) else b
  }

  /** `Best` is the maximum over the positions holding `c`, whatever their
      order: at least every such tag's rank, and either 0 or one of them. */
  lemma {:induction false} BestIsMaximum(word: string, feedback: seq<Tag>, c: char, n: nat)
    requires n <= |word|
    ensures forall i :: 0 <= i < n && i < |feedback| && word[i] == c ==> TagRank(feedback[i]) <= Best(word, feedback, c, n)
    ensures Best(word, feedback, c, n) == 0 ||
      exists i :: 0 <= i < n && i < |feedback| && word[i] == c && TagRank(feedback[i]) == Best(word, feedback, c, n)
  {
    if n > 0 {
      BestIsMaximum(word, feedback, c, n - 1);
    }
  }

  /** An update keeps the set of keys, leaves keys whose letter the guess
      does not use alone, and raises each key to the larger of its rank and
      the best tag its letter received. */
  lemma {:induction false} ApplyRanks(keys: map<char, Hints>, word: string, feedback: seq<Tag>, n: nat)
    requires n <= |word|
    ensures Apply(keys, word, feedback, n).Keys == keys.Keys
    ensures forall c :: c in keys ==>
      Rank(Apply(keys, word, feedback, n)[c]) == Max(Rank(keys[c]), Best(word, feedback, c, n))
    ensures forall c :: c in keys && c !in word[..n] ==> Apply(keys, word, feedback, n)[c] == keys[c]
  {
    if n > 0 {
      ApplyRanks(keys, word, feedback, n - 1);
      var k := Apply(keys, word, feedback, n - 1);
      var c := word[n - 1];
      if c in k && n - 1 < |feedback| {
        UpdateKeyRank(k[c], feedback[n - 1]);
      }
      assert word[..n] == word[..n - 1] + [c];
    }
  }

  /** Keys showing at most one hint each still do after an update. */
  lemma {:induction false} ApplyKeepsSingle(keys: map<char, Hints>, word: string, feedback: seq<Tag>, n: nat)
    requires n <= |word|
    requires forall c :: c in keys ==> |keys[c]| <= 1
    ensures Apply(keys, word, feedback, n).Keys == keys.Keys
    ensures forall c :: c in keys ==> |Apply(keys, word, feedback, n)[c]| <= 1
  {
    ApplyRanks(keys, word, feedback, n);
    if n > 0 {
      ApplyKeepsSingle(keys, word, feedback, n - 1);
      var k := Apply(keys, word, feedback, n - 1);
      var c := word[n - 1];
      if c in k && n - 1 < |feedback| {
        UpdateKeySingle(k[c], feedback[n - 1]);
      }
    }
  }

  /** Keys showing at most one hint each show, after an update, exactly the
      hint named by the larger of their old rank and their letter's best tag. */
  lemma ApplySingle(keys: map<char, Hints>, word: string, feedback: seq<Tag>, n: nat)
    requires n <= |word|
    requires forall c :: c in keys ==> |keys[c]| <= 1
    ensures Apply(keys, word, feedback, n).Keys == keys.Keys
    ensures forall c :: c in keys ==>
      Apply(keys, word, feedback, n)[c] == HintsOf(Max(Rank(keys[c]), Best(word, feedback, c, n)))
  {
    ApplyRanks(keys, word, feedback, n);
    ApplyKeepsSingle(keys, word, feedback, n);
    var after := Apply(keys, word, feedback, n);
    forall c | c in keys
      ensures after[c] == HintsOf(Max(Rank(keys[c]), Best(word, feedback, c, n)))
    {
      SingleHint(after[c]);
    }
  }

  /** The page's keys and their hint classes. */
  class KeyboardView {
    var keys: map<char, Hints>

    constructor (letters: set<char>)
      ensures keys == map c | c in letters :: {}
    {
      keys := map c | c in letters :: {};
    }

    /** Applies a guess's feedback to the keys, position by position. */
    method UpdateKeyboard(word: string, feedback: seq<Tag>)
      modifies this
      ensures keys == Apply(old(keys), word, feedback, |word|)
      ensures keys.Keys == old(keys).Keys
      ensures forall c :: c in keys ==>
        Rank(keys[c]) == Max(Rank(old(keys)[c]), Best(word, feedback, c, |word|))
    {
      var i := 0;
      while i < |word|
        invariant 0 <= i <= |word|
        invariant keys == Apply(old(keys), word, feedback, i)
      {
        var letter := word[i];
        if letter in keys && i < |feedback| {
          var classes := keys[letter];
          var tag := feedback[i];
          if tag == Correct {
            classes := classes - {Present, Absent};
            classes := classes + {Correct};
          } else if tag == Present && Correct !in classes {
            classes := classes - {Absent};
            classes := classes + {Present};
          } else if tag == Absent && Correct !in classes && Present !in classes {
            classes := classes + {Absent};
          }
          keys := keys[letter := classes];
        }
        i := i + 1;
      }
      ApplyRanks(old(keys), word, feedback, |word|);
    }

    /** Clears the three hint classes from every key. */
    method ResetKeyboard()
      modifies this
      ensures keys.Keys == old(keys).Keys
      ensures forall c :: c in keys ==> keys[c] == {}
    {
      ghost var domain := keys.Keys;
      var pending := keys.Keys;
      while pending != {}
        invariant pending <= domain && keys.Keys == domain
        invariant forall c :: c in domain && c !in pending ==> keys[c] == {}
        decreases pending
      {
        var c :| c in pending;
        var classes := keys[c] - {Absent, Present, Correct};
        NoOtherHints(keys[c]);
        keys := keys[c := classes];
        pending := pending - {c};
      }
    }
  }

  // ---------------------------------------------------------------------
  // The game-over score breakdown

  datatype Breakdown = Breakdown(baseScore: int, guessBonus: int, timeBonus: int, finalScore: int)

  /** On a win: the 1000 base points, 100 for each unused guess, and whatever
      else the score holds as the time bonus; on a loss, zeros. */
  function ScoreBreakdown(g: PublicGameState): (b: Breakdown)
    ensures g.gameStatus != Won ==> b == Breakdown(0, 0, 0, 0)
    ensures g.gameStatus == Won ==> b.baseScore == 1000 && b.finalScore == g.score && b.timeBonus >= 0
    ensures g.gameStatus == Won && g.score >= 1000 + b.guessBonus ==>
      b.baseScore + b.guessBonus + b.timeBonus == b.finalScore
  {
    if g.gameStatus == Won then
      var guessBonus := (g.maxGuesses - g.currentGuess) * 100;
      var rest := g.score - 1000 - guessBonus;
      Breakdown(1000, guessBonus, if rest > 0 then rest else 0, g.score)
    else Breakdown(0, 0, 0, 0)
  }

  /** For a session the server scored, the breakdown recovers the server's
      terms exactly: its base score, its guess bonus and its time bonus, which
      add up to the score shown. */
  lemma BreakdownMatchesServer(s: GameState)
    requires WellFormed(s)
    ensures var b := ScoreBreakdown(PublicView(s));
      && (s.gameStatus == Won ==>
            && b.baseScore == BaseScore
            && b.guessBonus == (s.maxGuesses - s.currentGuess) * 100
            && b.timeBonus == TimeBonus(Elapsed(s))
            && b.baseScore + b.guessBonus + b.timeBonus == b.finalScore == s.score)
      && (s.gameStatus != Won ==> b == Breakdown(0, 0, 0, 0))
  {
  }
}
