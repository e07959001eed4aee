/**
 * Letter feedback for one guess against the target word (the
 * `calculateFeedback` method of the server's game model).
 *
 * The source works on three arrays: the tags, and the letters of the target
 * and of the guess, where a consumed letter is overwritten with `null`
 * (here `None`).  A first pass tags every exact-position match `correct` and
 * consumes it on both sides; a second pass tags a remaining guess letter
 * `present` when the first unconsumed occurrence of it is found in the
 * target, and consumes that occurrence.  Everything else stays `absent`.
 *
 * `FirstPass` and `SecondPass` state the two passes as functions of the
 * inputs, position by position; `CalculateFeedback` runs them on arrays and
 * is proved to produce `Feedback`.  The lemmas at the end say what the
 * result means: one tag per position, `correct` exactly at the matching
 * positions, and, letter by letter, exactly min(count in guess, count in
 * target) positions that are not `absent`, so duplicate letters are never
 * over-counted.
 */
module LetterFeedback {
  import opened Wrappers

  datatype Tag = Correct | Present | Absent

  /** The working state of the algorithm: the tag array and the two letter arrays. */
  datatype Board = Board(tags: seq<Tag>, targetLetters: seq<Option<char>>, guessLetters: seq<Option<char>>)

  /** `s.split('')`, every letter still unconsumed. */
  function Letters(s: string): (r: seq<Option<char>>)
    ensures |r| == |s|
    ensures forall i :: 0 <= i < |s| ==> r[i] == Some(s[i])
  {
    seq(|s|, i requires 0 <= i < |s| => Some(s[i]))
  }

  /** Position `i` holds the same letter in both words. */
  predicate Exact(guess: string, target: string, i: int) {
    0 <= i < |guess| && i < |target| && guess[i] == target[i]
  }

  ghost predicate Shaped(b: Board, guess: string, target: string) {
    |b.tags| == |b.guessLetters| == |guess| && |b.targetLetters| == |target|
  }

  /** The state before the first pass: every tag `absent`, nothing consumed. */
  function Start(guess: string, target: string): (b: Board)
    ensures Shaped(b, guess, target)
  {
    Board(seq(|guess|, _ => Absent), Letters(target), Letters(guess))
  }

  /** One iteration of the first loop, at position `i`. */
  function ExactStep(b: Board, i: nat): (after: Board)
    requires i < |b.tags| == |b.guessLetters|
  {
    if i < |b.targetLetters| && b.guessLetters[i] == b.targetLetters[i] then
      Board(b.tags[i := Correct], b.targetLetters[i := None], b.guessLetters[i := None])
    else
      b
  }

  /** The state after the first loop has handled positions 0 .. k-1. */
  function FirstPass(guess: string, target: string, k: nat): (b: Board)
    requires k <= |guess|
    ensures Shaped(b, guess, target)
  {
    if k == 0 then Start(guess, target) else ExactStep(FirstPass(guess, target, k - 1), k - 1)
  }

  /** `letters.indexOf(c)`: the first position holding `c`, or -1. */
  function IndexOf(letters: seq<Option<char>>, c: char): (j: int)
    ensures -1 <= j < |letters|
    ensures 0 <= j ==> letters[j] == Some(c) && forall m :: 0 <= m < j ==> letters[m] != Some(c)
    ensures j == -1 <==> Some(c) !in letters
  {
    if letters == [] then -1
    else if letters[0] == Some(c) then 0
    else
      var r := IndexOf(letters[1..], c);
      if r == -1 then -1 else r + 1
  }

  /** One iteration of the second loop, at position `i`. */
  function PresentStep(b: Board, i: nat): (after: Board)
    requires i < |b.tags| == |b.guessLetters|
  {
    match b.guessLetters[i]
    case None => b
    case Some(c) =>
      var j := IndexOf(b.targetLetters, c);
      if j == -1 then b else Board(b.tags[i := Present], b.targetLetters[j := None], b.guessLetters)
  }

  /** The state after the whole first loop and positions 0 .. k-1 of the second. */
  function SecondPass(guess: string, target: string, k: nat): (b: Board)
    requires k <= |guess|
    ensures Shaped(b, guess, target)
  {
    if k == 0 then FirstPass(guess, target, |guess|) else PresentStep(SecondPass(guess, target, k - 1), k - 1)
  }

  /** The feedback the algorithm returns. */
  function Feedback(guess: string, target: string): (fb: seq<Tag>)
    ensures |fb| == |guess|
  {
    SecondPass(guess, target, |guess|).tags
  }

  /** The source's two loops over its three arrays. */
  method CalculateFeedback(guess: string, target: string) returns (feedback: seq<Tag>)
    ensures feedback == Feedback(guess, target)
  {
    var tags := new Tag[|guess|](_ => Absent);
    var targetLetters := new Option<char>[|target|](j requires 0 <= j < |target| => Some(target[j]));
    var guessLetters := new Option<char>[|guess|](i requires 0 <= i < |guess| => Some(guess[i]));
    assert Board(tags[..], targetLetters[..], guessLetters[..]) == Start(guess, target);
    MarkCorrect(guess, target, tags, targetLetters, guessLetters);
    MarkPresent(guess, target, tags, targetLetters, guessLetters);
    feedback := tags[..];
  }

  /** The first loop: mark exact-position matches `correct` and consume them. */
  method MarkCorrect(guess: string, target: string, tags: array<Tag>,
                     targetLetters: array<Option<char>>, guessLetters: array<Option<char>>)
    requires targetLetters != guessLetters
    requires Board(tags[..], targetLetters[..], guessLetters[..]) == Start(guess, target)
    modifies tags, targetLetters, guessLetters
    ensures Board(tags[..], targetLetters[..], guessLetters[..]) == FirstPass(guess, target, |guess|)
  {
    var i := 0;
    while i < |guess|
      invariant 0 <= i <= |guess|
      invariant Board(tags[..], targetLetters[..], guessLetters[..]) == FirstPass(guess, target, i)
    {
      ghost var before := Board(tags[..], targetLetters[..], guessLetters[..]);
      if i < targetLetters.Length && guessLetters[i] == targetLetters[i] {
        tags[i] := Correct;
        targetLetters[i] := None;
        guessLetters[i] := None;
        assert tags[..] == before.tags[i := Correct];
        assert targetLetters[..] == before.targetLetters[i := None];
        assert guessLetters[..] == before.guessLetters[i := None];
      }
      assert Board(tags[..], targetLetters[..], guessLetters[..]) == ExactStep(before, i);
      i := i + 1;
    }
  }

  /** The second loop: mark a remaining guess letter `present` when an
      unconsumed occurrence is left in the target, and consume the first one. */
  method MarkPresent(guess: string, target: string, tags: array<Tag>,
                     targetLetters: array<Option<char>>, guessLetters: array<Option<char>>)
    requires targetLetters != guessLetters
    requires Board(tags[..], targetLetters[..], guessLetters[..]) == FirstPass(guess, target, |guess|)
    modifies tags, targetLetters
    ensures Board(tags[..], targetLetters[..], guessLetters[..]) == SecondPass(guess, target, |guess|)
  {
    var i := 0;
    while i < |guess|
      invariant 0 <= i <= |guess|
      invariant Board(tags[..], targetLetters[..], guessLetters[..]) == SecondPass(guess, target, i)
    {
      ghost var before := Board(tags[..], targetLetters[..], guessLetters[..]);
      if guessLetters[i] != None {
        var j := IndexOf(targetLetters[..], guessLetters[i].value);
        if j != -1 {
          tags[i] := Present;
          targetLetters[j] := None;
          assert tags[..] == before.tags[i := Present];
          assert targetLetters[..] == before.targetLetters[j := None];
        }
      }
      assert Board(tags[..], targetLetters[..], guessLetters[..]) == PresentStep(before, i);
      i := i + 1;
    }
  }

  // ---------------------------------------------------------------------
  // Letter accounting

  /** The letters of the guess at positions not tagged `absent`. */
  function Credited(guess: string, tags: seq<Tag>): (credited: multiset<char>)
    requires |tags| == |guess|
  {
    if guess == [] then multiset{}
    else (if tags[0] != Absent then multiset{guess[0]} else multiset{}) + Credited(guess[1..], tags[1..])
  }

  /** The letters of the guess at positions tagged `absent`. */
  function Missed(guess: string, tags: seq<Tag>): (missed: multiset<char>)
    requires |tags| == |guess|
  {
    if guess == [] then multiset{}
    else (if tags[0] == Absent then multiset{guess[0]} else multiset{}) + Missed(guess[1..], tags[1..])
  }

  lemma {:induction false} CreditedNone(guess: string, tags: seq<Tag>)
    requires |tags| == |guess|
    requires forall i :: 0 <= i < |tags| ==> tags[i] == Absent
    ensures Credited(guess, tags) == multiset{}
  {
    if guess != [] {
      CreditedNone(guess[1..], tags[1..]);
    }
  }

  /** Turning one `absent` tag into another tag credits exactly that letter. */
  lemma {:induction false} CreditedUpdate(guess: string, tags: seq<Tag>, i: nat, t: Tag)
    requires |tags| == |guess| && i < |guess|
    requires tags[i] == Absent && t != Absent
    ensures Credited(guess, tags[i := t]) == Credited(guess, tags) + multiset{guess[i]}
  {
    if i > 0 {
      assert tags[i := t][1..] == tags[1..][i - 1 := t];
      CreditedUpdate(guess[1..], tags[1..], i - 1, t);
    } else {
      assert tags[i := t][1..] == tags[1..];
    }
  }

  /** Every letter of the guess is either credited or missed. */
  lemma {:induction false} CreditedMissedPartition(guess: string, tags: seq<Tag>)
    requires |tags| == |guess|
    ensures Credited(guess, tags) + Missed(guess, tags) == multiset(guess)
  {
    if guess != [] {
      CreditedMissedPartition(guess[1..], tags[1..]);
      assert guess == [guess[0]] + guess[1..];
    }
  }

  /** A missed letter sits at some `absent` position. */
  lemma {:induction false} MissedAt(guess: string, tags: seq<Tag>, c: char) returns (i: nat)
    requires |tags| == |guess|
    requires Missed(guess, tags)[c] > 0
    ensures i < |guess| && guess[i] == c && tags[i] == Absent
  {
    if tags[0] == Absent && guess[0] == c {
      i := 0;
    } else {
      var k := MissedAt(guess[1..], tags[1..], c);
      i := k + 1;
    }
  }

  /** A letter array counts each letter as often as the word it was split from. */
  lemma {:induction false} LettersCount(letters: seq<Option<char>>, s: string, c: char)
    requires |letters| == |s|
    requires forall i :: 0 <= i < |s| ==> letters[i] == Some(s[i])
    ensures multiset(letters)[Some(c)] == multiset(s)[c]
  {
    if s != [] {
      LettersCount(letters[1..], s[1..], c);
      assert letters == [letters[0]] + letters[1..];
      assert s == [s[0]] + s[1..];
    }
  }

  /** Consuming a target occurrence of the letter a newly credited position
      holds keeps the count of every letter balanced. */
  lemma ConsumeBalanced(guess: string, tags: seq<Tag>, letters: seq<Option<char>>, i: nat, j: nat, t: Tag, c: char)
    requires |tags| == |guess| && i < |guess| && j < |letters|
    requires tags[i] == Absent && t != Absent && letters[j] == Some(guess[i])
    ensures Credited(guess, tags[i := t])[c] + multiset(letters[j := None])[Some(c)]
         == Credited(guess, tags)[c] + multiset(letters)[Some(c)]
  {
    CreditedUpdate(guess, tags, i, t);
    assert multiset(letters[j := None]) == multiset(letters) - multiset{letters[j]} + multiset{None};
  }

  /** Invariant of both passes, letter by letter: every occurrence of `c` in
      the target is either credited to the guess or still unconsumed. */
  ghost predicate Balanced(b: Board, guess: string, target: string, c: char)
    requires Shaped(b, guess, target)
  {
    Credited(guess, b.tags)[c] + multiset(b.targetLetters)[Some(c)] == multiset(target)[c]
  }

  /** What the first pass has done after k positions. */
  lemma {:induction false} FirstPassState(guess: string, target: string, k: nat)
    requires k <= |guess|
    ensures var b := FirstPass(guess, target, k);
      && (forall i :: 0 <= i < |guess| ==> (b.tags[i] == Correct <==> i < k && Exact(guess, target, i)))
      && (forall i :: 0 <= i < |guess| ==> b.tags[i] != Present)
      && (forall i :: 0 <= i < |guess| ==> b.guessLetters[i] == if b.tags[i] == Correct then None else Some(guess[i]))
      && (forall j :: 0 <= j < |target| ==> b.targetLetters[j] == if j < k && Exact(guess, target, j) then None else Some(target[j]))
  {
    if k > 0 {
      FirstPassState(guess, target, k - 1);
    }
  }

  lemma {:induction false} FirstPassBalanced(guess: string, target: string, k: nat, c: char)
    requires k <= |guess|
    ensures Balanced(FirstPass(guess, target, k), guess, target, c)
  {
    if k == 0 {
      var b := Start(guess, target);
      CreditedNone(guess, b.tags);
      LettersCount(b.targetLetters, target, c);
    } else {
      var a := FirstPass(guess, target, k - 1);
      FirstPassBalanced(guess, target, k - 1, c);
      if ExactStep(a, k - 1) != a {
        FirstPassState(guess, target, k - 1);
        assert a.tags[k - 1] == Absent;
        ConsumeBalanced(guess, a.tags, a.targetLetters, k - 1, k - 1, Correct, c);
      }
    }
  }

  /** What the second pass has done after k positions. */
  lemma {:induction false} SecondPassState(guess: string, target: string, k: nat)
    requires k <= |guess|
    ensures var b := SecondPass(guess, target, k);
      && (forall i :: 0 <= i < |guess| ==> (b.tags[i] == Correct <==> Exact(guess, target, i)))
      && (forall i :: 0 <= i < |guess| ==> b.guessLetters[i] == if b.tags[i] == Correct then None else Some(guess[i]))
      && (forall i :: k <= i < |guess| ==> b.tags[i] != Present)
      && (forall i :: 0 <= i < k && b.tags[i] == Absent ==> Some(guess[i]) !in b.targetLetters)
  {
    if k == 0 {
      FirstPassState(guess, target, |guess|);
    } else {
      SecondPassState(guess, target, k - 1);
    }
  }

  lemma {:induction false} SecondPassBalanced(guess: string, target: string, k: nat, c: char)
    requires k <= |guess|
    ensures Balanced(SecondPass(guess, target, k), guess, target, c)
  {
    if k == 0 {
      FirstPassBalanced(guess, target, |guess|, c);
    } else {
      var a := SecondPass(guess, target, k - 1);
      SecondPassBalanced(guess, target, k - 1, c);
      if PresentStep(a, k - 1) != a {
        SecondPassState(guess, target, k - 1);
        var g := a.guessLetters[k - 1].value;
        var j := IndexOf(a.targetLetters, g);
        assert a.tags[k - 1] == Absent;
        ConsumeBalanced(guess, a.tags, a.targetLetters, k - 1, j, Present, c);
      }
    }
  }

  // ---------------------------------------------------------------------
  // What the feedback means

  /** Position i is tagged `correct` exactly when both words hold the same letter there. */
  lemma FeedbackCorrectIff(guess: string, target: string, i: nat)
    requires i < |guess|
    ensures Feedback(guess, target)[i] == Correct <==> i < |target| && guess[i] == target[i]
  {
    SecondPassState(guess, target, |guess|);
    assert Feedback(guess, target) == SecondPass(guess, target, |guess|).tags;
    assert Exact(guess, target, i) <==> i < |target| && guess[i] == target[i];
  }

  /**
   * Letter by letter, the number of positions tagged `correct` or `present`
   * is min(count in guess, count in target): the multiset intersection.
   */
  lemma FeedbackCredits(guess: string, target: string)
    ensures Credited(guess, Feedback(guess, target)) == multiset(guess) * multiset(target)
  {
    var b := SecondPass(guess, target, |guess|);
    SecondPassState(guess, target, |guess|);
    CreditedMissedPartition(guess, b.tags);
    forall c
      ensures Credited(guess, b.tags)[c] == (multiset(guess) * multiset(target))[c]
    {
      SecondPassBalanced(guess, target, |guess|, c);
      if Missed(guess, b.tags)[c] > 0 {
        var i := MissedAt(guess, b.tags, c);
        assert Some(c) !in b.targetLetters;
      }
    }
  }

  /** Duplicate letters are never over-counted. */
  lemma FeedbackNeverOverCounts(guess: string, target: string, c: char)
    ensures Credited(guess, Feedback(guess, target))[c] <= multiset(target)[c]
  {
    FeedbackCredits(guess, target);
  }

  /** The target itself gets `correct` everywhere. */
  lemma FeedbackAllCorrect(word: string)
    ensures Feedback(word, word) == seq(|word|, _ => Correct)
  {
    forall i | 0 <= i < |word|
      ensures Feedback(word, word)[i] == Correct
    {
      FeedbackCorrectIff(word, word, i);
    }
  }
}
