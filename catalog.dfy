/**
 * The vocabulary table and its lookups (the server's word list).
 *
 * The table is a constant: four levels, easy, medium, hard and expert, in
 * that order, each a list of entries with the word, a definition, a
 * fill-in-the-blank sentence and four multiple-choice options.  The lookups
 * take the table as a parameter (the source reads its module constant,
 * `Vocabulary` here), so their properties are proved for every table, and
 * the facts about the constant itself are stated level by level, in
 * `EasyWellFormed` and its siblings.  Words are matched after upper-casing, so the
 * word lookups ignore letter case; level names are matched exactly.
 */
module Catalog {
  import opened Wrappers
  import opened Text

  datatype WordEntry = WordEntry(word: string, definition: string, sentence: string, choices: seq<string>)

  datatype Level = Level(name: string, entries: seq<WordEntry>)

  type Database = seq<Level>

  /** The table, level by level. */
  const Vocabulary: Database := [
    Level("easy", EasyWords),
    Level("medium", MediumWords),
    Level("hard", HardWords),
    Level("expert", ExpertWords)
  ]

  // Each level is written in parts of at most five entries, so that the
  // check of every part stays small.

  /** The easy level, common everyday words. */
  const EasyWords: seq<WordEntry> := EasyWordsA + EasyWordsB

  const EasyWordsA: seq<WordEntry> := [
    WordEntry("HAPPY",
      "Feeling or showing pleasure or contentment",
      "She felt ____ when she received good news.",
      ["HAPPY", "ANGRY", "TIRED", "BORED"]),
    WordEntry("BRIGHT",
      "Giving out or reflecting much light",
      "The ____ sun shone through the window.",
      ["BRIGHT", "DARK", "COLD", "QUIET"]),
    WordEntry("QUICK",
      "Moving fast or doing something in a short time",
      "The rabbit was very ____ and ran away.",
      ["QUICK", "SLOW", "LAZY", "HEAVY"]),
    WordEntry("BRAVE",
      "Ready to face and endure danger or pain",
      "The ____ firefighter rushed into the burning building.",
      ["BRAVE", "SCARED", "WEAK", "CRUEL"])
  ]

  const EasyWordsB: seq<WordEntry> := [
    WordEntry("FRIEND",
      "A person with whom one has a bond of mutual affection",
      "My best ____ and I have known each other for years.",
      ["FRIEND", "ENEMY", "STRANGER", "TEACHER"]),
    WordEntry("SMILE",
      "Form one's features into a pleased or amused expression",
      "Her warm ____ made everyone feel welcome.",
      ["SMILE", "FROWN", "LAUGH", "CRY"]),
    WordEntry("PEACE",
      "Freedom from disturbance; tranquility",
      "After the war ended, there was finally ____.",
      ["PEACE", "WAR", "CHAOS", "NOISE"]),
    WordEntry("DREAM",
      "A series of thoughts or images during sleep",
      "Last night I had a strange ____ about flying.",
      ["DREAM", "REALITY", "AWAKE", "SLEEP"])
  ]

  /** The medium level. */
  const MediumWords: seq<WordEntry> := MediumWordsA + MediumWordsB

  const MediumWordsA: seq<WordEntry> := [
    WordEntry("ANALYZE",
      "Examine something in detail to understand it better",
      "Scientists ____ data to draw meaningful conclusions.",
      ["ANALYZE", "IGNORE", "DESTROY", "CREATE"]),
    WordEntry("DIVERSE",
      "Showing a great deal of variety",
      "The city has a ____ population from many cultures.",
      ["DIVERSE", "UNIFORM", "BORING", "SIMPLE"]),
    WordEntry("EVIDENT",
      "Plain or obvious; clearly seen or understood",
      "It was ____ from her expression that she was upset.",
      ["EVIDENT", "HIDDEN", "UNCLEAR", "SECRET"]),
    WordEntry("JUSTIFY",
      "Show or prove to be right or reasonable",
      "He tried to ____ his actions with logical arguments.",
      ["JUSTIFY", "CONDEMN", "HIDE", "FORGET"])
  ]

  const MediumWordsB: seq<WordEntry> := [
    WordEntry("PERSIST",
      "Continue firmly despite difficulty or opposition",
      "Despite many failures, she continued to ____ in her efforts.",
      ["PERSIST", "QUIT", "SURRENDER", "ABANDON"]),
    WordEntry("REQUIRE",
      "Need for a particular purpose",
      "This job will ____ excellent communication skills.",
      ["REQUIRE", "REJECT", "IGNORE", "AVOID"]),
    WordEntry("SUSTAIN",
      "Strengthen or support physically or mentally",
      "The organization works to ____ endangered species.",
      ["SUSTAIN", "DESTROY", "HARM", "NEGLECT"]),
    WordEntry("COMPLEX",
      "Consisting of many different and connected parts",
      "The human brain is an incredibly ____ organ.",
      ["COMPLEX", "SIMPLE", "BASIC", "EASY"])
  ]

  /** The hard level. */
  const HardWords: seq<WordEntry> := HardWordsA + HardWordsB + HardWordsC + HardWordsD

  const HardWordsA: seq<WordEntry> := [
    WordEntry("ABYSMAL",
      "Extremely bad; appalling",
      "The team's performance this season has been ____.",
      ["ABYSMAL", "EXCELLENT", "AVERAGE", "DECENT"]),
    WordEntry("ACUMEN",
      "The ability to make good judgments and quick decisions",
      "Her business ____ helped the company succeed.",
      ["ACUMEN", "FAILURE", "IGNORANCE", "WEAKNESS"]),
    WordEntry("AFFABLE",
      "Friendly, good-natured, and easy to talk to",
      "The ____ professor was beloved by all students.",
      ["AFFABLE", "HOSTILE", "RUDE", "STERN"]),
    WordEntry("ALLEVIATE",
      "Make pain, suffering, or problems less severe",
      "The medicine helped to ____ her symptoms.",
      ["ALLEVIATE", "WORSEN", "INCREASE", "INTENSIFY"]),
    WordEntry("ASTUTE",
      "Having the ability to accurately assess situations",
      "The ____ investor knew exactly when to buy stocks.",
      ["ASTUTE", "FOOLISH", "NAIVE", "CARELESS"])
  ]

  const HardWordsB: seq<WordEntry> := [
    WordEntry("BENEVOLENT",
      "Well-meaning and kindly",
      "The ____ donor gave millions to charity.",
      ["BENEVOLENT", "CRUEL", "SELFISH", "MEAN"]),
    WordEntry("CANDID",
      "Truthful and straightforward; frank",
      "I appreciate your ____ feedback on my work.",
      ["CANDID", "DISHONEST", "EVASIVE", "VAGUE"]),
    WordEntry("DILIGENT",
      "Having or showing care in one's work or duties",
      "The ____ student studied every night for the exam.",
      ["DILIGENT", "LAZY", "CARELESS", "NEGLIGENT"]),
    WordEntry("ELOQUENT",
      "Fluent or persuasive in speaking or writing",
      "The speaker gave an ____ address that moved the audience.",
      ["ELOQUENT", "INARTICULATE", "BORING", "UNCLEAR"]),
    WordEntry("EPHEMERAL",
      "Lasting for a very short time",
      "Fame can be ____, disappearing as quickly as it came.",
      ["EPHEMERAL", "PERMANENT", "ETERNAL", "LASTING"])
  ]

  const HardWordsC: seq<WordEntry> := [
    WordEntry("FASTIDIOUS",
      "Very attentive to accuracy and detail",
      "He was ____ about keeping his workspace organized.",
      ["FASTIDIOUS", "CARELESS", "SLOPPY", "MESSY"]),
    WordEntry("GREGARIOUS",
      "Fond of company; sociable",
      "Her ____ nature made her popular at parties.",
      ["GREGARIOUS", "SHY", "WITHDRAWN", "ANTISOCIAL"]),
    WordEntry("METICULOUS",
      "Showing great attention to detail",
      "The ____ researcher checked every fact twice.",
      ["METICULOUS", "CARELESS", "HASTY", "SLOPPY"]),
    WordEntry("NEFARIOUS",
      "Wicked or criminal",
      "The villain hatched a ____ plan to steal the treasure.",
      ["NEFARIOUS", "NOBLE", "VIRTUOUS", "HONORABLE"]),
    WordEntry("PENSIVE",
      "Engaged in deep or serious thought",
      "She sat in a ____ mood, contemplating her future.",
      ["PENSIVE", "CAREFREE", "THOUGHTLESS", "FRIVOLOUS"])
  ]

  const HardWordsD: seq<WordEntry> := [
    WordEntry("PRAGMATIC",
      "Dealing with things sensibly and realistically",
      "His ____ approach focused on practical solutions.",
      ["PRAGMATIC", "IDEALISTIC", "IMPRACTICAL", "THEORETICAL"]),
    WordEntry("RESILIENT",
      "Able to recover quickly from difficulties",
      "The ____ community rebuilt after the disaster.",
      ["RESILIENT", "FRAGILE", "WEAK", "BRITTLE"]),
    WordEntry("TENACIOUS",
      "Not readily letting go of or giving up",
      "Her ____ spirit helped her overcome many obstacles.",
      ["TENACIOUS", "WEAK", "YIELDING", "TIMID"]),
    WordEntry("UBIQUITOUS",
      "Present, appearing, or found everywhere",
      "Smartphones have become ____ in modern society.",
      ["UBIQUITOUS", "RARE", "SCARCE", "ABSENT"]),
    WordEntry("ZEALOUS",
      "Having or showing great energy or enthusiasm",
      "She was a ____ advocate for environmental protection.",
      ["ZEALOUS", "APATHETIC", "INDIFFERENT", "LAZY"])
  ]

  /** The expert level. */
  const ExpertWords: seq<WordEntry> := ExpertWordsA + ExpertWordsB

  const ExpertWordsA: seq<WordEntry> := [
    WordEntry("OBFUSCATE",
      "Render obscure, unclear, or unintelligible",
      "The politician tried to ____ the truth with complex jargon.",
      ["OBFUSCATE", "CLARIFY", "EXPLAIN", "ILLUMINATE"]),
    WordEntry("PERSPICACIOUS",
      "Having a ready insight into and understanding of things",
      "The ____ detective solved the mystery quickly.",
      ["PERSPICACIOUS", "OBLIVIOUS", "IGNORANT", "CONFUSED"]),
    WordEntry("RECALCITRANT",
      "Having an obstinately uncooperative attitude",
      "The ____ witness refused to testify in court.",
      ["RECALCITRANT", "COOPERATIVE", "OBEDIENT", "COMPLIANT"])
  ]

  const ExpertWordsB: seq<WordEntry> := [
    WordEntry("SANGUINE",
      "Optimistic or positive, especially in difficult situations",
      "Despite setbacks, she remained ____ about the project.",
      ["SANGUINE", "PESSIMISTIC", "GLOOMY", "NEGATIVE"]),
    WordEntry("TACITURN",
      "Reserved or uncommunicative in speech; saying little",
      "The ____ hermit rarely spoke to visitors.",
      ["TACITURN", "TALKATIVE", "VERBOSE", "CHATTY"]),
    WordEntry("VICARIOUS",
      "Experienced in the imagination through another person",
      "She got ____ pleasure from reading adventure novels.",
      ["VICARIOUS", "DIRECT", "PERSONAL", "FIRSTHAND"])
  ]

  /** The `word` field of every entry, in order. */
  function Words(entries: seq<WordEntry>): (ws: seq<string>)
    ensures |ws| == |entries|
    ensures forall k :: 0 <= k < |entries| ==> ws[k] == entries[k].word
  {
    seq(|entries|, k requires 0 <= k < |entries| => entries[k].word)
  }

  lemma WordsAppend(a: seq<WordEntry>, b: seq<WordEntry>)
    ensures Words(a + b) == Words(a) + Words(b)
  {
  }

  /** Every entry of the table, level by level in table order. */
  function AllEntries(db: Database): (all: seq<WordEntry>) {
    if db == [] then [] else db[0].entries + AllEntries(db[1..])
  }

  /** The number of entries in all levels together. */
  function TotalSize(db: Database): (size: nat) {
    if db == [] then 0 else |db[0].entries| + TotalSize(db[1..])
  }

  lemma {:induction false} AllEntriesSize(db: Database)
    ensures |AllEntries(db)| == TotalSize(db)
  {
    if db != [] {
      AllEntriesSize(db[1..]);
    }
  }

  /** Adding one level at the end adds its entries at the end. */
  lemma {:induction false} AllEntriesSnoc(db: Database, level: Level)
    ensures AllEntries(db + [level]) == AllEntries(db) + level.entries
  {
    if db != [] {
      assert (db + [level])[1..] == db[1..] + [level];
      AllEntriesSnoc(db[1..], level);
    } else {
      assert (db + [level])[1..] == [];
    }
  }

  /** `getAllWords`: push every entry's word, level by level. */
  method GetAllWords(db: Database) returns (allWords: seq<string>)
    ensures allWords == Words(AllEntries(db))
  {
    allWords := [];
    for i := 0 to |db|
      invariant allWords == Words(AllEntries(db[..i]))
    {
      allWords := PushWords(allWords, db[i].entries);
      assert db[..i + 1] == db[..i] + [db[i]];
      AllEntriesSnoc(db[..i], db[i]);
      WordsAppend(AllEntries(db[..i]), db[i].entries);
    }
    assert db[..|db|] == db;
  }

  /** The inner loop of `getAllWords`: push one level's words. */
  method PushWords(allWords: seq<string>, entries: seq<WordEntry>) returns (r: seq<string>)
    ensures r == allWords + Words(entries)
  {
    r := allWords;
    for k := 0 to |entries|
      invariant r == allWords + Words(entries[..k])
    {
      assert entries[..k + 1] == entries[..k] + [entries[k]];
      r := r + [entries[k].word];
    }
    assert entries[..|entries|] == entries;
  }

  /** `getAllWords` lists one word per entry of every level. */
  lemma AllWordsSize(db: Database)
    ensures |Words(AllEntries(db))| == TotalSize(db)
  {
    AllEntriesSize(db);
  }

  /** `vocabularyDatabase[level]`: the entries of the level with that name. */
  function FindLevel(db: Database, name: string): (r: Option<seq<WordEntry>>)
    ensures r == None <==> forall i :: 0 <= i < |db| ==> db[i].name != name
    ensures r.Some? ==> exists i :: 0 <= i < |db| && db[i].name == name && db[i].entries == r.value
  {
    if db == [] then None
    else if db[0].name == name then Some(db[0].entries)
    else
      var r := FindLevel(db[1..], name);
      assert r.Some? ==> exists i :: 0 <= i < |db[1..]| && db[1..][i].name == name && db[1..][i].entries == r.value;
      r
  }

  /** `getWordsByLevel`: the level's entries, or [] for an unknown level. */
  function GetWordsByLevel(db: Database, name: string): (r: seq<WordEntry>)
    ensures FindLevel(db, name) == None ==> r == []
    ensures FindLevel(db, name).Some? ==> r == FindLevel(db, name).value
  {
    match FindLevel(db, name)
    case None => []
    case Some(entries) => entries
  }

  /**
   * `getRandomWordByLevel`, with the random draw as a parameter: `roll`
   * stands for `Math.random() * words.length`, whose floor is taken modulo
   * the level's size.  Null for an unknown or empty level.
   */
  function GetRandomWordByLevel(db: Database, name: string, roll: nat): (r: Option<WordEntry>)
    ensures r == None <==> GetWordsByLevel(db, name) == []
    ensures r.Some? ==> r.value in GetWordsByLevel(db, name)
    ensures roll < |GetWordsByLevel(db, name)| ==> r == Some(GetWordsByLevel(db, name)[roll])
  {
    match FindLevel(db, name)
    case None => None
    case Some(words) =>
      if |words| == 0 then None
      else
        var k := roll % |words|;
        assert 0 <= k < |words| && (roll < |words| ==> k == roll);
        Some(words[k])
  }

  /** `level.some(item => item.word === upperWord)`. */
  function LevelHas(entries: seq<WordEntry>, upperWord: string): (b: bool)
    ensures b <==> upperWord in Words(entries)
  {
    if entries == [] then false
    else
      assert Words(entries) == [entries[0].word] + Words(entries[1..]);
      entries[0].word == upperWord || LevelHas(entries[1..], upperWord)
  }

  /** The search loop of `isValidWord`, over the levels in order. */
  function InDatabase(db: Database, upperWord: string): (b: bool)
    ensures b <==> upperWord in Words(AllEntries(db))
  {
    if db == [] then false
    else
      WordsAppend(db[0].entries, AllEntries(db[1..]));
      LevelHas(db[0].entries, upperWord) || InDatabase(db[1..], upperWord)
  }

  /** `isValidWord`: the word, upper-cased, is some entry's word. */
  function IsValidWord(db: Database, word: string): (valid: bool)
    ensures valid <==> exists i :: 0 <= i < |db| && ToUpper(word) in Words(db[i].entries)
  {
    // The first level holding the word, if any, witnesses the level-by-level form.
    assert LevelIndex(db, ToUpper(word)) >= -1;
    InDatabase(db, ToUpper(word))
  }

  /** Membership is case-insensitive and is exactly membership in `getAllWords`. */
  lemma IsValidWordIff(db: Database, word: string)
    ensures IsValidWord(db, word) <==> ToUpper(word) in Words(AllEntries(db))
    ensures IsValidWord(db, word) == IsValidWord(db, ToUpper(word))
  {
    ToUpperIdempotent(word);
  }

  /** The entry `entries[k]` is the first one whose word is `upperWord`. */
  predicate FirstWith(entries: seq<WordEntry>, upperWord: string, k: int) {
    0 <= k < |entries| && entries[k].word == upperWord
    && forall j :: 0 <= j < k ==> entries[j].word != upperWord
  }

  /** The position `find` stops at: the first entry with that word, or -1. */
  function FirstIndex(entries: seq<WordEntry>, upperWord: string): (k: int)
    ensures -1 <= k < |entries|
    ensures k == -1 <==> upperWord !in Words(entries)
    ensures k >= 0 ==> FirstWith(entries, upperWord, k)
  {
    if entries == [] then -1
    else if entries[0].word == upperWord then 0
    else
      assert Words(entries) == [entries[0].word] + Words(entries[1..]);
      var k := FirstIndex(entries[1..], upperWord);
      if k == -1 then -1 else k + 1
  }

  /** Searching two lists one after the other finds the first match of their concatenation. */
  lemma FirstIndexAppend(a: seq<WordEntry>, b: seq<WordEntry>, upperWord: string)
    ensures FirstIndex(a + b, upperWord) ==
      if FirstIndex(a, upperWord) >= 0 then FirstIndex(a, upperWord)
      else if FirstIndex(b, upperWord) >= 0 then |a| + FirstIndex(b, upperWord)
      else -1
  {
    WordsAppend(a, b);
    var k := FirstIndex(a + b, upperWord);
    if FirstIndex(a, upperWord) >= 0 {
      assert FirstWith(a + b, upperWord, FirstIndex(a, upperWord));
    } else if FirstIndex(b, upperWord) >= 0 {
      assert forall j :: 0 <= j < |a| ==> a[j].word in Words(a);
      assert FirstWith(a + b, upperWord, |a| + FirstIndex(b, upperWord));
    }
  }

  /** `level.find(item => item.word === upperWord)`. */
  function FindEntry(entries: seq<WordEntry>, upperWord: string): (r: Option<WordEntry>)
    ensures r == None <==> upperWord !in Words(entries)
    ensures r.Some? ==> r.value.word == upperWord
    ensures r.Some? ==> exists k :: FirstWith(entries, upperWord, k) && r.value == entries[k]
  {
    var k := FirstIndex(entries, upperWord);
    if k == -1 then None else Some(entries[k])
  }

  /** The search loop of `getWordDetails`, over the levels in order: the
      result is the first match in the whole table. */
  function DetailsIn(db: Database, upperWord: string): (r: Option<WordEntry>)
    ensures r == None <==> upperWord !in Words(AllEntries(db))
    ensures r.Some? ==> r.value == AllEntries(db)[FirstIndex(AllEntries(db), upperWord)]
  {
    if db == [] then None
    else
      var level, rest := db[0].entries, AllEntries(db[1..]);
      assert AllEntries(db) == level + rest;
      FirstIndexAppend(level, rest, upperWord);
      match FindEntry(level, upperWord)
      case Some(e) => Some(e)
      case None => DetailsIn(db[1..], upperWord)
  }

  /** `getWordDetails`: the first entry, in table order, whose word is the
      upper-cased argument; null exactly when `isValidWord` is false. */
  function GetWordDetails(db: Database, word: string): (r: Option<WordEntry>)
    ensures r.Some? <==> IsValidWord(db, word)
    ensures r.Some? ==> exists k :: FirstWith(AllEntries(db), ToUpper(word), k) && r.value == AllEntries(db)[k]
  {
    DetailsIn(db, ToUpper(word))
  }

  /** The index of the first level holding `upperWord`, or -1. */
  function LevelIndex(db: Database, upperWord: string): (i: int)
    ensures -1 <= i < |db|
    ensures i == -1 <==> upperWord !in Words(AllEntries(db))
    ensures i >= 0 ==> upperWord in Words(db[i].entries)
    ensures forall j :: 0 <= j < |db| && (i == -1 || j < i) ==> upperWord !in Words(db[j].entries)
  {
    if db == [] then -1
    else
      WordsAppend(db[0].entries, AllEntries(db[1..]));
      if LevelHas(db[0].entries, upperWord) then 0
      else
        var i := LevelIndex(db[1..], upperWord);
        assert forall j :: 1 <= j < |db| ==> db[j] == db[1..][j - 1];
        if i == -1 then -1 else i + 1
  }

  /** `getWordDifficulty`: the name of the first level holding the upper-cased
      word; null exactly when `isValidWord` is false. */
  function GetWordDifficulty(db: Database, word: string): (r: Option<string>)
    ensures r.Some? <==> IsValidWord(db, word)
    ensures r.Some? ==> exists i :: 0 <= i < |db| && db[i].name == r.value && ToUpper(word) in Words(db[i].entries)
                                    && forall j :: 0 <= j < i ==> ToUpper(word) !in Words(db[j].entries)
  {
    var i := LevelIndex(db, ToUpper(word));
    if i == -1 then None else Some(db[i].name)
  }

  /** A word without lower-case letters that is the first of its four choices. */
  predicate WellFormedEntry(e: WordEntry) {
    NoLower(e.word) && |e.choices| == 4 && e.choices[0] == e.word
  }

  predicate AllWellFormedEntries(entries: seq<WordEntry>) {
    forall k :: 0 <= k < |entries| ==> WellFormedEntry(entries[k])
  }

  /** Entry-by-entry check of a literal part of the table from position `k` on. */
  predicate CheckFrom(entries: seq<WordEntry>, k: nat)
    decreases |entries| - k
  {
    k >= |entries| || (WellFormedEntry(entries[k]) && CheckFrom(entries, k + 1))
  }

  lemma {:induction false} AllWellFormed(entries: seq<WordEntry>, k: nat)
    requires CheckFrom(entries, k)
    ensures forall j :: k <= j < |entries| ==> WellFormedEntry(entries[j])
    decreases |entries| - k
  {
    if k < |entries| {
      AllWellFormed(entries, k + 1);
    }
  }

  lemma WellFormedAppend(a: seq<WordEntry>, b: seq<WordEntry>)
    requires AllWellFormedEntries(a) && AllWellFormedEntries(b)
    ensures AllWellFormedEntries(a + b)
  {
    forall k | |a| <= k < |a + b|
      ensures WellFormedEntry((a + b)[k])
    {
      assert (a + b)[k] == b[k - |a|];
    }
  }

  lemma EasyAWellFormed() ensures AllWellFormedEntries(EasyWordsA) {
    AllWellFormed(EasyWordsA, 0);
  }

  lemma EasyBWellFormed() ensures AllWellFormedEntries(EasyWordsB) {
    AllWellFormed(EasyWordsB, 0);
  }

  lemma MediumAWellFormed() ensures AllWellFormedEntries(MediumWordsA) {
    AllWellFormed(MediumWordsA, 0);
  }

  lemma MediumBWellFormed() ensures AllWellFormedEntries(MediumWordsB) {
    AllWellFormed(MediumWordsB, 0);
  }

  lemma HardAWellFormed() ensures AllWellFormedEntries(HardWordsA) {
    AllWellFormed(HardWordsA, 0);
  }

  lemma HardBWellFormed() ensures AllWellFormedEntries(HardWordsB) {
    AllWellFormed(HardWordsB, 0);
  }

  lemma HardCWellFormed() ensures AllWellFormedEntries(HardWordsC) {
    AllWellFormed(HardWordsC, 0);
  }

  lemma HardDWellFormed() ensures AllWellFormedEntries(HardWordsD) {
    AllWellFormed(HardWordsD, 0);
  }

  lemma ExpertAWellFormed() ensures AllWellFormedEntries(ExpertWordsA) {
    AllWellFormed(ExpertWordsA, 0);
  }

  lemma ExpertBWellFormed() ensures AllWellFormedEntries(ExpertWordsB) {
    AllWellFormed(ExpertWordsB, 0);
  }

  /** Every word of the easy level is upper-case and the first of its own choices. */
  lemma EasyWellFormed() ensures AllWellFormedEntries(EasyWords) {
    EasyAWellFormed();
    EasyBWellFormed();
    WellFormedAppend(EasyWordsA, EasyWordsB);
  }

  /** Every word of the medium level is upper-case and the first of its own choices. */
  lemma MediumWellFormed() ensures AllWellFormedEntries(MediumWords) {
    MediumAWellFormed();
    MediumBWellFormed();
    WellFormedAppend(MediumWordsA, MediumWordsB);
  }

  /** Every word of the hard level is upper-case and the first of its own choices. */
  lemma HardWellFormed() ensures AllWellFormedEntries(HardWords) {
    HardAWellFormed();
    HardBWellFormed();
    HardCWellFormed();
    HardDWellFormed();
    WellFormedAppend(HardWordsA, HardWordsB);
    WellFormedAppend(HardWordsA + HardWordsB, HardWordsC);
    WellFormedAppend(HardWordsA + HardWordsB + HardWordsC, HardWordsD);
  }

  /** Every word of the expert level is upper-case and the first of its own choices. */
  lemma ExpertWellFormed() ensures AllWellFormedEntries(ExpertWords) {
    ExpertAWellFormed();
    ExpertBWellFormed();
    WellFormedAppend(ExpertWordsA, ExpertWordsB);
  }
}
