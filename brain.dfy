// The child's brain: the vocabulary it learns from its father's speech and
// teaching, its mood and bond, the father's counters, and the two tiers of
// experience memory (a short-term list, newest first, whose evicted speech and
// teaching entries become medium-term patterns).
module Brain {
  import opened Common

  const Newborn := 0
  const Infant := 1
  const Toddler := 2
  const Child := 3

  /** Milliseconds in a day. */
  const DayMs := 86400000

  const MaxShortTerm := 100
  const MaxMediumTerm := 1000

  /** How many hearings make a word known. */
  const KnownAfter := 3

  const LoveWords: seq<string> := ["love", "papa", "father", "dad", "baby", "child"]

  datatype Word = Word(
    text: string, meaning: Option<string>, category: Option<string>,
    timesHeard: int, firstHeard: int, lastHeard: int, isTaught: bool)

  datatype Experience = Experience(kind: string, data: string, extra: Option<string>, timestamp: int)

  datatype MemoryPattern = MemoryPattern(kind: string, data: string, frequency: int)

  datatype BrainState = BrainState(
    happiness: int, energy: int, curiosity: int, bonding: int, learning: int, lastInteraction: int)

  datatype FatherKnowledge = FatherKnowledge(
    totalInteractions: int, kindnessShown: int, affectionShown: int, teachingsCount: int)

  /** `thought` is `Some("...?")` for blank speech; `None` stands for a generated thought. */
  datatype LearnResult = LearnResult(thought: Option<string>, learnedWords: seq<string>, isHappy: bool)

  datatype TouchResult = TouchResult(reaction: Option<string>)

  /** As in `LearnResult`, `thought` is `Some("...?")` for a blank word and `None` stands for a generated thought. */
  datatype TeachResult = TeachResult(success: bool, reaction: Option<string>, thought: Option<string>)

  datatype VocabStats = VocabStats(totalWords: nat, knownWords: nat, taughtWords: nat)

  datatype Memory = Memory(shortTerm: seq<Experience>, mediumTerm: seq<MemoryPattern>)

  // ------------------------------------------------------------------ stage

  /** `getStage`: whole days since birth (Java's truncating division) against 1, 7 and 30. */
  function Stage(now: int, birthTime: int): (s: int)
    ensures Newborn <= s <= Child
  {
    var days := JDiv(now - birthTime, DayMs);
    if days < 1 then Newborn
    else if days < 7 then Infant
    else if days < 30 then Toddler
    else Child
  }

  /** The stage boundaries in milliseconds of age; an age below one day, negative ones included, is a newborn. */
  lemma StageBoundaries(now: int, birthTime: int)
    ensures Stage(now, birthTime) == Newborn <==> now - birthTime < DayMs
    ensures Stage(now, birthTime) == Infant <==> DayMs <= now - birthTime < 7 * DayMs
    ensures Stage(now, birthTime) == Toddler <==> 7 * DayMs <= now - birthTime < 30 * DayMs
    ensures Stage(now, birthTime) == Child <==> 30 * DayMs <= now - birthTime
  {
    var age := now - birthTime;
    if age < 0 {
      assert JDiv(age, DayMs) <= 0;
    } else {
      var days := age / DayMs;
      assert age == days * DayMs + age % DayMs;
      assert days < 1 <==> age < DayMs;
      assert days < 7 <==> age < 7 * DayMs;
      assert days < 30 <==> age < 30 * DayMs;
    }
  }

  /** Growing older never lowers the stage. */
  lemma StageMonotone(now1: int, now2: int, birthTime: int)
    requires now1 <= now2
    ensures Stage(now1, birthTime) <= Stage(now2, birthTime)
  {
    StageBoundaries(now1, birthTime);
    StageBoundaries(now2, birthTime);
  }

  // ------------------------------------------------------------- vocabulary

  /**
   * The known-word list holds no word twice, and holds exactly the words of
   * the vocabulary heard at least three times.
   */
  predicate KnownInv(words: map<string, Word>, known: seq<string>)
  {
    && NoDuplicates(known)
    && (forall i :: 0 <= i < |known| ==> known[i] in words && words[known[i]].timesHeard >= KnownAfter)
    && (forall w :: w in words && words[w].timesHeard >= KnownAfter ==> w in known)
  }

  /** The vocabulary as `learnFromSpeech` goes over the words, with the words it learned so far. */
  datatype Hearing = Hearing(words: map<string, Word>, known: seq<string>, learned: seq<string>)

  /** One cleaned word of speech: a new word is recorded, a known one is reinforced. */
  function HearWord(h: Hearing, w: string, now: int): Hearing
  {
    if w !in h.words then
      h.(words := h.words[w := Word(w, None, None, 1, now, 0, false)])
    else
      var o := h.words[w];
      var n := o.(timesHeard := o.timesHeard + 1, lastHeard := now);
      if n.timesHeard >= KnownAfter && w !in h.known then
        Hearing(h.words[w := n], h.known + [w], h.learned + [w])
      else
        h.(words := h.words[w := n])
  }

  /** The raw tokens `learnFromSpeech` splits the lowercased text into. */
  function Tokens(text: string): seq<string>
  {
    SplitWhitespace(Lower(text))
  }

  /** The vocabulary after the tokens `ts` are heard in order; a token is cleaned to its letters and skipped below two. */
  function HearAll(h: Hearing, ts: seq<string>, now: int): Hearing
    decreases |ts|
  {
    if ts == [] then h
    else
      var p := HearAll(h, ts[..|ts| - 1], now);
      var w := LettersOnly(ts[|ts| - 1]);
      if |w| < 2 then p else HearWord(p, w, now)
  }

  /**
   * A word not yet in the vocabulary enters with one hearing and is not known;
   * a word already there gains a hearing and the time; no other entry changes.
   */
  lemma HearWordMeaning(h: Hearing, w: string, now: int)
    requires KnownInv(h.words, h.known)
    ensures var r := HearWord(h, w, now);
      && r.words.Keys == h.words.Keys + {w}
      && (forall k :: k in h.words && k != w ==> r.words[k] == h.words[k])
      && (w !in h.words ==> r.words[w].timesHeard == 1 && r.words[w].firstHeard == now && w !in r.known)
      && (w in h.words ==> r.words[w].timesHeard == h.words[w].timesHeard + 1 && r.words[w].lastHeard == now)
      && (w in r.learned[|h.learned|..] <==> w in h.words && w !in h.known && h.words[w].timesHeard + 1 >= KnownAfter)
  {
    var r := HearWord(h, w, now);
    if w in h.words && w !in h.known && h.words[w].timesHeard + 1 >= KnownAfter {
      assert r.learned[|h.learned|..] == [w];
    } else {
      assert r.learned[|h.learned|..] == [];
    }
  }

  /** One word of speech keeps the known list exact and appends to it only what it learns. */
  lemma HearWordKeeps(h: Hearing, w: string, now: int)
    requires KnownInv(h.words, h.known)
    ensures var r := HearWord(h, w, now);
      && KnownInv(r.words, r.known)
      && ((r.known == h.known && r.learned == h.learned) || (r.known == h.known + [w] && r.learned == h.learned + [w]))
  {
    var r := HearWord(h, w, now);
    if w in h.words {
      var n := r.words[w];
      if n.timesHeard >= KnownAfter && w !in h.known {
        assert r.known == h.known + [w];
        forall i | 0 <= i < |r.known|
          ensures r.known[i] in r.words && r.words[r.known[i]].timesHeard >= KnownAfter
        {
          if i < |h.known| {
            assert r.known[i] == h.known[i];
          }
        }
      } else {
        assert r.known == h.known;
        forall i | 0 <= i < |r.known|
          ensures r.known[i] in r.words && r.words[r.known[i]].timesHeard >= KnownAfter
        {
          assert h.known[i] in h.words;
        }
      }
    } else {
      forall i | 0 <= i < |r.known|
        ensures r.known[i] in r.words && r.words[r.known[i]].timesHeard >= KnownAfter
      {
        assert h.known[i] != w;
      }
    }
  }

  /**
   * Hearing a whole utterance keeps the known list exact, and the known list
   * grows by exactly the words learned in it, in the order they were learned.
   */
  lemma {:induction false} HearAllKeeps(h: Hearing, ts: seq<string>, now: int)
    requires KnownInv(h.words, h.known)
    ensures var r := HearAll(h, ts, now);
      && KnownInv(r.words, r.known)
      && |h.learned| <= |r.learned| && r.learned[..|h.learned|] == h.learned
      && r.known == h.known + r.learned[|h.learned|..]
      && h.words.Keys <= r.words.Keys
    decreases |ts|
  {
    if ts != [] {
      var p := HearAll(h, ts[..|ts| - 1], now);
      HearAllKeeps(h, ts[..|ts| - 1], now);
      var w := LettersOnly(ts[|ts| - 1]);
      if |w| >= 2 {
        HearWordKeeps(p, w, now);
        HearWordMeaning(p, w, now);
        var r := HearWord(p, w, now);
        if r.learned != p.learned {
          assert r.learned[|h.learned|..] == p.learned[|h.learned|..] + [w];
        }
      }
    }
  }

  /** Every entry that speech adds to the vocabulary is a word of at least two letters. */
  lemma {:induction false} HearAllNewWords(h: Hearing, ts: seq<string>, now: int)
    ensures var r := HearAll(h, ts, now);
      forall k :: k in r.words && k !in h.words ==> |k| >= 2 && forall i :: 0 <= i < |k| ==> IsAsciiLetter(k[i])
    decreases |ts|
  {
    if ts != [] {
      HearAllNewWords(h, ts[..|ts| - 1], now);
    }
  }

  /** Whether the lowercased text contains one of the love words. */
  predicate Loving(text: string)
  {
    exists i | 0 <= i < |LoveWords| :: Contains(Lower(text), LoveWords[i])
  }

  /** `String.trim().isEmpty()`. */
  predicate Blank(s: string)
  {
    Trim(s) == []
  }

  /** The bump love words give: once per utterance, whatever the number of love words. */
  function LoveBump(st: BrainState): (r: BrainState)
    ensures st.happiness <= 100 ==> st.happiness <= r.happiness <= 100
    ensures st.bonding <= 100 ==> st.bonding <= r.bonding <= 100
    ensures r.happiness == st.happiness + 10 || r.happiness == 100
    ensures r.bonding == st.bonding + 5 || r.bonding == 100
    ensures r.energy == st.energy && r.curiosity == st.curiosity && r.learning == st.learning
    ensures r.lastInteraction == st.lastInteraction
  {
    st.(happiness := IMin(100, st.happiness + 10), bonding := IMin(100, st.bonding + 5))
  }

  // ---------------------------------------------------------------- teaching

  /** The entry `teach` leaves for `w`: taught, known at once, with the given meaning. */
  function Taught(words: map<string, Word>, w: string, meaning: Option<string>, category: Option<string>, now: int)
    : (r: map<string, Word>)
    ensures r.Keys == words.Keys + {w}
    ensures r[w].timesHeard == KnownAfter && r[w].isTaught && r[w].meaning == meaning && r[w].category == category
    ensures r[w].lastHeard == now
    ensures r[w].firstHeard == (if w in words then words[w].firstHeard else now)
    ensures forall k :: k in words && k != w ==> r[k] == words[k]
  {
    var o := if w in words then words[w] else Word(w, None, None, 0, now, 0, false);
    words[w := o.(meaning := meaning, category := category, timesHeard := KnownAfter, isTaught := true, lastHeard := now)]
  }

  /** `if (!list.contains(w)) list.add(w)`. */
  function AddIfAbsent(xs: seq<string>, w: string): (r: seq<string>)
    ensures w in r && (forall x :: x in xs ==> x in r) && (forall x :: x in r ==> x in xs || x == w)
    ensures NoDuplicates(xs) ==> NoDuplicates(r)
  {
    if w in xs then xs else xs + [w]
  }

  /** Teaching keeps the known list exact. */
  lemma TaughtKeeps(words: map<string, Word>, known: seq<string>, w: string, meaning: Option<string>,
                    category: Option<string>, now: int)
    requires KnownInv(words, known)
    ensures KnownInv(Taught(words, w, meaning, category, now), AddIfAbsent(known, w))
  {
    var r := Taught(words, w, meaning, category, now);
    var k := AddIfAbsent(known, w);
    forall i | 0 <= i < |k|
      ensures k[i] in r && r[k[i]].timesHeard >= KnownAfter
    {
      if k[i] != w {
        assert k[i] in known;
      }
    }
  }

  /** Teaching lifts learning by ten and bonding by three, both capped at 100. */
  function TaughtState(st: BrainState): (r: BrainState)
    requires Bounded(st)
    ensures Bounded(r) && r.learning >= st.learning && r.bonding >= st.bonding
    ensures r.learning == st.learning + 10 || r.learning == 100
    ensures r.bonding == st.bonding + 3 || r.bonding == 100
    ensures r.happiness == st.happiness && r.energy == st.energy && r.curiosity == st.curiosity
    ensures r.lastInteraction == st.lastInteraction
  {
    st.(learning := IMin(100, st.learning + 10), bonding := IMin(100, st.bonding + 3))
  }

  // ---------------------------------------------------------------- touch

  /** Every mood value lies in 0..100. */
  predicate Bounded(st: BrainState)
  {
    && 0 <= st.happiness <= 100 && 0 <= st.energy <= 100 && 0 <= st.curiosity <= 100
    && 0 <= st.bonding <= 100 && 0 <= st.learning <= 100
  }

  /** The mood after a touch: tap, hold and stroke each raise their own values; every touch costs one energy. */
  function Touched(st: BrainState, touchType: string, now: int): (r: BrainState)
    requires Bounded(st)
    ensures Bounded(r) && r.lastInteraction == now && r.learning == st.learning
    ensures r.energy == IMax(0, st.energy - 1)
    ensures r.curiosity >= st.curiosity && r.bonding >= st.bonding && r.happiness >= st.happiness
    ensures touchType !in {"tap", "hold", "stroke"} ==>
              r.curiosity == st.curiosity && r.bonding == st.bonding && r.happiness == st.happiness
    ensures touchType == "tap" ==>
              r.curiosity == IMin(100, st.curiosity + 5) && r.bonding == st.bonding && r.happiness == st.happiness
    ensures touchType == "hold" ==>
              r.bonding == IMin(100, st.bonding + 3) && r.happiness == IMin(100, st.happiness + 5)
              && r.curiosity == st.curiosity
    ensures touchType == "stroke" ==>
              r.bonding == IMin(100, st.bonding + 5) && r.happiness == IMin(100, st.happiness + 8)
              && r.curiosity == st.curiosity
  {
    var s := st.(lastInteraction := now);
    var s := if touchType == "tap" then s.(curiosity := IMin(100, s.curiosity + 5))
             else if touchType == "hold" then s.(bonding := IMin(100, s.bonding + 3), happiness := IMin(100, s.happiness + 5))
             else if touchType == "stroke" then s.(bonding := IMin(100, s.bonding + 5), happiness := IMin(100, s.happiness + 8))
             else s;
    s.(energy := IMax(0, s.energy - 1))
  }

  function TouchReaction(touchType: string): Option<string>
  {
    if touchType == "tap" then Some("surprised")
    else if touchType == "hold" then Some("happy")
    else if touchType == "stroke" then Some("blush")
    else None
  }

  /** How much kindness a touch shows: one for a hold, two for a stroke. */
  function Kindness(touchType: string): nat
  {
    if touchType == "hold" then 1 else if touchType == "stroke" then 2 else 0
  }

  // ---------------------------------------------------------------- memory

  predicate Important(e: Experience)
  {
    e.kind == "speech" || e.kind == "teaching"
  }

  /** The medium-term pattern an evicted experience leaves, if it is important. */
  function PatternOf(e: Experience): seq<MemoryPattern>
  {
    if Important(e) then [MemoryPattern(e.kind, e.data, 0)] else []
  }

  /** The patterns left by evicting `xs`, last element first (the order `remove(size - 1)` takes them). */
  function Evictions(xs: seq<Experience>): seq<MemoryPattern>
  {
    if xs == [] then [] else Evictions(xs[1..]) + PatternOf(xs[0])
  }

  /**
   * `addExperience`: the entry goes first, the list is cut back to 100 from
   * its end, the important evicted entries are appended to medium-term
   * memory, and that is cut back to 1000 from its end.
   */
  function Remember(short: seq<Experience>, medium: seq<MemoryPattern>, e: Experience): (m: Memory)
    ensures |m.shortTerm| <= MaxShortTerm && |m.mediumTerm| <= MaxMediumTerm
    ensures |m.shortTerm| > 0 && m.shortTerm[0] == e
  {
    var full := [e] + short;
    var kept := IMin(|full|, MaxShortTerm);
    var grown := medium + Evictions(full[kept..]);
    Memory(full[..kept], grown[..IMin(|grown|, MaxMediumTerm)])
  }

  /**
   * From a state within the bounds, one experience evicts at most the oldest
   * short-term entry, and medium-term memory gains its pattern only while it
   * has room.
   */
  lemma RememberOne(short: seq<Experience>, medium: seq<MemoryPattern>, e: Experience)
    requires |short| <= MaxShortTerm && |medium| <= MaxMediumTerm
    ensures var m := Remember(short, medium, e);
      && m.shortTerm == [e] + short[..IMin(|short|, MaxShortTerm - 1)]
      && m.mediumTerm == (if |short| == MaxShortTerm && |medium| < MaxMediumTerm
                          then medium + PatternOf(short[MaxShortTerm - 1]) else medium)
  {
    var full := [e] + short;
    if |short| == MaxShortTerm {
      assert full[MaxShortTerm..] == [short[MaxShortTerm - 1]];
      assert Evictions(full[MaxShortTerm..]) == PatternOf(short[MaxShortTerm - 1]);
      assert full[..MaxShortTerm] == [e] + short[..MaxShortTerm - 1];
    } else {
      assert full[|full|..] == [];
      assert full[..|full|] == full;
    }
  }

  /**
   * Once medium-term memory is full it never changes again: the cut removes
   * from the end, so each newly moved pattern is the one dropped.
   */
  lemma MediumTermFreezes(short: seq<Experience>, medium: seq<MemoryPattern>, e: Experience)
    requires |short| <= MaxShortTerm && |medium| == MaxMediumTerm
    ensures Remember(short, medium, e).mediumTerm == medium
  {
    RememberOne(short, medium, e);
  }

  // ----------------------------------------------------------------- stats

  function TaughtCount(words: map<string, Word>, keys: set<string>): nat
  {
    |set k | k in keys && k in words && words[k].isTaught|
  }

  lemma TaughtCountStep(words: map<string, Word>, keys: set<string>, k: string)
    requires k !in keys
    ensures TaughtCount(words, keys + {k}) == TaughtCount(words, keys) + (if k in words && words[k].isTaught then 1 else 0)
  {
    var before := set j | j in keys && j in words && words[j].isTaught;
    var after := set j | j in keys + {k} && j in words && words[j].isTaught;
    if k in words && words[k].isTaught {
      assert after == before + {k};
    } else {
      assert after == before;
    }
  }

  lemma {:induction false} DistinctCard(xs: seq<string>)
    requires NoDuplicates(xs)
    ensures |set x | x in xs| == |xs|
    decreases |xs|
  {
    if xs != [] {
      var t := xs[..|xs| - 1];
      DistinctCard(t);
      assert (set x | x in xs) == (set x | x in t) + {xs[|xs| - 1]};
      assert xs[|xs| - 1] !in t;
    }
  }

  /** Known and taught words are each at most the whole vocabulary. */
  lemma StatsBounded(words: map<string, Word>, known: seq<string>)
    requires KnownInv(words, known)
    ensures |known| <= |words|
    ensures TaughtCount(words, words.Keys) <= |words|
  {
    DistinctCard(known);
    var ks := set x | x in known;
    assert ks <= words.Keys;
    SubsetCard(ks, words.Keys);
    var ts := set k | k in words.Keys && k in words && words[k].isTaught;
    SubsetCard(ts, words.Keys);
  }

  // ------------------------------------------------------------------ class

  class AIChildBrain {
    var state: BrainState
    var father: FatherKnowledge
    var affection: int
    var vocabulary: map<string, Word>
    var known: seq<string>
    var shortTerm: seq<Experience>
    var mediumTerm: seq<MemoryPattern>

    predicate Valid()
      reads this
    {
      && Bounded(state) && 0 <= affection <= 100
      && KnownInv(vocabulary, known)
      && |shortTerm| <= MaxShortTerm && |mediumTerm| <= MaxMediumTerm
    }

    constructor ()
      ensures Valid()
      ensures state == BrainState(50, 100, 50, 10, 0, 0) && father == FatherKnowledge(0, 0, 0, 0)
      ensures affection == 50 && vocabulary == map[] && known == [] && shortTerm == [] && mediumTerm == []
    {
      state := BrainState(50, 100, 50, 10, 0, 0);
      father := FatherKnowledge(0, 0, 0, 0);
      affection := 50;
      vocabulary := map[];
      known := [];
      shortTerm := [];
      mediumTerm := [];
    }

    /**
     * `learnFromSpeech`: blank text changes nothing; otherwise every word is
     * heard, love words bump the mood once, and the speech is remembered.
     */
    method LearnFromSpeech(text: string, now: int) returns (r: LearnResult)
      requires Valid()
      modifies this
      ensures Valid()
      ensures Blank(text) ==> r == LearnResult(Some("...?"), [], false)
      ensures Blank(text) ==> state == old(state) && father == old(father) && vocabulary == old(vocabulary)
                              && known == old(known) && shortTerm == old(shortTerm) && mediumTerm == old(mediumTerm)
      ensures !Blank(text) ==>
                var h := HearAll(Hearing(old(vocabulary), old(known), []), Tokens(text), now);
                && vocabulary == h.words && known == h.known && r.learnedWords == h.learned
                && known == old(known) + r.learnedWords
                && r.thought.None? && r.isHappy == Loving(text)
                && state == (if Loving(text) then LoveBump(old(state)) else old(state))
                && father == old(father).(affectionShown := old(father).affectionShown + (if Loving(text) then 1 else 0))
                && Memory(shortTerm, mediumTerm)
                   == Remember(old(shortTerm), old(mediumTerm),
                               Experience("speech", text, Some(NatToString(|Tokens(text)|)), now))
      ensures affection == old(affection)
    {
      if Trim(text) == [] {
        return LearnResult(Some("...?"), [], false);
      }
      var ts := Tokens(text);
      HearAllKeeps(Hearing(vocabulary, known, []), ts, now);
      var h := HearWords(Hearing(vocabulary, known, []), ts, now);
      vocabulary, known := h.words, h.known;
      var loving := HasLoveWord(text);
      if loving {
        state := LoveBump(state);
        father := father.(affectionShown := father.affectionShown + 1);
      }
      r := LearnResult(None, h.learned, loving);
      AddExperience("speech", text, Some(NatToString(|ts|)), now);
    }

    /** The word loop of `learnFromSpeech`. */
    static method HearWords(h0: Hearing, ts: seq<string>, now: int) returns (h: Hearing)
      ensures h == HearAll(h0, ts, now)
    {
      h := h0;
      var i := 0;
      while i < |ts|
        invariant 0 <= i <= |ts|
        invariant h == HearAll(h0, ts[..i], now)
      {
        assert ts[..i + 1][..i] == ts[..i];
        var w := LettersOnly(ts[i]);
        if |w| >= 2 {
          h := HearWord(h, w, now);
        }
        i := i + 1;
      }
      assert ts[..i] == ts;
    }

    /** The love-word scan, which stops at the first love word found. */
    static method HasLoveWord(text: string) returns (found: bool)
      ensures found == Loving(text)
    {
      var lowered := Lower(text);
      found := false;
      var i := 0;
      while i < |LoveWords| && !found
        invariant 0 <= i <= |LoveWords|
        invariant !found ==> forall j :: 0 <= j < i ==> !Contains(lowered, LoveWords[j])
        invariant found ==> exists j | 0 <= j < i :: Contains(lowered, LoveWords[j])
      {
        found := Contains(lowered, LoveWords[i]);
        i := i + 1;
      }
    }

    /** `learnFromTouch`: the touch's mood change and reaction, one interaction, and the touch remembered. */
    method LearnFromTouch(touchType: string, now: int) returns (r: TouchResult)
      requires Valid()
      modifies this
      ensures Valid()
      ensures r.reaction == TouchReaction(touchType)
      ensures state == Touched(old(state), touchType, now)
      ensures affection == (if touchType == "stroke" then IMin(100, old(affection) + 1) else old(affection))
      ensures father == old(father).(totalInteractions := old(father).totalInteractions + 1,
                                     kindnessShown := old(father).kindnessShown + Kindness(touchType))
      ensures vocabulary == old(vocabulary) && known == old(known)
      ensures Memory(shortTerm, mediumTerm) == Remember(old(shortTerm), old(mediumTerm), Experience("touch", touchType, None, now))
    {
      father := father.(totalInteractions := father.totalInteractions + 1, kindnessShown := father.kindnessShown + Kindness(touchType));
      if touchType == "stroke" {
        affection := IMin(100, affection + 1);
      }
      state := Touched(state, touchType, now);
      r := TouchResult(TouchReaction(touchType));
      AddExperience("touch", touchType, None, now);
    }

    /**
     * `teach`: a blank word fails with the thought "...?" and changes nothing; otherwise the
     * lowercased, trimmed word is taught, known, and remembered.
     */
    method Teach(word: string, meaning: Option<string>, category: Option<string>, now: int) returns (r: TeachResult)
      requires Valid()
      modifies this
      ensures Valid()
      ensures Blank(word) ==> r == TeachResult(false, None, Some("...?"))
      ensures Blank(word) ==> state == old(state) && father == old(father) && vocabulary == old(vocabulary)
                              && known == old(known) && shortTerm == old(shortTerm) && mediumTerm == old(mediumTerm)
      ensures !Blank(word) ==>
                var w := Trim(Lower(word));
                && r == TeachResult(true, Some("happy"), None)
                && vocabulary == Taught(old(vocabulary), w, meaning, category, now)
                && known == AddIfAbsent(old(known), w)
                && state == TaughtState(old(state))
                && father == old(father).(teachingsCount := old(father).teachingsCount + 1)
                && Memory(shortTerm, mediumTerm)
                   == Remember(old(shortTerm), old(mediumTerm), Experience("teaching", w, meaning, now))
      ensures affection == old(affection)
    {
      if Trim(word) == [] {
        return TeachResult(false, None, Some("...?"));
      }
      var w := Trim(Lower(word));
      TaughtKeeps(vocabulary, known, w, meaning, category, now);
      var ws := Taught(vocabulary, w, meaning, category, now);
      var ks := AddIfAbsent(known, w);
      var st := TaughtState(state);
      vocabulary, known, state := ws, ks, st;
      father := father.(teachingsCount := father.teachingsCount + 1);
      r := TeachResult(true, Some("happy"), None);
      AddExperience("teaching", w, meaning, now);
    }

    /** `onWakeUp`: one energy, capped. */
    method OnWakeUp()
      requires Valid()
      modifies this
      ensures Valid()
      ensures state == old(state).(energy := IMin(100, old(state).energy + 1))
      ensures father == old(father) && affection == old(affection) && vocabulary == old(vocabulary)
      ensures known == old(known) && shortTerm == old(shortTerm) && mediumTerm == old(mediumTerm)
    {
      state := state.(energy := IMin(100, state.energy + 1));
    }

    /** `onSleep`: five energy, capped. */
    method OnSleep()
      requires Valid()
      modifies this
      ensures Valid()
      ensures state == old(state).(energy := IMin(100, old(state).energy + 5))
      ensures father == old(father) && affection == old(affection) && vocabulary == old(vocabulary)
      ensures known == old(known) && shortTerm == old(shortTerm) && mediumTerm == old(mediumTerm)
    {
      state := state.(energy := IMin(100, state.energy + 5));
    }

    /** `onFatherPresent`: ten happiness, capped, and one interaction. */
    method OnFatherPresent()
      requires Valid()
      modifies this
      ensures Valid()
      ensures state == old(state).(happiness := IMin(100, old(state).happiness + 10))
      ensures father == old(father).(totalInteractions := old(father).totalInteractions + 1)
      ensures affection == old(affection) && vocabulary == old(vocabulary)
      ensures known == old(known) && shortTerm == old(shortTerm) && mediumTerm == old(mediumTerm)
    {
      state := state.(happiness := IMin(100, state.happiness + 10));
      father := father.(totalInteractions := father.totalInteractions + 1);
    }

    /** `addExperience`. */
    method AddExperience(kind: string, data: string, extra: Option<string>, now: int)
      modifies this
      ensures Memory(shortTerm, mediumTerm) == Remember(old(shortTerm), old(mediumTerm), Experience(kind, data, extra, now))
      ensures state == old(state) && father == old(father) && affection == old(affection)
      ensures vocabulary == old(vocabulary) && known == old(known)
    {
      var m := Trimmed(shortTerm, mediumTerm, Experience(kind, data, extra, now));
      shortTerm, mediumTerm := m.shortTerm, m.mediumTerm;
    }

    /** The two while-trim loops of `addExperience`. */
    static method Trimmed(short: seq<Experience>, medium: seq<MemoryPattern>, e: Experience) returns (m: Memory)
      ensures m == Remember(short, medium, e)
    {
      var full := [e] + short;
      var s := full;
      var md := medium;
      while |s| > MaxShortTerm
        invariant MaxShortTerm <= |full| ==> MaxShortTerm <= |s|
        invariant |full| < MaxShortTerm ==> s == full
        invariant |s| <= |full| && s == full[..|s|]
        invariant md == medium + Evictions(full[|s|..])
        decreases |s|
      {
        var old_ := s[|s| - 1];
        assert full[|s| - 1..] == [old_] + full[|s|..];
        s := s[..|s| - 1];
        if old_.kind == "speech" || old_.kind == "teaching" {
          md := md + [MemoryPattern(old_.kind, old_.data, 0)];
        }
      }
      var grown := md;
      while |md| > MaxMediumTerm
        invariant MaxMediumTerm <= |grown| ==> MaxMediumTerm <= |md|
        invariant |grown| < MaxMediumTerm ==> md == grown
        invariant |md| <= |grown| && md == grown[..|md|]
        decreases |md|
      {
        md := md[..|md| - 1];
      }
      assert |s| == IMin(|full|, MaxShortTerm);
      assert |md| == IMin(|grown|, MaxMediumTerm);
      m := Memory(s, md);
    }

    /** `getVocabStats`: vocabulary size, known-list size and the taught entries, whatever the map's order. */
    method GetVocabStats() returns (v: VocabStats)
      ensures v.totalWords == |vocabulary| && v.knownWords == |known|
      ensures v.taughtWords == TaughtCount(vocabulary, vocabulary.Keys)
    {
      var ws := vocabulary;
      var rest := ws.Keys;
      var done: set<string> := {};
      var taught: nat := 0;
      while rest != {}
        invariant rest + done == ws.Keys && rest !! done
        invariant taught == TaughtCount(ws, done)
        decreases |rest|
      {
        var k :| k in rest;
        TaughtCountStep(ws, done, k);
        if ws[k].isTaught {
          taught := taught + 1;
        }
        rest, done := rest - {k}, done + {k};
      }
      v := VocabStats(|ws|, |known|, taught);
    }
  }
}
