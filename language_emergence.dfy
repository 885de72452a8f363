// Proto-language: the child's sound inventory, what each sound it made was
// followed by, the words it heard from its father and the contexts they came
// in, and the language stage these statistics unlock.
module LanguageEmergence {
  import opened Common
  import PrimitiveCore

  type SurvivalState = PrimitiveCore.SurvivalState

  const PreLinguistic := 0
  const Babbling := 1
  const ProtoWords := 2
  const SingleWords := 3

  const InitialSounds: seq<string> := ["ah", "eh", "uh", "mm", "wah", "ooh"]

  /** How many communication attempts are kept. */
  const MaxAttempts := 100

  datatype SoundMeaning = SoundMeaning(sound: string, outcomes: map<string, real>, timesUsed: int)

  datatype HeardPattern = HeardPattern(
    sound: string, timesHeard: int, lastHeard: int, contextualOutcomes: map<string, real>)

  datatype SoundProduction = SoundProduction(sound: Option<string>, intentional: bool, intendedMeaning: Option<string>)

  datatype CommunicationAttempt = CommunicationAttempt(sound: string, timestamp: int, stateBefore: SurvivalState)

  // ------------------------------------------------------------ best score

  /** `k` has the highest score in `m`, and that score is positive. */
  predicate IsBest(m: map<string, real>, k: string)
  {
    k in m && m[k] > 0.0 && forall j :: j in m ==> m[j] <= m[k]
  }

  // ------------------------------------------------------------ inventory

  function AddIfNew(inv: seq<string>, sound: string): (r: seq<string>)
  {
    if sound in inv then inv else inv + [sound]
  }

  /** Adding a sound only if it is new keeps the inventory free of duplicates and never loses a sound. */
  lemma AddIfNewKeeps(inv: seq<string>, sound: string)
    requires NoDuplicates(inv)
    ensures var r := AddIfNew(inv, sound);
            && NoDuplicates(r) && sound in r && (forall s :: s in inv ==> s in r)
            && |r| == |inv| + (if sound in inv then 0 else 1)
  {
  }

  // ------------------------------------------------------ outcome learning

  /** The meaning record after `learnFromSoundOutcome(sound, outcome, magnitude)`. */
  function Learned(ms: map<string, SoundMeaning>, sound: string, outcome: string, magnitude: real): map<string, SoundMeaning>
  {
    var m := if sound in ms then ms[sound] else SoundMeaning(sound, map[], 0);
    ms[sound := m.(timesUsed := m.timesUsed + 1,
                   outcomes := m.outcomes[outcome := LookupOr(m.outcomes, outcome, 0.0) + magnitude])]
  }

  /**
   * Learning counts one more use of the sound and adds the magnitude to that
   * outcome's score, creating the record and the score when needed; other
   * sounds and other outcomes keep their records.
   */
  lemma LearnedMeaning(ms: map<string, SoundMeaning>, sound: string, outcome: string, magnitude: real)
    ensures var r := Learned(ms, sound, outcome, magnitude);
            && r.Keys == ms.Keys + {sound} && r[sound].sound == (if sound in ms then ms[sound].sound else sound)
            && r[sound].timesUsed == (if sound in ms then ms[sound].timesUsed else 0) + 1
            && outcome in r[sound].outcomes
            && r[sound].outcomes[outcome] == (if sound in ms then LookupOr(ms[sound].outcomes, outcome, 0.0) else 0.0) + magnitude
            && (forall o :: sound in ms && o in ms[sound].outcomes && o != outcome ==>
                  o in r[sound].outcomes && r[sound].outcomes[o] == ms[sound].outcomes[o])
            && (forall s :: s in ms && s != sound ==> r[s] == ms[s])
  {
  }

  /** A sound is meaningful once it was used 3 times and something followed it. */
  predicate Meaningful(m: SoundMeaning)
  {
    m.timesUsed >= 3 && |m.outcomes| > 0
  }

  function MeaningfulCount(ms: map<string, SoundMeaning>, keys: set<string>): nat
  {
    |set k | k in keys && k in ms && Meaningful(ms[k])|
  }

  lemma MeaningfulCountStep(ms: map<string, SoundMeaning>, keys: set<string>, k: string)
    requires k !in keys
    ensures MeaningfulCount(ms, keys + {k}) == MeaningfulCount(ms, keys) + (if k in ms && Meaningful(ms[k]) then 1 else 0)
  {
    var before := set j | j in keys && j in ms && Meaningful(ms[j]);
    var after := set j | j in keys + {k} && j in ms && Meaningful(ms[j]);
    if k in ms && Meaningful(ms[k]) {
      assert after == before + {k};
    } else {
      assert after == before;
    }
  }

  // ---------------------------------------------------------------- stages

  /** The stage `checkStageProgression` moves to. */
  function NextStage(stage: int, meaningful: nat, inventorySize: nat): int
  {
    if meaningful >= 10 && stage < SingleWords then SingleWords
    else if meaningful >= 5 && stage < ProtoWords then ProtoWords
    else if inventorySize >= 15 && stage < Babbling then Babbling
    else stage
  }

  /** The stage the statistics alone justify. */
  function Earned(meaningful: nat, inventorySize: nat): int
  {
    if meaningful >= 10 then SingleWords
    else if meaningful >= 5 then ProtoWords
    else if inventorySize >= 15 then Babbling
    else PreLinguistic
  }

  /**
   * The progression is the larger of the current stage and the earned one:
   * it never lowers the stage, and by this path never goes past single words.
   */
  lemma NextStageIsMax(stage: int, meaningful: nat, inventorySize: nat)
    requires PreLinguistic <= stage
    ensures NextStage(stage, meaningful, inventorySize) == IMax(stage, Earned(meaningful, inventorySize))
    ensures stage <= NextStage(stage, meaningful, inventorySize)
    ensures stage <= SingleWords ==> NextStage(stage, meaningful, inventorySize) <= SingleWords
  {
  }

  // ---------------------------------------------------------------- speech

  predicate Follows(st: SurvivalState, context: string)
  {
    || (context == "energy" && st.energy > 80.0)
    || (context == "comfort" && st.comfort > 70.0)
    || (context == "danger" && st.fear > 50.0)
  }

  /** `recordSoundContext`: one more point for each context the state shows. */
  function WithContext(p: HeardPattern, st: SurvivalState): HeardPattern
  {
    var c0 := p.contextualOutcomes;
    var c1 := if st.energy > 80.0 then c0["energy" := LookupOr(c0, "energy", 0.0) + 1.0] else c0;
    var c2 := if st.comfort > 70.0 then c1["comfort" := LookupOr(c1, "comfort", 0.0) + 1.0] else c1;
    var c3 := if st.fear > 50.0 then c2["danger" := LookupOr(c2, "danger", 0.0) + 1.0] else c2;
    p.(contextualOutcomes := c3)
  }

  /** Hearing one word of at least two letters. */
  function Hear(hp: map<string, HeardPattern>, w: string, st: SurvivalState, now: int): map<string, HeardPattern>
  {
    var p := if w in hp then hp[w] else HeardPattern(w, 0, 0, map[]);
    hp[w := WithContext(p.(timesHeard := p.timesHeard + 1, lastHeard := now), st)]
  }

  /** Hearing the words of an utterance in order, skipping those shorter than two letters. */
  function HearAll(hp: map<string, HeardPattern>, ws: seq<string>, st: SurvivalState, now: int): map<string, HeardPattern>
  {
    if ws == [] then hp
    else
      var prev := HearAll(hp, ws[..|ws| - 1], st, now);
      var w := ws[|ws| - 1];
      if |w| < 2 then prev else Hear(prev, w, st, now)
  }

  function Occurrences(ws: seq<string>, w: string): nat
  {
    if ws == [] then 0
    else Occurrences(ws[..|ws| - 1], w) + (if ws[|ws| - 1] == w then 1 else 0)
  }

  function TimesHeard(hp: map<string, HeardPattern>, w: string): int
  {
    if w in hp then hp[w].timesHeard else 0
  }

  function ContextScore(hp: map<string, HeardPattern>, w: string, context: string): real
  {
    if w in hp then LookupOr(hp[w].contextualOutcomes, context, 0.0) else 0.0
  }

  lemma WithContextScore(p: HeardPattern, st: SurvivalState, context: string)
    ensures LookupOr(WithContext(p, st).contextualOutcomes, context, 0.0)
         == LookupOr(p.contextualOutcomes, context, 0.0) + (if Follows(st, context) then 1.0 else 0.0)
  {
  }

  /**
   * Every hearing of a word counts once, and every hearing adds one point to
   * each context the state after it shows; words never heard (or too short)
   * keep their records.
   */
  lemma {:induction false} HearAllCounts(hp: map<string, HeardPattern>, ws: seq<string>, st: SurvivalState, now: int, w: string)
    ensures var r := HearAll(hp, ws, st, now);
            && (|w| < 2 || Occurrences(ws, w) == 0 ==> (w in r <==> w in hp) && (w in hp ==> r[w] == hp[w]))
            && (|w| >= 2 && Occurrences(ws, w) > 0 ==> w in r && r[w].lastHeard == now)
            && (|w| >= 2 ==> TimesHeard(r, w) == TimesHeard(hp, w) + Occurrences(ws, w))
  {
    if ws != [] {
      var init := ws[..|ws| - 1];
      HearAllCounts(hp, init, st, now, w);
    }
  }

  lemma {:induction false} HearAllContext(hp: map<string, HeardPattern>, ws: seq<string>, st: SurvivalState, now: int,
                                          w: string, context: string)
    requires |w| >= 2
    ensures ContextScore(HearAll(hp, ws, st, now), w, context)
         == ContextScore(hp, w, context) + (if Follows(st, context) then Occurrences(ws, w) as real else 0.0)
  {
    if ws != [] {
      var init := ws[..|ws| - 1];
      var x := ws[|ws| - 1];
      HearAllContext(hp, init, st, now, w, context);
      if |x| >= 2 {
        HearContext(HearAll(hp, init, st, now), x, st, now, w, context);
      }
    }
  }

  /** One hearing of `x` adds a point to `w`'s context exactly when `x` is `w` and the state shows it. */
  lemma HearContext(hp: map<string, HeardPattern>, x: string, st: SurvivalState, now: int, w: string, context: string)
    ensures ContextScore(Hear(hp, x, st, now), w, context)
         == ContextScore(hp, w, context) + (if x == w && Follows(st, context) then 1.0 else 0.0)
  {
    if x == w {
      var p := if w in hp then hp[w] else HeardPattern(w, 0, 0, map[]);
      WithContextScore(p.(timesHeard := p.timesHeard + 1, lastHeard := now), st, context);
    }
  }

  /** Each pattern stays filed under its own sound and counts at least one hearing. */
  predicate HeardInv(hp: map<string, HeardPattern>)
  {
    forall k :: k in hp ==> hp[k].sound == k && hp[k].timesHeard >= 1
  }

  lemma {:induction false} HearAllKeeps(hp: map<string, HeardPattern>, ws: seq<string>, st: SurvivalState, now: int)
    requires HeardInv(hp)
    ensures HeardInv(HearAll(hp, ws, st, now))
  {
    if ws != [] {
      HearAllKeeps(hp, ws[..|ws| - 1], st, now);
    }
  }

  // ----------------------------------------------------------- selection

  /** The score of each sound that was ever followed by `outcome`. */
  function Scores(ms: map<string, SoundMeaning>, outcome: string): map<string, real>
  {
    map s | s in ms && outcome in ms[s].outcomes :: ms[s].outcomes[outcome]
  }

  /** The outcome `selectMeaningfulSound` pursues, by priority of need. */
  function Desired(st: SurvivalState): Option<string>
  {
    if st.hunger > 70.0 then Some("energy_gained")
    else if st.loneliness > 60.0 then Some("attention_gained")
    else if st.fear > 50.0 then Some("comfort_gained")
    else None
  }

  /**
   * What `selectMeaningfulSound` may produce: the best sound for the needed
   * outcome, intentionally, or the sound at the random index `pick` when no
   * sound is known to bring it about.
   */
  predicate MeaningfulChoice(ms: map<string, SoundMeaning>, st: SurvivalState, inv: seq<string>, pick: nat, p: SoundProduction)
    requires pick < |inv|
  {
    match Desired(st)
    case Some(o) =>
      if exists s :: s in Scores(ms, o) && Scores(ms, o)[s] > 0.0 then
        p.sound.Some? && IsBest(Scores(ms, o), p.sound.value) && p.intentional && p.intendedMeaning == Some(o)
      else p == SoundProduction(Some(inv[pick]), false, None)
    case None => p == SoundProduction(Some(inv[pick]), false, None)
  }

  // ------------------------------------------------------------- status counts

  /** `getMeaningfulSoundCount`'s test: something followed the sound, however often it was used. */
  predicate HasOutcomes(m: SoundMeaning)
  {
    |m.outcomes| > 0
  }

  function OutcomeCount(ms: map<string, SoundMeaning>, keys: set<string>): nat
  {
    |set k | k in keys && k in ms && HasOutcomes(ms[k])|
  }

  lemma OutcomeCountStep(ms: map<string, SoundMeaning>, keys: set<string>, k: string)
    requires k !in keys
    ensures OutcomeCount(ms, keys + {k}) == OutcomeCount(ms, keys) + (if k in ms && HasOutcomes(ms[k]) then 1 else 0)
  {
    var before := set j | j in keys && j in ms && HasOutcomes(ms[j]);
    var after := set j | j in keys + {k} && j in ms && HasOutcomes(ms[j]);
    if k in ms && HasOutcomes(ms[k]) {
      assert after == before + {k};
    } else {
      assert after == before;
    }
  }

  /**
   * The status count of sounds with outcomes is at least the count
   * `checkStageProgression` uses, which also asks for three uses, and at
   * most the number of sounds; a sound followed by something but used
   * fewer than three times is counted by the first and not the second.
   */
  lemma OutcomeCountBounds(ms: map<string, SoundMeaning>)
    ensures MeaningfulCount(ms, ms.Keys) <= OutcomeCount(ms, ms.Keys) <= |ms|
    ensures forall k :: k in ms && HasOutcomes(ms[k]) && ms[k].timesUsed < 3 ==>
              MeaningfulCount(ms, ms.Keys) < OutcomeCount(ms, ms.Keys)
  {
    var meaningful := set k | k in ms.Keys && k in ms && Meaningful(ms[k]);
    var followed := set k | k in ms.Keys && k in ms && HasOutcomes(ms[k]);
    SubsetCard(meaningful, followed);
    SubsetCard(followed, ms.Keys);
    forall k | k in ms && HasOutcomes(ms[k]) && ms[k].timesUsed < 3
      ensures MeaningfulCount(ms, ms.Keys) < OutcomeCount(ms, ms.Keys)
    {
      assert meaningful <= followed - {k};
      SubsetCard(meaningful, followed - {k});
    }
  }

  /** `getUnderstoodPatternCount`'s test: heard at least three times. */
  predicate Understood(p: HeardPattern)
  {
    p.timesHeard >= 3
  }

  function UnderstoodCount(hp: map<string, HeardPattern>, keys: set<string>): nat
  {
    |set k | k in keys && k in hp && Understood(hp[k])|
  }

  lemma UnderstoodCountStep(hp: map<string, HeardPattern>, keys: set<string>, k: string)
    requires k !in keys
    ensures UnderstoodCount(hp, keys + {k}) == UnderstoodCount(hp, keys) + (if k in hp && Understood(hp[k]) then 1 else 0)
  {
    var before := set j | j in keys && j in hp && Understood(hp[j]);
    var after := set j | j in keys + {k} && j in hp && Understood(hp[j]);
    if k in hp && Understood(hp[k]) {
      assert after == before + {k};
    } else {
      assert after == before;
    }
  }

  /** The understood patterns are at most the heard ones, and all of them exactly when every one was heard three times. */
  lemma UnderstoodCountBounds(hp: map<string, HeardPattern>)
    ensures UnderstoodCount(hp, hp.Keys) <= |hp|
    ensures UnderstoodCount(hp, hp.Keys) == |hp| <==> forall k :: k in hp ==> Understood(hp[k])
  {
    var understood := set k | k in hp.Keys && k in hp && Understood(hp[k]);
    SubsetCard(understood, hp.Keys);
    if exists k :: k in hp && !Understood(hp[k]) {
      var k :| k in hp && !Understood(hp[k]);
      assert understood <= hp.Keys - {k};
      SubsetCard(understood, hp.Keys - {k});
    } else {
      assert understood == hp.Keys;
    }
  }

  /** `getStageNameString`'s table, one name per stage. */
  const StageNames: seq<string> :=
    ["Pre-linguistic", "Babbling", "Proto-words", "Single words", "Combining", "Sentences"]

  /** Every stage the child can reach has a name, and no two stages share one. */
  lemma StageNamesDistinct()
    ensures SingleWords < |StageNames|
    ensures forall i, j :: 0 <= i < j < |StageNames| ==> StageNames[i] != StageNames[j]
  {
    forall i, j | 0 <= i < j < |StageNames|
      ensures StageNames[i] != StageNames[j]
    {
      assert |StageNames[i]| != |StageNames[j]| || StageNames[i][0] != StageNames[j][0];
    }
  }

  // ------------------------------------------------------------------ class

  class AIChildLanguageEmergence {
    var stage: int
    var inventory: seq<string>
    var meanings: map<string, SoundMeaning>
    var heard: map<string, HeardPattern>
    var attempts: seq<CommunicationAttempt>

    /**
     * The stage never passes single words, the inventory keeps its six
     * primitive sounds and never repeats one, at most 100 attempts are kept,
     * and every record is filed under its own sound.
     */
    predicate Valid()
      reads this
    {
      && PreLinguistic <= stage <= SingleWords
      && NoDuplicates(inventory) && |inventory| >= |InitialSounds|
      && |attempts| <= MaxAttempts
      && (forall k :: k in meanings ==> meanings[k].sound == k && meanings[k].timesUsed >= 1)
      && HeardInv(heard)
    }

    constructor ()
      ensures Valid() && stage == PreLinguistic && inventory == InitialSounds
      ensures meanings == map[] && heard == map[] && attempts == []
    {
      stage := PreLinguistic;
      inventory := InitialSounds;
      meanings, heard, attempts := map[], map[], [];
    }

    /** `produceSound`; `r1` and `r2` are the indices the random generator draws. */
    method ProduceSound(st: SurvivalState, r1: nat, r2: nat, now: int) returns (p: SoundProduction)
      requires Valid() && r1 < |inventory| && r2 < |inventory|
      modifies this
      ensures Valid() && p.sound.Some?
      ensures old(stage) == PreLinguistic ==> p == SoundProduction(Some(old(inventory)[r1]), false, None)
      ensures old(stage) == Babbling ==>
                var s := old(inventory)[r1] + old(inventory)[r2];
                p == SoundProduction(Some(s), false, None) && inventory == AddIfNew(old(inventory), s)
      ensures old(stage) >= ProtoWords ==> r1 < |inventory| && MeaningfulChoice(meanings, st, inventory, r1, p)
      ensures old(stage) != Babbling ==> inventory == old(inventory)
      ensures attempts == Keep(old(attempts) + [CommunicationAttempt(p.sound.value, now, st)], MaxAttempts)
      ensures stage == old(stage) && meanings == old(meanings) && heard == old(heard)
    {
      if stage == PreLinguistic {
        p := SoundProduction(Some(inventory[r1]), false, None);
      } else if stage == Babbling {
        var s := inventory[r1] + inventory[r2];
        p := SoundProduction(Some(s), false, None);
        AddToInventoryIfNew(s);
      } else {
        p := SelectMeaningfulSound(st, r1);
      }
      RecordAttempt(p.sound.value, st, now);
    }

    method AddToInventoryIfNew(sound: string)
      requires Valid()
      modifies this
      ensures Valid() && inventory == AddIfNew(old(inventory), sound)
      ensures stage == old(stage) && meanings == old(meanings) && heard == old(heard) && attempts == old(attempts)
    {
      AddIfNewKeeps(inventory, sound);
      if sound !in inventory {
        inventory := inventory + [sound];
      }
    }

    method SelectMeaningfulSound(st: SurvivalState, pick: nat) returns (p: SoundProduction)
      requires pick < |inventory|
      ensures MeaningfulChoice(meanings, st, inventory, pick, p) && p.sound.Some?
    {
      p := SoundProduction(None, false, None);
      var desired := Desired(st);
      if desired.Some? {
        p := FindSoundForOutcome(desired.value);
      }
      if p.sound.None? {
        p := SoundProduction(Some(inventory[pick]), false, None);
      }
    }

    /** `findSoundForOutcome`: the best-scoring sound for the outcome, if any scored above 0. */
    method FindSoundForOutcome(outcome: string) returns (p: SoundProduction)
      ensures p.sound.None? <==> forall s :: s in Scores(meanings, outcome) ==> Scores(meanings, outcome)[s] <= 0.0
      ensures p.sound.Some? ==> IsBest(Scores(meanings, outcome), p.sound.value)
      ensures p.intentional == p.sound.Some?
      ensures p.intendedMeaning == if p.sound.Some? then Some(outcome) else None
    {
      var best := BestPositive(Scores(meanings, outcome));
      if best.Some? {
        p := SoundProduction(best, true, Some(outcome));
      } else {
        p := SoundProduction(None, false, None);
      }
    }

    /** `recordAttempt`: append, then drop the oldest attempts beyond 100. */
    method RecordAttempt(sound: string, st: SurvivalState, now: int)
      modifies this
      ensures attempts == Keep(old(attempts) + [CommunicationAttempt(sound, now, st)], MaxAttempts)
      ensures |old(attempts)| <= MaxAttempts ==> |attempts| <= MaxAttempts
      ensures stage == old(stage) && inventory == old(inventory) && meanings == old(meanings) && heard == old(heard)
    {
      var all := attempts + [CommunicationAttempt(sound, now, st)];
      var h := all;
      while |h| > MaxAttempts
        invariant |h| <= |all| && h == all[|all| - |h|..]
        invariant |all| > MaxAttempts ==> |h| >= MaxAttempts
        invariant |all| <= MaxAttempts ==> h == all
      {
        h := h[1..];
      }
      attempts := h;
    }

    method LearnFromSoundOutcome(sound: string, outcome: string, magnitude: real)
      requires Valid()
      modifies this
      ensures Valid()
      ensures meanings == Learned(old(meanings), sound, outcome, magnitude)
      ensures stage == NextStage(old(stage), MeaningfulCount(meanings, meanings.Keys), |inventory|)
      ensures inventory == old(inventory) && heard == old(heard) && attempts == old(attempts)
    {
      LearnedMeaning(meanings, sound, outcome, magnitude);
      var m: SoundMeaning;
      if sound in meanings {
        m := meanings[sound];
      } else {
        m := SoundMeaning(sound, map[], 0);
      }
      m := m.(timesUsed := m.timesUsed + 1);
      m := m.(outcomes := m.outcomes[outcome := LookupOr(m.outcomes, outcome, 0.0) + magnitude]);
      meanings := meanings[sound := m];
      CheckStageProgression();
    }

    method CheckStageProgression()
      requires PreLinguistic <= stage <= SingleWords
      modifies this
      ensures stage == NextStage(old(stage), MeaningfulCount(meanings, meanings.Keys), |inventory|)
      ensures PreLinguistic <= stage <= SingleWords
      ensures inventory == old(inventory) && meanings == old(meanings) && heard == old(heard) && attempts == old(attempts)
    {
      var meaningful := CountMeaningful();
      NextStageIsMax(stage, meaningful, |inventory|);
      if meaningful >= 10 && stage < SingleWords {
        stage := SingleWords;
      } else if meaningful >= 5 && stage < ProtoWords {
        stage := ProtoWords;
      } else if |inventory| >= 15 && stage < Babbling {
        stage := Babbling;
      }
    }

    /** The meaningful-sound count of `checkStageProgression`, whatever the map's order. */
    method CountMeaningful() returns (n: nat)
      ensures n == MeaningfulCount(meanings, meanings.Keys)
    {
      var ms := meanings;
      var rest := ms.Keys;
      var done: set<string> := {};
      n := 0;
      while rest != {}
        invariant rest + done == ms.Keys && rest !! done
        invariant n == MeaningfulCount(ms, done)
        decreases |rest|
      {
        var k :| k in rest;
        MeaningfulCountStep(ms, done, k);
        if ms[k].timesUsed >= 3 && |ms[k].outcomes| > 0 {
          n := n + 1;
        }
        rest, done := rest - {k}, done + {k};
      }
    }

    /** `getStageNameString`: the name that tells the current stage apart from every other. */
    method StageNameString() returns (name: string)
      requires Valid()
      ensures 0 <= stage < |StageNames| && name == StageNames[stage]
      ensures forall i :: 0 <= i < |StageNames| && i != stage ==> StageNames[i] != name
    {
      StageNamesDistinct();
      name := StageNames[stage];
    }

    /** `getMeaningfulSoundCount`: the sounds something followed, whatever the map's order. */
    method MeaningfulSoundCount() returns (n: nat)
      ensures n == OutcomeCount(meanings, meanings.Keys)
    {
      var ms := meanings;
      var rest := ms.Keys;
      var done: set<string> := {};
      n := 0;
      while rest != {}
        invariant rest + done == ms.Keys && rest !! done
        invariant n == OutcomeCount(ms, done)
        decreases |rest|
      {
        var k :| k in rest;
        OutcomeCountStep(ms, done, k);
        if |ms[k].outcomes| > 0 {
          n := n + 1;
        }
        rest, done := rest - {k}, done + {k};
      }
    }

    /** `getUnderstoodPatternCount`: the heard patterns heard at least three times, whatever the map's order. */
    method UnderstoodPatternCount() returns (n: nat)
      ensures n == UnderstoodCount(heard, heard.Keys)
    {
      var hp := heard;
      var rest := hp.Keys;
      var done: set<string> := {};
      n := 0;
      while rest != {}
        invariant rest + done == hp.Keys && rest !! done
        invariant n == UnderstoodCount(hp, done)
        decreases |rest|
      {
        var k :| k in rest;
        UnderstoodCountStep(hp, done, k);
        if hp[k].timesHeard >= 3 {
          n := n + 1;
        }
        rest, done := rest - {k}, done + {k};
      }
    }

    /** `hearSpeech`: lower-case, split on whitespace, and hear each word of two letters or more. */
    method HearSpeech(speech: string, st: SurvivalState, now: int)
      requires Valid()
      modifies this
      ensures Valid()
      ensures heard == HearAll(old(heard), SplitWhitespace(Lower(speech)), st, now)
      ensures stage == old(stage) && inventory == old(inventory) && meanings == old(meanings) && attempts == old(attempts)
    {
      var words := SplitWhitespace(Lower(speech));
      HearAllKeeps(heard, words, st, now);
      heard := HearWords(heard, words, st, now);
    }

    /** The word loop of `hearSpeech`. */
    static method HearWords(hp: map<string, HeardPattern>, words: seq<string>, st: SurvivalState, now: int)
      returns (r: map<string, HeardPattern>)
      ensures r == HearAll(hp, words, st, now)
    {
      r := hp;
      var i := 0;
      while i < |words|
        invariant 0 <= i <= |words|
        invariant r == HearAll(hp, words[..i], st, now)
      {
        assert words[..i + 1][..i] == words[..i];
        if |words[i]| >= 2 {
          r := HearWord(r, words[i], st, now);
        }
        i := i + 1;
      }
      assert words[..i] == words;
    }

    /** One word of `hearSpeech`, with `recordSoundContext`. */
    static method HearWord(hp: map<string, HeardPattern>, w: string, st: SurvivalState, now: int)
      returns (r: map<string, HeardPattern>)
      ensures r == Hear(hp, w, st, now)
    {
      var p: HeardPattern;
      if w in hp {
        p := hp[w];
      } else {
        p := HeardPattern(w, 0, 0, map[]);
      }
      p := p.(timesHeard := p.timesHeard + 1, lastHeard := now);
      var c := p.contextualOutcomes;
      if st.energy > 80.0 {
        c := c["energy" := LookupOr(c, "energy", 0.0) + 1.0];
      }
      if st.comfort > 70.0 {
        c := c["comfort" := LookupOr(c, "comfort", 0.0) + 1.0];
      }
      if st.fear > 50.0 {
        c := c["danger" := LookupOr(c, "danger", 0.0) + 1.0];
      }
      r := hp[w := p.(contextualOutcomes := c)];
    }

    /**
     * `tryToUnderstand`: nothing for a sound heard fewer than three times;
     * otherwise the context that most often followed it, if any did.
     */
    method TryToUnderstand(sound: string) returns (meaning: Option<string>)
      ensures var k := Lower(sound);
              meaning.None? <==> (|| k !in heard || heard[k].timesHeard < 3
                                  || forall c :: c in heard[k].contextualOutcomes ==> heard[k].contextualOutcomes[c] <= 0.0)
      ensures meaning.Some? ==> IsBest(heard[Lower(sound)].contextualOutcomes, meaning.value)
    {
      var k := Lower(sound);
      if k !in heard || heard[k].timesHeard < 3 {
        return None;
      }
      meaning := BestPositive(heard[k].contextualOutcomes);
    }
  }

  /**
   * The scan of a score map with a strict `>` starting from 0: the key with
   * the highest positive score, whatever order the map is visited in, or
   * nothing when no score is positive.
   */
  method BestPositive(m: map<string, real>) returns (best: Option<string>)
    ensures best.None? <==> forall k :: k in m ==> m[k] <= 0.0
    ensures best.Some? ==> IsBest(m, best.value)
  {
    var rest := m.Keys;
    var done: set<string> := {};
    var bestScore := 0.0;
    best := None;
    while rest != {}
      invariant rest + done == m.Keys && rest !! done
      invariant bestScore >= 0.0 && forall k :: k in done ==> m[k] <= bestScore
      invariant best.None? ==> bestScore == 0.0
      invariant best.Some? ==> best.value in done && m[best.value] == bestScore > 0.0
      decreases |rest|
    {
      var k :| k in rest;
      if m[k] > bestScore {
        bestScore := m[k];
        best := Some(k);
      }
      rest, done := rest - {k}, done + {k};
    }
  }
}
