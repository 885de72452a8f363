// Learning by doing: compare what was perceived before and after an
// experiment, remember each change as a cause and effect with a confidence
// that grows by a tenth per observation, and use that knowledge to choose an
// action for a wanted effect or to predict what an action does.
module SelfDiscovery {
  import opened Common
  import NeuralNetwork
  import Body

  /** The strength `learnFromExperiment` gives the brain's link between an action and a new effect. */
  const AssociationStrength := 0.3

  const MinCuriosity := 10.0
  const MaxCuriosity := 100.0

  /** What `captureWorldState` records of one moment. */
  datatype WorldState = WorldState(
    timestamp: int, visualBlobCount: nat, soundCount: nat,
    visibleTexts: seq<string>, heardTexts: seq<string>,
    batteryLevel: int, isCharging: bool, wifiLevel: int,
    energy: real, fatigue: real)

  datatype ExperimentType = Explore | Exploit

  datatype Experiment = Experiment(kind: ExperimentType, bodyPart: string, action: string, description: string, targetX: int, targetY: int)

  datatype CauseEffect = CauseEffect(bodyPart: string, action: string, effect: string, observations: int, confidence: real, discoveredAt: int)

  datatype LearningResult = LearningResult(
    timestamp: int, stateBefore: string, experiment: string, stateAfter: string,
    observedChanges: seq<string>, learned: bool)

  datatype DiscoveryStatus = DiscoveryStatus(totalExperiments: nat, successfulLearnings: nat, knownCauseEffects: nat, curiosity: real, learningRate: real)

  // ------------------------------------------------------------ perception

  /** The texts of the blobs that carry one, in order. */
  function TextsOf(blobs: seq<Body.VisualBlob>): (r: seq<string>)
    ensures |r| <= |blobs|
    ensures forall t :: t in r <==> exists b :: b in blobs && b.rawText == Some(t)
  {
    if blobs == [] then []
    else
      var last := blobs[|blobs| - 1];
      var prefix := TextsOf(blobs[..|blobs| - 1]);
      assert blobs == blobs[..|blobs| - 1] + [last];
      if last.rawText.Some? then prefix + [last.rawText.value] else prefix
  }

  /** `captureWorldState`, given what the eyes see, what the ears hear and what the body and its surroundings report. */
  function Perceived(now: int, vision: seq<Body.VisualBlob>, sounds: seq<Body.Sound>,
                     battery: int, charging: bool, wifi: int, energy: real, fatigue: real): (w: WorldState)
    ensures w.visualBlobCount == |vision| && w.soundCount == |sounds|
    ensures |w.visibleTexts| <= |vision| && |w.heardTexts| <= |sounds|
  {
    var heard := seq(|sounds|, k requires 0 <= k < |sounds| => sounds[k].rawContent);
    WorldState(now, |vision|, |sounds|, TextsOf(vision), Somes(heard), battery, charging, wifi, energy, fatigue)
  }

  /** The values present in `xs`, in order. */
  function Somes(xs: seq<Option<string>>): (r: seq<string>)
    ensures |r| <= |xs|
    ensures forall t :: t in r <==> Some(t) in xs
  {
    if xs == [] then []
    else
      var prefix := Somes(xs[..|xs| - 1]);
      assert xs == xs[..|xs| - 1] + [xs[|xs| - 1]];
      if xs[|xs| - 1].Some? then prefix + [xs[|xs| - 1].value] else prefix
  }

  /** Java's `(int)` cast of a float: truncation toward zero. */
  function Truncate(r: real): int
  {
    if r >= 0.0 then r.Floor else -((-r).Floor)
  }

  /** `describeState`. */
  function Describe(w: WorldState): string
  {
    "Visual: " + NatToString(w.visualBlobCount) + " blobs, Sounds: " + NatToString(w.soundCount)
    + ", Energy: " + IntToString(Truncate(w.energy))
  }

  // --------------------------------------------------------------- changes

  function RAbs(r: real): real { if r < 0.0 then -r else r }

  /** One `prefix + t` for each `t` of `xs` (in order, repeats included) that `other` does not hold. */
  function Missing(xs: seq<string>, other: seq<string>, prefix: string): seq<string>
  {
    if xs == [] then []
    else
      var last := xs[|xs| - 1];
      Missing(xs[..|xs| - 1], other, prefix) + (if last in other then [] else [prefix + last])
  }

  /**
   * The report carries `prefix + t` exactly for the texts `t` of `xs` that
   * `other` lacks; it is empty exactly when `other` holds every text of `xs`.
   */
  lemma {:induction false} MissingMeaning(xs: seq<string>, other: seq<string>, prefix: string)
    ensures forall c :: c in Missing(xs, other, prefix) ==> StartsWith(c, prefix) && c[|prefix|..] in xs && c[|prefix|..] !in other
    ensures forall t :: t in xs && t !in other ==> prefix + t in Missing(xs, other, prefix)
    ensures Missing(xs, other, prefix) == [] <==> forall t :: t in xs ==> t in other
  {
    if xs != [] {
      var init, last := xs[..|xs| - 1], xs[|xs| - 1];
      assert xs == init + [last];
      MissingMeaning(init, other, prefix);
      var r := Missing(xs, other, prefix);
      forall c | c in r
        ensures StartsWith(c, prefix) && c[|prefix|..] in xs && c[|prefix|..] !in other
      {
        if c !in Missing(init, other, prefix) {
          assert c == prefix + last;
          assert c[|prefix|..] == last;
        }
      }
    }
  }

  /** The report of a count that moved, by how much. */
  function CountReport(title: string, before: nat, after: nat): seq<string>
  {
    if before != after then [title + IntToString(after - before)] else []
  }

  /** The report of an energy change of more than 1. */
  function EnergyReport(before: real, after: real, floatText: real -> string): seq<string>
  {
    if RAbs(before - after) > 1.0 then ["energy_changed:" + floatText(after - before)] else []
  }

  /** `findChanges`; `floatText` is Java's rendering of a float. */
  function Changes(before: WorldState, after: WorldState, floatText: real -> string): seq<string>
  {
    CountReport("visual_count_changed:", before.visualBlobCount, after.visualBlobCount)
    + CountReport("sound_count_changed:", before.soundCount, after.soundCount)
    + Missing(after.visibleTexts, before.visibleTexts, "new_text_appeared:")
    + Missing(before.visibleTexts, after.visibleTexts, "text_disappeared:")
    + EnergyReport(before.energy, after.energy, floatText)
  }

  /**
   * Nothing changed exactly when the blob and sound counts agree, both moments
   * show the same texts (as sets), and energy moved by at most 1; what was
   * heard plays no part.
   */
  lemma ChangesEmptyIff(before: WorldState, after: WorldState, floatText: real -> string)
    ensures Changes(before, after, floatText) == [] <==>
      && before.visualBlobCount == after.visualBlobCount
      && before.soundCount == after.soundCount
      && (forall t :: t in after.visibleTexts ==> t in before.visibleTexts)
      && (forall t :: t in before.visibleTexts ==> t in after.visibleTexts)
      && RAbs(before.energy - after.energy) <= 1.0
  {
    MissingMeaning(after.visibleTexts, before.visibleTexts, "new_text_appeared:");
    MissingMeaning(before.visibleTexts, after.visibleTexts, "text_disappeared:");
  }

  /** Every text that came into view is reported as appeared, and every text that left as disappeared. */
  lemma ChangesReportTexts(before: WorldState, after: WorldState, floatText: real -> string, t: string)
    ensures t in after.visibleTexts && t !in before.visibleTexts ==> "new_text_appeared:" + t in Changes(before, after, floatText)
    ensures t in before.visibleTexts && t !in after.visibleTexts ==> "text_disappeared:" + t in Changes(before, after, floatText)
  {
    MissingMeaning(after.visibleTexts, before.visibleTexts, "new_text_appeared:");
    MissingMeaning(before.visibleTexts, after.visibleTexts, "text_disappeared:");
  }

  // -------------------------------------------------------------- learning

  predicate Explains(ce: CauseEffect, action: string, effect: string)
  {
    ce.action == action && ce.effect == effect
  }

  function FindCause(ces: seq<CauseEffect>, action: string, effect: string): (r: Option<nat>)
    ensures r.Some? ==> r.value < |ces| && Explains(ces[r.value], action, effect)
                        && forall j :: 0 <= j < r.value ==> !Explains(ces[j], action, effect)
    ensures r.None? ==> forall j :: 0 <= j < |ces| ==> !Explains(ces[j], action, effect)
  {
    if ces == [] then None
    else if Explains(ces[0], action, effect) then Some(0)
    else match FindCause(ces[1..], action, effect)
      case None => None
      case Some(i) => Some(i + 1)
  }

  /** One more observation, with confidence a tenth per observation up to 1. */
  function Reinforced(ce: CauseEffect): CauseEffect
  {
    var n := ce.observations + 1;
    ce.(observations := n, confidence := Min(1.0, n as real * 0.1))
  }

  datatype Knowledge = Knowledge(causes: seq<CauseEffect>, brain: NeuralNetwork.Net)

  /** One effect of `learnFromExperiment`: reinforce the known pair, or add it and link action and effect in the brain. */
  function LearnedOne(k: Knowledge, exp: Experiment, effect: string, now: int): Knowledge
  {
    match FindCause(k.causes, exp.action, effect)
    case Some(i) => k.(causes := k.causes[i := Reinforced(k.causes[i])])
    case None =>
      Knowledge(k.causes + [CauseEffect(exp.bodyPart, exp.action, effect, 1, 0.1, now)],
                NeuralNetwork.Associated(k.brain, exp.action, effect, AssociationStrength, now))
  }

  /** `learnFromExperiment`: the effects one after another. */
  function Learned(k: Knowledge, exp: Experiment, effects: seq<string>, now: int): Knowledge
  {
    if effects == [] then k
    else LearnedOne(Learned(k, exp, effects[..|effects| - 1], now), exp, effects[|effects| - 1], now)
  }

  /**
   * No two entries explain the same (action, effect) pair, and each has been
   * observed at least once with a confidence of a tenth per observation up to 1.
   */
  predicate CausesInv(ces: seq<CauseEffect>)
  {
    && (forall i, j :: 0 <= i < j < |ces| ==> !Explains(ces[j], ces[i].action, ces[i].effect))
    && (forall i :: 0 <= i < |ces| ==> ces[i].observations >= 1 && ces[i].confidence == Min(1.0, ces[i].observations as real * 0.1))
  }

  predicate Knows(ces: seq<CauseEffect>, action: string, effect: string)
  {
    exists i :: 0 <= i < |ces| && Explains(ces[i], action, effect)
  }

  /** Reinforcing an entry keeps the invariant. */
  lemma ReinforcedKeeps(ces: seq<CauseEffect>, i: nat)
    requires CausesInv(ces) && i < |ces|
    ensures CausesInv(ces[i := Reinforced(ces[i])])
  {
    var r := ces[i := Reinforced(ces[i])];
    forall x, y | 0 <= x < y < |r|
      ensures !Explains(r[y], r[x].action, r[x].effect)
    {
      assert r[x].action == ces[x].action && r[x].effect == ces[x].effect;
      assert r[y].action == ces[y].action && r[y].effect == ces[y].effect;
    }
  }

  /** Appending a first observation of a pair nobody explains yet keeps the invariant. */
  lemma AppendedKeeps(ces: seq<CauseEffect>, ce: CauseEffect)
    requires CausesInv(ces) && ce.observations == 1 && ce.confidence == 0.1
    requires forall j :: 0 <= j < |ces| ==> !Explains(ces[j], ce.action, ce.effect)
    ensures CausesInv(ces + [ce])
  {
    var r := ces + [ce];
    forall x, y | 0 <= x < y < |r|
      ensures !Explains(r[y], r[x].action, r[x].effect)
    {
      if y == |ces| {
        assert r[y] == ce && r[x] == ces[x];
      } else {
        assert r[x] == ces[x] && r[y] == ces[y];
      }
    }
  }

  /** Learning one effect keeps the invariant. */
  lemma LearnedOneKeeps(k: Knowledge, exp: Experiment, effect: string, now: int)
    requires CausesInv(k.causes)
    ensures CausesInv(LearnedOne(k, exp, effect, now).causes)
  {
    match FindCause(k.causes, exp.action, effect)
    case Some(i) => ReinforcedKeeps(k.causes, i);
    case None => AppendedKeeps(k.causes, CauseEffect(exp.bodyPart, exp.action, effect, 1, 0.1, now));
  }

  /**
   * A known pair gains one observation in place and the brain is untouched;
   * a new one is appended with one observation and confidence 0.1.
   */
  lemma LearnedOneMeaning(k: Knowledge, exp: Experiment, effect: string, now: int)
    requires CausesInv(k.causes)
    ensures var r := LearnedOne(k, exp, effect, now);
      && (Knows(k.causes, exp.action, effect) ==>
            |r.causes| == |k.causes| && r.brain == k.brain
            && forall i :: 0 <= i < |k.causes| ==>
                 r.causes[i] == if Explains(k.causes[i], exp.action, effect) then Reinforced(k.causes[i]) else k.causes[i])
      && (!Knows(k.causes, exp.action, effect) ==>
            r.causes == k.causes + [CauseEffect(exp.bodyPart, exp.action, effect, 1, 0.1, now)])
  {
  }

  /** After learning one effect the pair is known, and nothing known before is forgotten. */
  lemma LearnedOneRemembers(k: Knowledge, exp: Experiment, effect: string, now: int)
    ensures var r := LearnedOne(k, exp, effect, now);
      && Knows(r.causes, exp.action, effect)
      && |k.causes| <= |r.causes| <= |k.causes| + 1
      && (forall a, e :: Knows(k.causes, a, e) ==> Knows(r.causes, a, e))
  {
    var r := LearnedOne(k, exp, effect, now);
    forall a, e | Knows(k.causes, a, e)
      ensures Knows(r.causes, a, e)
    {
      var j :| 0 <= j < |k.causes| && Explains(k.causes[j], a, e);
      assert Explains(r.causes[j], a, e);
    }
    match FindCause(k.causes, exp.action, effect)
    case Some(i) =>
      assert Explains(r.causes[i], exp.action, effect);
    case None =>
      assert Explains(r.causes[|k.causes|], exp.action, effect);
  }

  /**
   * After an experiment every one of its effects is known as an effect of its
   * action, nothing known before is forgotten, and the invariant holds.
   */
  lemma {:induction false} LearnedMeaning(k: Knowledge, exp: Experiment, effects: seq<string>, now: int)
    requires CausesInv(k.causes)
    ensures var r := Learned(k, exp, effects, now);
      && CausesInv(r.causes)
      && (forall e :: e in effects ==> Knows(r.causes, exp.action, e))
      && (forall a, e :: Knows(k.causes, a, e) ==> Knows(r.causes, a, e))
      && |k.causes| <= |r.causes| <= |k.causes| + |effects|
  {
    if effects != [] {
      var init, last := effects[..|effects| - 1], effects[|effects| - 1];
      LearnedMeaning(k, exp, init, now);
      var m := Learned(k, exp, init, now);
      var r := Learned(k, exp, effects, now);
      assert r == LearnedOne(m, exp, last, now);
      LearnedOneKeeps(m, exp, last, now);
      LearnedOneRemembers(m, exp, last, now);
      assert effects == init + [last];
      assert forall e :: e in effects ==> e in init || e == last;
    }
  }

  /** The brain keeps its own invariant through learning. */
  lemma {:induction false} LearnedKeepsBrain(k: Knowledge, exp: Experiment, effects: seq<string>, now: int)
    requires NeuralNetwork.Inv(k.brain)
    ensures NeuralNetwork.Inv(Learned(k, exp, effects, now).brain)
  {
    if effects != [] {
      LearnedKeepsBrain(k, exp, effects[..|effects| - 1], now);
    }
  }

  /** Ten observations of the same pair make it certain. */
  lemma CertainAtTen(ce: CauseEffect)
    requires ce.observations >= 9
    ensures Reinforced(ce).confidence == 1.0
  {
  }

  // ------------------------------------------------------ using knowledge

  predicate Matches(ce: CauseEffect, desired: string)
  {
    Contains(ce.effect, desired)
  }

  /**
   * `findActionFor`'s scan: the best confidence so far (starting at 0) and the
   * entry that holds it. The entry is the first of those whose effect mentions
   * `desired` with the highest confidence, and there is none when no such
   * entry has a positive confidence.
   */
  function BestFor(ces: seq<CauseEffect>, desired: string): (r: (real, Option<nat>))
    ensures r.1.None? ==> r.0 == 0.0 && forall j :: 0 <= j < |ces| && Matches(ces[j], desired) ==> ces[j].confidence <= 0.0
    ensures r.1.Some? ==>
      var i := r.1.value;
      && i < |ces| && Matches(ces[i], desired) && r.0 == ces[i].confidence && r.0 > 0.0
      && (forall j :: 0 <= j < |ces| && Matches(ces[j], desired) ==> ces[j].confidence <= r.0)
      && (forall j :: 0 <= j < i && Matches(ces[j], desired) ==> ces[j].confidence < r.0)
  {
    if ces == [] then (0.0, None)
    else
      var last, init := ces[|ces| - 1], ces[..|ces| - 1];
      var prev := BestFor(init, desired);
      assert forall j :: 0 <= j < |init| ==> init[j] == ces[j];
      if Matches(last, desired) && last.confidence > prev.0 then (last.confidence, Some(|ces| - 1))
      else prev
  }

  /** `predictEffects`' line for one entry. */
  function PredictionText(ce: CauseEffect, floatText: real -> string): string
  {
    ce.effect + " (confidence: " + floatText(ce.confidence) + ")"
  }

  /** `predictEffects`: one line per entry whose action is `action`, in order. */
  function Predictions(ces: seq<CauseEffect>, action: string, floatText: real -> string): seq<string>
  {
    if ces == [] then []
    else
      var last := ces[|ces| - 1];
      Predictions(ces[..|ces| - 1], action, floatText) + (if last.action == action then [PredictionText(last, floatText)] else [])
  }

  /** Predictions keep the order of the entries: those of a concatenation are those of each part in turn. */
  lemma {:induction false} PredictionsAppend(xs: seq<CauseEffect>, ys: seq<CauseEffect>, action: string, floatText: real -> string)
    ensures Predictions(xs + ys, action, floatText) == Predictions(xs, action, floatText) + Predictions(ys, action, floatText)
  {
    if ys != [] {
      var init := ys[..|ys| - 1];
      assert (xs + ys)[..|xs + ys| - 1] == xs + init;
      assert (xs + ys)[|xs + ys| - 1] == ys[|ys| - 1];
      assert xs + ys != [];
      PredictionsAppend(xs, init, action, floatText);
    } else {
      assert xs + ys == xs;
    }
  }

  /** There is a line for every entry with that action, each line comes from one, and there are no more lines than entries. */
  lemma {:induction false} PredictionsMeaning(ces: seq<CauseEffect>, action: string, floatText: real -> string)
    ensures |Predictions(ces, action, floatText)| <= |ces|
    ensures forall i :: 0 <= i < |ces| && ces[i].action == action ==> PredictionText(ces[i], floatText) in Predictions(ces, action, floatText)
    ensures forall p :: p in Predictions(ces, action, floatText) ==>
              exists i :: 0 <= i < |ces| && ces[i].action == action && p == PredictionText(ces[i], floatText)
    ensures (forall i :: 0 <= i < |ces| ==> ces[i].action != action) <==> Predictions(ces, action, floatText) == []
  {
    if ces != [] {
      var init := ces[..|ces| - 1];
      PredictionsMeaning(init, action, floatText);
      forall p | p in Predictions(ces, action, floatText)
        ensures exists i :: 0 <= i < |ces| && ces[i].action == action && p == PredictionText(ces[i], floatText)
      {
        if p in Predictions(init, action, floatText) {
          var i :| 0 <= i < |init| && init[i].action == action && p == PredictionText(init[i], floatText);
          assert ces[i] == init[i];
        }
      }
      forall i | 0 <= i < |ces| && ces[i].action == action
        ensures PredictionText(ces[i], floatText) in Predictions(ces, action, floatText)
      {
        if i < |init| {
          assert ces[i] == init[i];
        }
      }
    }
  }

  // ------------------------------------------------------------- curiosity

  /** The curiosity left after a learning cycle. */
  function Satisfied(c: real): (r: real)
    ensures r >= MinCuriosity && r <= Max(c, MinCuriosity)
  {
    Max(MinCuriosity, c - 0.5)
  }

  /** `increaseCuriosity`. */
  function Aroused(c: real, amount: real): (r: real)
    ensures r <= MaxCuriosity
    ensures amount >= 0.0 && c <= MaxCuriosity ==> r >= c
  {
    Min(MaxCuriosity, c + amount)
  }

  function SatisfiedTimes(c: real, n: nat): real
  {
    if n == 0 then c else Satisfied(SatisfiedTimes(c, n - 1))
  }

  /** Each cycle takes half a point off curiosity until it rests at 10. */
  lemma {:induction false} SatisfiedTimesMeaning(c: real, n: nat)
    requires c >= MinCuriosity
    ensures SatisfiedTimes(c, n) == Max(MinCuriosity, c - 0.5 * n as real)
  {
    if n > 0 {
      SatisfiedTimesMeaning(c, n - 1);
    }
  }

  /** From full curiosity, 180 cycles bring it to its floor. */
  lemma FloorAfter180()
    ensures SatisfiedTimes(MaxCuriosity, 180) == MinCuriosity
    ensures SatisfiedTimes(MaxCuriosity, 179) > MinCuriosity
  {
    SatisfiedTimesMeaning(MaxCuriosity, 180);
    SatisfiedTimesMeaning(MaxCuriosity, 179);
  }

  // ----------------------------------------------------------- experiments

  /**
   * `decideExperiment`: `explore` is the draw against curiosity, `pick` the
   * random action or known entry, `tx`/`ty` the random touch point.
   */
  function Decided(ces: seq<CauseEffect>, explore: bool, pick: nat, tx: nat, ty: nat): (e: Experiment)
    ensures e.kind == Exploit <==> !explore && ces != []
    ensures e.kind == Exploit ==> exists i :: 0 <= i < |ces| && e.action == ces[i].action && e.bodyPart == ces[i].bodyPart
    ensures e.kind == Explore ==> e.action in ["look", "touch_random", "swipe_down", "swipe_up", "make_sound"]
  {
    if explore || ces == [] then
      match pick % 5
      case 0 => Experiment(Explore, "eyes", "look", "Look around with eyes", 0, 0)
      case 1 =>
        var x, y := tx % Body.ScreenWidth, ty % Body.ScreenHeight;
        Experiment(Explore, "hands", "touch_random", "Touch at " + IntToString(x) + "," + IntToString(y), x, y)
      case 2 => Experiment(Explore, "hands", "swipe_down", "Swipe downward", 0, 0)
      case 3 => Experiment(Explore, "hands", "swipe_up", "Swipe upward", 0, 0)
      case _ => Experiment(Explore, "mouth", "make_sound", "Make a sound", 0, 0)
    else
      var known := ces[pick % |ces|];
      Experiment(Exploit, known.bodyPart, known.action,
                 "Repeat: " + known.action + " (expecting: " + known.effect + ")", 0, 0)
  }

  // ----------------------------------------------------------------- class

  class AIChildSelfDiscovery {
    const brain: NeuralNetwork.AIChildNeuralNetwork
    /** Java's `Float.toString`, which this model does not spell out. */
    const floatText: real -> string
    var knownCauseEffects: seq<CauseEffect>
    var curiosity: real
    var experimentCount: nat
    var successfulLearnings: nat

    predicate Valid()
      reads this, brain
    {
      && CausesInv(knownCauseEffects)
      && NeuralNetwork.Inv(brain.State())
      && curiosity <= MaxCuriosity
      && successfulLearnings <= experimentCount
    }

    constructor (brain: NeuralNetwork.AIChildNeuralNetwork, floatText: real -> string)
      requires brain.Valid()
      ensures Valid() && this.brain == brain && this.floatText == floatText
      ensures knownCauseEffects == [] && curiosity == MaxCuriosity && experimentCount == 0 && successfulLearnings == 0
    {
      this.brain := brain;
      this.floatText := floatText;
      knownCauseEffects := [];
      curiosity := MaxCuriosity;
      experimentCount := 0;
      successfulLearnings := 0;
    }

    /** `findChanges`. */
    method FindChanges(before: WorldState, after: WorldState) returns (changes: seq<string>)
      ensures changes == Changes(before, after, floatText)
    {
      var counts := CountReport("visual_count_changed:", before.visualBlobCount, after.visualBlobCount);
      var sounds := CountReport("sound_count_changed:", before.soundCount, after.soundCount);
      var appeared := MissingTexts(after.visibleTexts, before.visibleTexts, "new_text_appeared:");
      var gone := MissingTexts(before.visibleTexts, after.visibleTexts, "text_disappeared:");
      var energy := EnergyReport(before.energy, after.energy, floatText);
      changes := counts + sounds + appeared + gone + energy;
    }

    static method MissingTexts(xs: seq<string>, other: seq<string>, prefix: string) returns (r: seq<string>)
      ensures r == Missing(xs, other, prefix)
    {
      r := [];
      var i := 0;
      while i < |xs|
        invariant 0 <= i <= |xs|
        invariant r == Missing(xs[..i], other, prefix)
      {
        assert xs[..i + 1][..i] == xs[..i];
        if xs[i] !in other {
          r := r + [prefix + xs[i]];
        }
        i := i + 1;
      }
      assert xs[..i] == xs;
    }

    static method FindCauseIndex(ces: seq<CauseEffect>, action: string, effect: string) returns (r: Option<nat>)
      ensures r == FindCause(ces, action, effect)
    {
      var i := 0;
      while i < |ces|
        invariant 0 <= i <= |ces|
        invariant forall j :: 0 <= j < i ==> !Explains(ces[j], action, effect)
      {
        if ces[i].action == action && ces[i].effect == effect {
          return Some(i);
        }
        i := i + 1;
      }
      r := None;
    }

    /** `learnFromExperiment`. */
    method LearnFromExperiment(exp: Experiment, effects: seq<string>, now: int)
      requires Valid()
      modifies this, brain
      ensures Valid()
      ensures Knowledge(knownCauseEffects, brain.State()) ==
              Learned(Knowledge(old(knownCauseEffects), old(brain.State())), exp, effects, now)
      ensures curiosity == old(curiosity) && experimentCount == old(experimentCount)
      ensures successfulLearnings == old(successfulLearnings)
    {
      ghost var k0 := Knowledge(knownCauseEffects, brain.State());
      LearnedMeaning(k0, exp, effects, now);
      LearnedKeepsBrain(k0, exp, effects, now);
      var i := 0;
      while i < |effects|
        invariant 0 <= i <= |effects|
        invariant Knowledge(knownCauseEffects, brain.State()) == Learned(k0, exp, effects[..i], now)
        invariant curiosity == old(curiosity) && experimentCount == old(experimentCount)
        invariant successfulLearnings == old(successfulLearnings)
      {
        assert effects[..i + 1][..i] == effects[..i];
        var effect := effects[i];
        assert Learned(k0, exp, effects[..i + 1], now) == LearnedOne(Learned(k0, exp, effects[..i], now), exp, effect, now);
        LearnEffect(exp, effect, now);
        i := i + 1;
      }
      assert effects[..i] == effects;
    }

    /** One effect of an experiment. */
    method LearnEffect(exp: Experiment, effect: string, now: int)
      modifies this, brain
      ensures Knowledge(knownCauseEffects, brain.State()) ==
              LearnedOne(Knowledge(old(knownCauseEffects), old(brain.State())), exp, effect, now)
      ensures curiosity == old(curiosity) && experimentCount == old(experimentCount)
      ensures successfulLearnings == old(successfulLearnings)
    {
      var found := FindCauseIndex(knownCauseEffects, exp.action, effect);
      if found.Some? {
        var j := found.value;
        knownCauseEffects := knownCauseEffects[j := Reinforced(knownCauseEffects[j])];
      } else {
        knownCauseEffects := knownCauseEffects + [CauseEffect(exp.bodyPart, exp.action, effect, 1, 0.1, now)];
        brain.Associate(exp.action, effect, AssociationStrength, now);
      }
    }

    /**
     * `doLearningCycle`, given the experiment `decideExperiment` chose and the
     * world as perceived before and after it was carried out.
     */
    method DoLearningCycle(exp: Experiment, before: WorldState, after: WorldState, now: int) returns (r: LearningResult)
      requires Valid()
      modifies this, brain
      ensures Valid()
      ensures r.observedChanges == Changes(before, after, floatText)
      ensures r.learned <==> r.observedChanges != []
      ensures r == LearningResult(now, Describe(before), exp.description, Describe(after), r.observedChanges, r.learned)
      ensures Knowledge(knownCauseEffects, brain.State()) ==
              Learned(Knowledge(old(knownCauseEffects), old(brain.State())), exp, r.observedChanges, now)
      ensures experimentCount == old(experimentCount) + 1
      ensures successfulLearnings == old(successfulLearnings) + (if r.learned then 1 else 0)
      ensures curiosity == Satisfied(old(curiosity))
    {
      var changes := FindChanges(before, after);
      var learned := false;
      if changes != [] {
        LearnFromExperiment(exp, changes, now);
        learned := true;
        successfulLearnings := successfulLearnings + 1;
      } else {
        assert Learned(Knowledge(knownCauseEffects, brain.State()), exp, changes, now) == Knowledge(knownCauseEffects, brain.State());
      }
      experimentCount := experimentCount + 1;
      curiosity := Max(MinCuriosity, curiosity - 0.5);
      r := LearningResult(now, Describe(before), exp.description, Describe(after), changes, learned);
    }

    /** `findActionFor`: the action of the first most confident entry whose effect mentions `desired`. */
    method FindActionFor(desired: string) returns (r: Option<string>)
      ensures r == match BestFor(knownCauseEffects, desired).1
                   case None => None
                   case Some(i) => Some(knownCauseEffects[i].action)
    {
      var ces := knownCauseEffects;
      var best := 0.0;
      var bestAt: Option<nat> := None;
      var i := 0;
      while i < |ces|
        invariant 0 <= i <= |ces|
        invariant (best, bestAt) == BestFor(ces[..i], desired)
      {
        assert ces[..i + 1][..i] == ces[..i];
        if Contains(ces[i].effect, desired) && ces[i].confidence > best {
          best := ces[i].confidence;
          bestAt := Some(i);
        }
        i := i + 1;
      }
      assert ces[..i] == ces;
      r := if bestAt.Some? then Some(ces[bestAt.value].action) else None;
    }

    /** `predictEffects`. */
    method PredictEffects(action: string) returns (r: seq<string>)
      ensures r == Predictions(knownCauseEffects, action, floatText)
    {
      var ces := knownCauseEffects;
      r := [];
      var i := 0;
      while i < |ces|
        invariant 0 <= i <= |ces|
        invariant r == Predictions(ces[..i], action, floatText)
      {
        assert ces[..i + 1][..i] == ces[..i];
        if ces[i].action == action {
          r := r + [PredictionText(ces[i], floatText)];
        }
        i := i + 1;
      }
      assert ces[..i] == ces;
    }

    /** `increaseCuriosity`. */
    method IncreaseCuriosity(amount: real)
      requires Valid()
      modifies this
      ensures Valid()
      ensures curiosity == Aroused(old(curiosity), amount)
      ensures knownCauseEffects == old(knownCauseEffects)
      ensures experimentCount == old(experimentCount) && successfulLearnings == old(successfulLearnings)
    {
      curiosity := Min(MaxCuriosity, curiosity + amount);
    }

    /** `getStatus`: the learning rate is the share of experiments that taught something. */
    method GetStatus() returns (s: DiscoveryStatus)
      requires Valid()
      ensures s.totalExperiments == experimentCount && s.successfulLearnings == successfulLearnings
      ensures s.knownCauseEffects == |knownCauseEffects| && s.curiosity == curiosity
      ensures 0.0 <= s.learningRate <= 1.0
      ensures experimentCount > 0 ==> s.learningRate == successfulLearnings as real / experimentCount as real
      ensures experimentCount == 0 ==> s.learningRate == 0.0
    {
      var rate := 0.0;
      if experimentCount > 0 {
        rate := successfulLearnings as real / experimentCount as real;
      }
      s := DiscoveryStatus(experimentCount, successfulLearnings, |knownCauseEffects|, curiosity, rate);
    }
  }
}
