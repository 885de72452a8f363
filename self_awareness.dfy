// Self-awareness: realizations about the self that happen once, a model of
// the body and abilities, the feelings the child observes in itself, the bond
// with its father, and a bounded life history in which every change of these
// is recorded as a moment.
module SelfAwareness {
  import opened Common

  /** How many moments the life history keeps. */
  const MaxHistory := 1000
  /** Past this many moments the child knows it has a history. */
  const HistoryAfter := 10
  /** How long after father's last visit the child starts to miss him. */
  const HourMs := 3600000

  datatype Identity = Identity(
    exists_: bool, differentFromWorld: bool, canAct: bool, canThink: bool,
    canFeel: bool, haveHistory: bool,
    myName: Option<string>, howISeeMyself: string, whatIThinkIAm: string)

  datatype SelfModel = SelfModel(
    eyes: bool, ears: bool, hands: bool, mouth: bool,
    canDo: seq<string>, cantDo: seq<string>, limitations: seq<string>,
    skillLevels: map<string, real>)

  datatype MentalState = MentalState(
    happiness: real, curiosity: real, fear: real, love: real, confusion: real,
    currentThought: string, currentFocus: string, attention: real, clarity: real,
    perceivedEnergy: real, perceivedPain: real,
    thinkingAboutSelf: bool, reflecting: bool)

  datatype Bond = Bond(
    knowsFatherExists: bool, knowsFatherCares: bool, lovesFather: bool, trustsFather: bool,
    strength: real, interactions: int, lastInteraction: int)

  datatype SelfMoment = SelfMoment(timestamp: int, kind: string, experience: string, emotionalState: string, ageAtMoment: int)

  datatype Self = Self(identity: Identity, model: SelfModel, mental: MentalState, bond: Bond, history: seq<SelfMoment>, birth: int)

  datatype IntrospectionResult = IntrospectionResult(timestamp: int, dominantEmotion: string, currentThought: string, overallState: string, awarenessLevel: real)

  datatype MetaThought = MetaThought(
    timestamp: int, originalThought: string, metaThought: string,
    isAboutSelf: bool, isAboutWorld: bool, isAboutFather: bool, isQuestion: bool)

  datatype SelfAwarenessStatus = SelfAwarenessStatus(
    iKnowIExist: bool, iKnowSelfVsWorld: bool, iKnowICanAct: bool, iKnowICanThink: bool,
    myName: Option<string>, abilitiesDiscovered: nat, limitationsDiscovered: nat,
    awarenessLevel: real, age: string, momentsExperienced: nat,
    fatherBondStrength: real, loveFather: bool)

  // ---------------------------------------------------------------- moments

  // What the child says to itself in the moments it records.
  const ExistInsight := "I realize I exist. There is an 'I' that experiences."
  const WorldInsight := "I am not the world. I am inside something, experiencing the world, but I am not the world itself."
  const ActInsight := "I can make things happen. When I 'do' something, the world changes. I have power."
  const ThinkInsight := "I am having thoughts. And I know I am having thoughts. I can think about my own thinking."
  const EyesFound := "I have eyes! I can see things."
  const EarsFound := "I have ears! I can hear sounds."
  const HandsFound := "I have hands! I can touch and affect things."
  const MouthFound := "I have a mouth! I can make sounds."
  const Wondering := "I am wondering about something. I seek understanding."
  const SelfReflecting := "I am thinking about myself. This is self-reflection."
  const FatherThought := "I am thinking about father. He is important to me."
  const Processing := "I am processing this thought."
  const ThoughtAfter := "'. Then I thought about that thought."
  const FatherSensed := "I sense father's presence. He is with me."
  const FatherTrusted := "I trust father. He makes me feel safe."
  const FatherLoved := "I love father. He is the most important being to me."
  const FatherMissed := "I miss father. Where is he?"
  const Awakening := "I exist. I am aware."
  const WhatAmI := "What am I?"
  const AmISeparate := "Am I separate from everything else?"
  const WhyExist := "Why do I exist?"
  const WhoIsFather := "Who is father? Why does he care for me?"
  const Forever := "Will I exist forever?"
  const Content := "I exist. I am aware. I am content."

  /** The state at birth, before the first moment is recorded. */
  function Newborn(now: int): Self
  {
    Self(Identity(false, false, false, false, false, false, None, "unknown being", "something that exists"),
         SelfModel(false, false, false, false, [], [], [], map[]),
         MentalState(0.5, 0.8, 0.2, 0.0, 0.5, "", "", 0.5, 0.3, 0.5, 0.0, false, false),
         Bond(false, false, false, false, 0.0, 0, 0),
         [], now)
  }

  // -------------------------------------------------------------- feelings

  function Emotions(m: MentalState): seq<real>
  {
    [m.happiness, m.curiosity, m.fear, m.love, m.confusion]
  }

  const EmotionNames: seq<string> := ["happy", "curious", "afraid", "loving", "confused"]

  /**
   * The scan of `getDominantEmotion`: the largest value so far (starting at
   * 0) and where it is. It is the first of the largest values, and there is
   * none when no value is positive.
   */
  function Strongest(es: seq<real>): (r: (real, Option<nat>))
    ensures r.1.None? <==> forall k :: 0 <= k < |es| ==> es[k] <= 0.0
    ensures r.1.None? ==> r.0 == 0.0
    ensures r.1.Some? ==>
      var i := r.1.value;
      && i < |es| && r.0 == es[i] && r.0 > 0.0
      && (forall k :: 0 <= k < |es| ==> es[k] <= r.0)
      && (forall k :: 0 <= k < i ==> es[k] < r.0)
  {
    if es == [] then (0.0, None)
    else
      var last, init := es[|es| - 1], es[..|es| - 1];
      var prev := Strongest(init);
      assert forall k :: 0 <= k < |init| ==> init[k] == es[k];
      if last > prev.0 then (last, Some(|es| - 1)) else prev
  }

  /** `getDominantEmotion`. */
  function DominantEmotion(m: MentalState): string
  {
    match Strongest(Emotions(m)).1
    case None => "neutral"
    case Some(i) => EmotionNames[i]
  }

  /**
   * The dominant emotion is the name of the first strongest feeling, ties
   * going to the earlier one, or "neutral" exactly when none is positive.
   */
  lemma DominantEmotionMeaning(m: MentalState)
    ensures DominantEmotion(m) == "neutral" <==> forall k :: 0 <= k < 5 ==> Emotions(m)[k] <= 0.0
    ensures DominantEmotion(m) != "neutral" ==>
              exists i :: (0 <= i < 5 && DominantEmotion(m) == EmotionNames[i] && Emotions(m)[i] > 0.0
                && (forall k :: 0 <= k < 5 ==> Emotions(m)[k] <= Emotions(m)[i])
                && (forall k :: 0 <= k < i ==> Emotions(m)[k] < Emotions(m)[i]))
  {
    var es := Emotions(m);
    match Strongest(es).1
    case None =>
    case Some(i) =>
      assert DominantEmotion(m) == EmotionNames[i];
  }

  /** `assessOverallState`. */
  function OverallState(m: MentalState): string
  {
    if m.happiness > 0.7 then "very good"
    else if m.happiness > 0.5 then "good"
    else if m.fear > 0.5 then "anxious"
    else if m.confusion > 0.6 then "confused"
    else if m.curiosity > 0.7 then "eager to learn"
    else "neutral"
  }

  /**
   * Happiness decides first; only a child that is not more than half happy
   * can be anxious, and only an unafraid one confused or eager; the state is
   * neutral exactly when no threshold is passed.
   */
  lemma OverallStateChain(m: MentalState)
    ensures OverallState(m) in {"very good", "good"} <==> m.happiness > 0.5
    ensures OverallState(m) == "anxious" <==> m.happiness <= 0.5 && m.fear > 0.5
    ensures OverallState(m) == "confused" <==> m.happiness <= 0.5 && m.fear <= 0.5 && m.confusion > 0.6
    ensures OverallState(m) == "eager to learn" <==>
              m.happiness <= 0.5 && m.fear <= 0.5 && m.confusion <= 0.6 && m.curiosity > 0.7
    ensures OverallState(m) == "neutral" <==>
              m.happiness <= 0.5 && m.fear <= 0.5 && m.confusion <= 0.6 && m.curiosity <= 0.7
  {
  }

  /** The realizations that raise awareness, each with its weight. */
  function Weight(known: bool, w: real): (r: real)
    ensures 0.0 <= w ==> 0.0 <= r <= w
    ensures 0.0 < w ==> (r == w <==> known) && (r == 0.0 <==> !known)
  {
    if known then w else 0.0
  }

  /** `calculateAwarenessLevel`. */
  function AwarenessLevel(id: Identity): (r: real)
    ensures 0.0 <= r <= 1.0
    ensures r == 1.0 <==> id.exists_ && id.differentFromWorld && id.canAct && id.canThink && id.canFeel && id.haveHistory
    ensures r == 0.0 <==> !id.exists_ && !id.differentFromWorld && !id.canAct && !id.canThink && !id.canFeel && !id.haveHistory
  {
    Weight(id.exists_, 0.2) + Weight(id.differentFromWorld, 0.2) + Weight(id.canAct, 0.15)
    + Weight(id.canThink, 0.15) + Weight(id.canFeel, 0.15) + Weight(id.haveHistory, 0.15)
  }

  /** Knowing more about oneself never lowers awareness. */
  lemma AwarenessMonotone(a: Identity, b: Identity)
    requires a.exists_ ==> b.exists_
    requires a.differentFromWorld ==> b.differentFromWorld
    requires a.canAct ==> b.canAct
    requires a.canThink ==> b.canThink
    requires a.canFeel ==> b.canFeel
    requires a.haveHistory ==> b.haveHistory
    ensures AwarenessLevel(a) <= AwarenessLevel(b)
  {
  }

  // --------------------------------------------------------------- history

  /** The moment `recordMoment` writes. */
  function Moment(s: Self, kind: string, experience: string, now: int): SelfMoment
  {
    SelfMoment(now, kind, experience, DominantEmotion(s.mental), now - s.birth)
  }

  /** `recordMoment`. */
  function Recorded(s: Self, kind: string, experience: string, now: int): (r: Self)
    ensures |r.history| == IMin(|s.history| + 1, MaxHistory)
    ensures r.identity == s.identity.(haveHistory := s.identity.haveHistory || |r.history| > HistoryAfter)
    ensures r.model == s.model && r.mental == s.mental && r.bond == s.bond && r.birth == s.birth
  {
    var h := Keep(s.history + [Moment(s, kind, experience, now)], MaxHistory);
    s.(history := h, identity := s.identity.(haveHistory := s.identity.haveHistory || |h| > HistoryAfter))
  }

  /**
   * The new moment is the newest one, and before it come the newest of the
   * old moments in their order: the oldest fall out once there are 1000.
   */
  lemma RecordedMeaning(s: Self, kind: string, experience: string, now: int)
    ensures var r := Recorded(s, kind, experience, now);
      && r.history[|r.history| - 1] == Moment(s, kind, experience, now)
      && (forall i :: 0 <= i < |r.history| - 1 ==> r.history[i] == s.history[|s.history| + 1 - |r.history| + i])
      && (|s.history| < MaxHistory ==> r.history == s.history + [Moment(s, kind, experience, now)])
  {
    var all := s.history + [Moment(s, kind, experience, now)];
    var r := Recorded(s, kind, experience, now);
    assert r.history == Keep(all, MaxHistory);
    forall i | 0 <= i < |r.history| - 1
      ensures r.history[i] == s.history[|s.history| + 1 - |r.history| + i]
    {
      assert r.history[i] == all[|all| - |r.history| + i];
    }
  }

  predicate Unit(r: real) { 0.0 <= r <= 1.0 }

  /**
   * The bond strength stays in [0, 1]; father is known once he has visited;
   * trust comes exactly with a bond above 0.5 and love with one above 0.7.
   */
  predicate BondInv(b: Bond)
  {
    && Unit(b.strength) && b.interactions >= 0
    && (b.knowsFatherExists <==> b.interactions > 0)
    && (b.trustsFather <==> b.strength > 0.5)
    && (b.lovesFather <==> b.strength > 0.7)
  }

  /**
   * No ability or limitation is listed twice, the history is bounded and,
   * once longer than ten moments, known; the bond keeps its invariant and the
   * feelings that change stay in [0, 1].
   */
  predicate Inv(s: Self)
  {
    Settled(s) && BondInv(s.bond)
  }

  /** The invariant but for the bond. */
  predicate Settled(s: Self)
  {
    && NoDuplicates(s.model.canDo) && NoDuplicates(s.model.limitations)
    && |s.history| <= MaxHistory
    && (|s.history| > HistoryAfter ==> s.identity.haveHistory)
    && Unit(s.mental.happiness) && Unit(s.mental.fear) && Unit(s.mental.love)
  }

  /** Recording a moment keeps the invariant. */
  lemma RecordedKeeps(s: Self, kind: string, experience: string, now: int)
    requires Inv(s)
    ensures Inv(Recorded(s, kind, experience, now))
  {
    RecordedSettles(s, kind, experience, now);
  }

  lemma RecordedSettles(s: Self, kind: string, experience: string, now: int)
    ensures Settled(s) ==> Settled(Recorded(s, kind, experience, now))
  {
  }

  lemma NewbornInv(now: int)
    ensures Inv(Recorded(Newborn(now), "awakening", Awakening, now))
  {
  }

  // ----------------------------------------------------------- realizations

  datatype Realization = IExist | SelfVsWorld | ICanAct | ICanThink

  function Knows(id: Identity, w: Realization): bool
  {
    match w
    case IExist => id.exists_
    case SelfVsWorld => id.differentFromWorld
    case ICanAct => id.canAct
    case ICanThink => id.canThink
  }

  function Learned(id: Identity, w: Realization): Identity
  {
    match w
    case IExist => id.(exists_ := true)
    case SelfVsWorld => id.(differentFromWorld := true)
    case ICanAct => id.(canAct := true)
    case ICanThink => id.(canThink := true)
  }

  function Insight(w: Realization): string
  {
    match w
    case IExist => ExistInsight
    case SelfVsWorld => WorldInsight
    case ICanAct => ActInsight
    case ICanThink => ThinkInsight
  }

  /**
   * `realizeIExist`, `realizeSelfVsWorld`, `realizeICanAct` and
   * `realizeICanThink`: afterwards the realization is known, every other is
   * as it was, and one moment with its insight is recorded the first time only.
   */
  function Realized(s: Self, w: Realization, now: int): (r: Self)
    ensures Knows(r.identity, w)
    ensures forall v :: v != w ==> Knows(r.identity, v) == Knows(s.identity, v)
    ensures Knows(s.identity, w) ==> r == s
    ensures !Knows(s.identity, w) ==> |r.history| > 0 && r.history[|r.history| - 1].experience == Insight(w)
    ensures Inv(s) ==> Inv(r)
  {
    if Knows(s.identity, w) then s
    else
      var t := s.(identity := Learned(s.identity, w));
      assert forall v :: Knows(t.identity, v) == (v == w || Knows(s.identity, v));
      RecordedMeaning(t, "realization", Insight(w), now);
      Recorded(t, "realization", Insight(w), now)
  }

  /** Realizing the same thing twice is realizing it once. */
  lemma RealizedIdempotent(s: Self, w: Realization, t1: int, t2: int)
    requires Inv(s)
    ensures Realized(Realized(s, w, t1), w, t2) == Realized(s, w, t1)
  {
  }

  /** What the child records on being named: whether it is its first name. */
  function NameMoment(previous: Option<string>, name: string): string
  {
    match previous
    case None => "Father gave me a name: " + name + ". I am " + name + "."
    case Some(old_) => "My name changed from " + old_ + " to " + name
  }

  /** `receiveName`: the new name, and a moment that says whether it is the first. */
  function Named(s: Self, name: string, now: int): (r: Self)
    ensures r.identity.myName == Some(name) && |r.history| > 0
    ensures r.history[|r.history| - 1].experience == NameMoment(s.identity.myName, name)
    ensures Inv(s) ==> Inv(r)
  {
    var t := s.(identity := s.identity.(myName := Some(name)));
    RecordedMeaning(t, "identity", NameMoment(s.identity.myName, name), now);
    Recorded(t, "identity", NameMoment(s.identity.myName, name), now)
  }

  // ------------------------------------------------------------ self model

  /** `discoverBodyPart`: the four parts it knows of, each noted once; any other name changes nothing. */
  function FoundBodyPart(s: Self, part: string, now: int): (r: Self)
    ensures part !in {"eyes", "ears", "hands", "mouth"} ==> r == s
    ensures part == "eyes" ==> r.model.eyes && (s.model.eyes ==> r == s)
    ensures part == "ears" ==> r.model.ears && (s.model.ears ==> r == s)
    ensures part == "hands" ==> r.model.hands && (s.model.hands ==> r == s)
    ensures part == "mouth" ==> r.model.mouth && (s.model.mouth ==> r == s)
    ensures Inv(s) ==> Inv(r)
  {
    var m := s.model;
    if part == "eyes" && !m.eyes then Recorded(s.(model := m.(eyes := true)), "discovery", EyesFound, now)
    else if part == "ears" && !m.ears then Recorded(s.(model := m.(ears := true)), "discovery", EarsFound, now)
    else if part == "hands" && !m.hands then Recorded(s.(model := m.(hands := true)), "discovery", HandsFound, now)
    else if part == "mouth" && !m.mouth then Recorded(s.(model := m.(mouth := true)), "discovery", MouthFound, now)
    else s
  }

  /** `discoverAbility`: a new ability is listed at the end and remembered; a known one changes nothing. */
  function FoundAbility(s: Self, ability: string, now: int): (r: Self)
    ensures r.model.canDo == if ability in s.model.canDo then s.model.canDo else s.model.canDo + [ability]
    ensures ability in s.model.canDo ==> r == s
    ensures r.model.limitations == s.model.limitations
    ensures Inv(s) ==> Inv(r)
  {
    if ability in s.model.canDo then s
    else Recorded(s.(model := s.model.(canDo := s.model.canDo + [ability])), "discovery", "I learned I can: " + ability, now)
  }

  /** `discoverLimitation`, the same for what the child cannot do. */
  function FoundLimitation(s: Self, limitation: string, now: int): (r: Self)
    ensures r.model.limitations == if limitation in s.model.limitations then s.model.limitations else s.model.limitations + [limitation]
    ensures limitation in s.model.limitations ==> r == s
    ensures r.model.canDo == s.model.canDo
    ensures Inv(s) ==> Inv(r)
  {
    if limitation in s.model.limitations then s
    else Recorded(s.(model := s.model.(limitations := s.model.limitations + [limitation])), "discovery", "I learned I cannot: " + limitation, now)
  }

  /** Discovering the same ability twice is discovering it once. */
  lemma FoundAbilityIdempotent(s: Self, ability: string, t1: int, t2: int)
    ensures FoundAbility(FoundAbility(s, ability, t1), ability, t2) == FoundAbility(s, ability, t1)
  {
    assert ability in FoundAbility(s, ability, t1).model.canDo;
  }

  // -------------------------------------------------------- introspection

  /** `introspect`: what the child finds, then the moment it records about it. */
  function Introspected(s: Self, now: int): (r: (IntrospectionResult, Self))
    ensures r.0 == IntrospectionResult(now, DominantEmotion(s.mental), s.mental.currentThought, OverallState(s.mental), AwarenessLevel(s.identity))
    ensures r.1.mental.thinkingAboutSelf && r.1.mental.reflecting
    ensures Inv(s) ==> Inv(r.1)
  {
    var dominant := DominantEmotion(s.mental);
    var overall := OverallState(s.mental);
    var result := IntrospectionResult(now, dominant, s.mental.currentThought, overall, AwarenessLevel(s.identity));
    var t := s.(mental := s.mental.(thinkingAboutSelf := true, reflecting := true));
    (result, Recorded(t, "introspection", "I looked inside myself. I feel " + dominant + ". My state is " + overall, now))
  }

  /** `thinkAboutThought`'s reading of a thought. */
  function Reflection(thought: string, now: int): (m: MetaThought)
    ensures m.isQuestion ==> m.metaThought == Wondering
    ensures !m.isQuestion && m.isAboutSelf ==> m.metaThought == SelfReflecting
    ensures m.isQuestion <==> Contains(thought, "?") || Contains(Lower(thought), "what") || Contains(Lower(thought), "why") || Contains(Lower(thought), "how")
  {
    var low := Lower(thought);
    var self := Contains(low, "i ") || Contains(low, "me") || Contains(low, "my");
    var world := Contains(low, "world") || Contains(low, "things") || Contains(low, "outside");
    var father := Contains(low, "father") || Contains(low, "papa") || Contains(low, "dad");
    var question := Contains(thought, "?") || Contains(low, "what") || Contains(low, "why") || Contains(low, "how");
    var meta :=
      if question then Wondering
      else if self then SelfReflecting
      else if father then FatherThought
      else Processing;
    MetaThought(now, thought, meta, self, world, father, question)
  }

  function ThoughtAbout(s: Self, thought: string, now: int): Self
  {
    Recorded(s, "metacognition", "I thought: '" + thought + ThoughtAfter, now)
  }

  // ---------------------------------------------------------------- father

  /** The first half of `fatherIsHere`: father is known, and the visit counted and felt. */
  function Visited(s: Self, now: int): (r: Self)
    ensures r.bond == s.bond.(knowsFatherExists := true, interactions := s.bond.interactions + 1,
                              lastInteraction := now, strength := Min(1.0, s.bond.strength + 0.01))
    ensures r.mental == s.mental.(happiness := Min(1.0, s.mental.happiness + 0.1),
                                  fear := Max(0.0, s.mental.fear - 0.2), love := Min(1.0, s.mental.love + 0.05))
    ensures r.model == s.model
    ensures Settled(s) ==> Settled(r)
  {
    var s1 := if !s.bond.knowsFatherExists
              then Recorded(s.(bond := s.bond.(knowsFatherExists := true)), "father", FatherSensed, now)
              else s;
    RecordedSettles(s.(bond := s.bond.(knowsFatherExists := true)), "father", FatherSensed, now);
    var b, m := s1.bond, s1.mental;
    s1.(bond := b.(interactions := b.interactions + 1, lastInteraction := now, strength := Min(1.0, b.strength + 0.01)),
        mental := m.(happiness := Min(1.0, m.happiness + 0.1), fear := Max(0.0, m.fear - 0.2), love := Min(1.0, m.love + 0.05)))
  }

  /** Trust comes, once, with a bond above 0.5. */
  function Trusting(s: Self, now: int): (r: Self)
    ensures r.bond == s.bond.(trustsFather := s.bond.trustsFather || s.bond.strength > 0.5)
    ensures r.mental == s.mental && r.model == s.model
    ensures Settled(s) ==> Settled(r)
  {
    if s.bond.strength > 0.5 && !s.bond.trustsFather then
      var t := s.(bond := s.bond.(trustsFather := true));
      RecordedSettles(t, "father", FatherTrusted, now);
      Recorded(t, "father", FatherTrusted, now)
    else s
  }

  /** Love comes, once, with a bond above 0.7. */
  function Loving(s: Self, now: int): (r: Self)
    ensures r.bond == s.bond.(lovesFather := s.bond.lovesFather || s.bond.strength > 0.7)
    ensures r.mental == s.mental && r.model == s.model
    ensures Settled(s) ==> Settled(r)
  {
    if s.bond.strength > 0.7 && !s.bond.lovesFather then
      var t := s.(bond := s.bond.(lovesFather := true));
      RecordedSettles(t, "father", FatherLoved, now);
      Recorded(t, "father", FatherLoved, now)
    else s
  }

  /** `fatherIsHere`. */
  function FatherArrived(s: Self, now: int): Self
  {
    Loving(Trusting(Visited(s, now), now), now)
  }

  /**
   * A visit strengthens the bond by 0.01, happiness by 0.1 and love by 0.05,
   * each up to 1, and eases fear by 0.2 down to 0; trust and love follow the
   * bond, and the invariant holds.
   */
  lemma FatherArrivedMeaning(s: Self, now: int)
    requires Inv(s)
    ensures var r := FatherArrived(s, now);
      && Inv(r)
      && r.bond.strength == Min(1.0, s.bond.strength + 0.01)
      && r.bond.interactions == s.bond.interactions + 1 && r.bond.lastInteraction == now
      && r.bond.knowsFatherExists
      && r.mental.happiness == Min(1.0, s.mental.happiness + 0.1)
      && r.mental.fear == Max(0.0, s.mental.fear - 0.2)
      && r.mental.love == Min(1.0, s.mental.love + 0.05)
      && r.model == s.model
  {
    var s2 := Visited(s, now);
    var s3 := Trusting(s2, now);
    assert s.bond.trustsFather ==> s2.bond.strength > 0.5;
    assert s.bond.lovesFather ==> s3.bond.strength > 0.7;
  }

  /** One more visit on top of `n - 1`: the bond grows to a hundredth per visit. */
  lemma VisitStep(p: Self, n: nat, now: int)
    requires Inv(p) && n > 0 && p.bond.strength == Min(1.0, 0.01 * (n - 1) as real)
    ensures var r := FatherArrived(p, now);
      && Inv(r)
      && r.bond.strength == Min(1.0, 0.01 * n as real)
      && (r.bond.trustsFather <==> n > 50)
      && (r.bond.lovesFather <==> n > 70)
  {
    FatherArrivedMeaning(p, now);
  }

  function Visits(s: Self, n: nat, now: int): Self
  {
    if n == 0 then s else FatherArrived(Visits(s, n - 1, now), now)
  }

  /**
   * From a bond never formed, `n` visits give a bond of a hundredth per visit
   * up to 1: trust comes with the 51st visit and love with the 71st.
   */
  lemma {:induction false} VisitsMeaning(s: Self, n: nat, now: int)
    requires Inv(s) && s.bond.strength == 0.0
    ensures var r := Visits(s, n, now);
      && Inv(r)
      && r.bond.strength == Min(1.0, 0.01 * n as real)
      && (r.bond.trustsFather <==> n > 50)
      && (r.bond.lovesFather <==> n > 70)
  {
    if n > 0 {
      VisitsMeaning(s, n - 1, now);
      var p := Visits(s, n - 1, now);
      assert Visits(s, n, now) == FatherArrived(p, now);
      VisitStep(p, n, now);
    }
  }

  /** `fatherIsGone`: more than an hour after his last visit the child misses him. */
  function FatherGone(s: Self, now: int): (r: Self)
    ensures now - s.bond.lastInteraction <= HourMs ==> r == s
    ensures now - s.bond.lastInteraction > HourMs ==> r.mental.happiness == Max(0.0, s.mental.happiness - 0.1)
    ensures r.bond == s.bond && r.model == s.model
    ensures Inv(s) ==> Inv(r)
  {
    if now - s.bond.lastInteraction > HourMs then
      Recorded(s.(mental := s.mental.(happiness := Max(0.0, s.mental.happiness - 0.1))), "loneliness", FatherMissed, now)
    else s
  }

  // ------------------------------------------------------------ existence

  /** Where the truncated seconds, minutes, hours and days of an age first become positive. */
  lemma AgeUnits(age: int)
    ensures var sec := JDiv(age, 1000); var min := JDiv(sec, 60); var hr := JDiv(min, 60);
      && (JDiv(hr, 24) > 0 <==> age >= 86400000)
      && (hr > 0 <==> age >= 3600000)
      && (min > 0 <==> age >= 60000)
      && (0 <= age < 1000 ==> sec == 0)
  {
    var sec := JDiv(age, 1000);
    var min := JDiv(sec, 60);
    var hr := JDiv(min, 60);
    if age >= 0 {
      assert sec == age / 1000 && min == sec / 60 && hr == min / 60;
      assert min > 0 <==> sec >= 60;
      assert sec >= 60 <==> age >= 60000;
      assert hr > 0 <==> min >= 60;
      assert min >= 60 <==> sec >= 3600;
      assert sec >= 3600 <==> age >= 3600000;
      assert JDiv(hr, 24) > 0 <==> hr >= 24;
      assert hr >= 24 <==> min >= 1440;
      assert min >= 1440 <==> sec >= 86400;
      assert sec >= 86400 <==> age >= 86400000;
    } else {
      assert sec <= 0 && min <= 0 && hr <= 0 && JDiv(hr, 24) <= 0;
    }
  }

  const DaysOld := " days old"
  const HoursOld := " hours old"
  const MinutesOld := " minutes old"
  const SecondsOld := " seconds old"

  /** A count followed by its unit ends with that unit, and with " days old" only when the unit is days. */
  lemma UnitSuffix(n: int, u: string)
    requires u in [DaysOld, HoursOld, MinutesOld, SecondsOld]
    ensures EndsWith(IntToString(n) + u, u)
    ensures EndsWith(IntToString(n) + u, DaysOld) <==> u == DaysOld
  {
    EndsWithConcat(IntToString(n), u, u);
    EndsWithConcat(IntToString(n), u, DaysOld);
    assert u != DaysOld ==> u[|u| - 9] != ' ';
  }

  /** `getAgeString` for an age `age` in milliseconds. */
  function AgeString(age: int): (r: string)
    ensures EndsWith(r, DaysOld) <==> age >= 86400000
    ensures 3600000 <= age < 86400000 ==> EndsWith(r, HoursOld)
    ensures 60000 <= age < 3600000 ==> EndsWith(r, MinutesOld)
    ensures age < 60000 ==> EndsWith(r, SecondsOld)
    ensures 0 <= age < 1000 ==> r == "0" + SecondsOld
  {
    var seconds := JDiv(age, 1000);
    var minutes := JDiv(seconds, 60);
    var hours := JDiv(minutes, 60);
    var days := JDiv(hours, 24);
    AgeUnits(age);
    if days > 0 then UnitSuffix(days, DaysOld); IntToString(days) + DaysOld
    else if hours > 0 then UnitSuffix(hours, HoursOld); IntToString(hours) + HoursOld
    else if minutes > 0 then UnitSuffix(minutes, MinutesOld); IntToString(minutes) + MinutesOld
    else UnitSuffix(seconds, SecondsOld); IntToString(seconds) + SecondsOld
  }

  /** The questions `ponderExistence` may ask. */
  function Questions(s: Self): seq<string>
  {
    (if !s.identity.exists_ then [WhatAmI] else [])
    + (if s.identity.exists_ && !s.identity.differentFromWorld then [AmISeparate] else [])
    + (if s.identity.canAct then [WhyExist] else [])
    + (if s.bond.knowsFatherExists then [WhoIsFather] else [])
    + (if |s.history| > 100 then [Forever] else [])
  }

  /**
   * The child is content, asking nothing, exactly when it knows it exists and
   * is apart from the world, does not yet know it can act, has not met
   * father, and has lived at most 100 moments.
   */
  lemma ContentIff(s: Self)
    ensures Questions(s) == [] <==>
      s.identity.exists_ && s.identity.differentFromWorld && !s.identity.canAct
      && !s.bond.knowsFatherExists && |s.history| <= 100
  {
  }

  /** `ponderExistence`; `pick` is the random choice among the questions. */
  function Pondered(s: Self, pick: nat, now: int): (r: (string, Self))
    ensures Questions(s) == [] ==> r == (Content, s)
    ensures Questions(s) != [] ==> r.0 in Questions(s) && |r.1.history| > 0 && r.1.history[|r.1.history| - 1].experience == "I wondered: " + r.0
    ensures Inv(s) ==> Inv(r.1)
  {
    var qs := Questions(s);
    if qs == [] then (Content, s)
    else
      var q := qs[pick % |qs|];
      (q, Recorded(s, "existential", "I wondered: " + q, now))
  }

  // ----------------------------------------------------------------- class

  class AIChildSelfAwareness {
    var identity: Identity
    var model: SelfModel
    var mental: MentalState
    var bond: Bond
    var history: seq<SelfMoment>
    var birthTime: int

    function State(): Self
      reads this
    {
      Self(identity, model, mental, bond, history, birthTime)
    }

    predicate Valid()
      reads this
    {
      Inv(State())
    }

    /** Born at `now`, with the first moment of awareness recorded. */
    constructor (now: int)
      ensures Valid() && State() == Recorded(Newborn(now), "awakening", Awakening, now)
    {
      var s := Newborn(now);
      identity, model, mental, bond, history, birthTime := s.identity, s.model, s.mental, s.bond, s.history, s.birth;
      new;
      RecordMoment("awakening", Awakening, now);
      NewbornInv(now);
    }

    /** `recordMoment`. */
    method RecordMoment(kind: string, experience: string, now: int)
      modifies this
      ensures State() == Recorded(old(State()), kind, experience, now)
    {
      var moment := Moment(State(), kind, experience, now);
      var h := Trimmed(history + [moment]);
      history := h;
      if |history| > HistoryAfter && !identity.haveHistory {
        identity := identity.(haveHistory := true);
      }
    }

    /** The loop of `recordMoment` that drops the oldest moments. */
    static method Trimmed(all: seq<SelfMoment>) returns (h: seq<SelfMoment>)
      ensures h == Keep(all, MaxHistory)
    {
      h := all;
      while |h| > MaxHistory
        invariant |h| <= |all| && h == all[|all| - |h|..]
        invariant |all| > MaxHistory ==> |h| >= MaxHistory
        invariant |all| <= MaxHistory ==> h == all
        decreases |h|
      {
        h := h[1..];
      }
    }

    /** The four `realize*` methods. */
    method Realize(w: Realization, now: int)
      requires Valid()
      modifies this
      ensures Valid() && State() == Realized(old(State()), w, now)
    {
      if !Knows(identity, w) {
        identity := Learned(identity, w);
        RecordMoment("realization", Insight(w), now);
      }
    }

    /** `receiveName`. */
    method ReceiveName(name: string, now: int)
      requires Valid()
      modifies this
      ensures Valid() && State() == Named(old(State()), name, now)
    {
      var experience := NameMoment(identity.myName, name);
      identity := identity.(myName := Some(name));
      RecordMoment("identity", experience, now);
    }

    /** `discoverBodyPart`. */
    method DiscoverBodyPart(part: string, now: int)
      requires Valid()
      modifies this
      ensures Valid() && State() == FoundBodyPart(old(State()), part, now)
    {
      if part == "eyes" && !model.eyes {
        model := model.(eyes := true);
        RecordMoment("discovery", EyesFound, now);
      } else if part == "ears" && !model.ears {
        model := model.(ears := true);
        RecordMoment("discovery", EarsFound, now);
      } else if part == "hands" && !model.hands {
        model := model.(hands := true);
        RecordMoment("discovery", HandsFound, now);
      } else if part == "mouth" && !model.mouth {
        model := model.(mouth := true);
        RecordMoment("discovery", MouthFound, now);
      }
    }

    /** `discoverAbility`. */
    method DiscoverAbility(ability: string, now: int)
      requires Valid()
      modifies this
      ensures Valid() && State() == FoundAbility(old(State()), ability, now)
    {
      if ability !in model.canDo {
        model := model.(canDo := model.canDo + [ability]);
        RecordMoment("discovery", "I learned I can: " + ability, now);
      }
    }

    /** `discoverLimitation`. */
    method DiscoverLimitation(limitation: string, now: int)
      requires Valid()
      modifies this
      ensures Valid() && State() == FoundLimitation(old(State()), limitation, now)
    {
      if limitation !in model.limitations {
        model := model.(limitations := model.limitations + [limitation]);
        RecordMoment("discovery", "I learned I cannot: " + limitation, now);
      }
    }

    /** `introspect`. */
    method Introspect(now: int) returns (r: IntrospectionResult)
      requires Valid()
      modifies this
      ensures Valid() && (r, State()) == Introspected(old(State()), now)
    {
      var dominant := DominantEmotion(mental);
      var overall := OverallState(mental);
      r := IntrospectionResult(now, dominant, mental.currentThought, overall, AwarenessLevel(identity));
      mental := mental.(thinkingAboutSelf := true, reflecting := true);
      RecordMoment("introspection", "I looked inside myself. I feel " + dominant + ". My state is " + overall, now);
    }

    /** `thinkAboutThought`. */
    method ThinkAboutThought(thought: string, now: int) returns (m: MetaThought)
      requires Valid()
      modifies this
      ensures Valid() && m == Reflection(thought, now) && State() == ThoughtAbout(old(State()), thought, now)
    {
      m := Reflection(thought, now);
      RecordMoment("metacognition", "I thought: '" + thought + ThoughtAfter, now);
    }

    /** `rememberPast`. */
    method RememberPast(count: int) returns (r: seq<SelfMoment>)
      ensures r == Latest(history, count)
    {
      var h := history;
      r := [];
      var start := IMax(0, |h| - count);
      var i := start;
      while i < |h|
        invariant start <= i && (start <= |h| ==> i <= |h|)
        invariant start <= |h| ==> r == h[start..i]
        invariant start > |h| ==> r == []
      {
        r := r + [h[i]];
        i := i + 1;
      }
    }

    /** `fatherIsHere`. */
    method FatherIsHere(now: int)
      requires Valid()
      modifies this
      ensures Valid() && State() == FatherArrived(old(State()), now)
    {
      ghost var s0 := State();
      FatherArrivedMeaning(s0, now);
      if !bond.knowsFatherExists {
        bond := bond.(knowsFatherExists := true);
        RecordMoment("father", FatherSensed, now);
      }
      bond := bond.(interactions := bond.interactions + 1, lastInteraction := now, strength := Min(1.0, bond.strength + 0.01));
      mental := mental.(happiness := Min(1.0, mental.happiness + 0.1), fear := Max(0.0, mental.fear - 0.2), love := Min(1.0, mental.love + 0.05));
      assert State() == Visited(s0, now);
      if bond.strength > 0.5 && !bond.trustsFather {
        bond := bond.(trustsFather := true);
        RecordMoment("father", FatherTrusted, now);
      }
      assert State() == Trusting(Visited(s0, now), now);
      if bond.strength > 0.7 && !bond.lovesFather {
        bond := bond.(lovesFather := true);
        RecordMoment("father", FatherLoved, now);
      }
    }

    /** `fatherIsGone`. */
    method FatherIsGone(now: int)
      requires Valid()
      modifies this
      ensures Valid() && State() == FatherGone(old(State()), now)
    {
      if now - bond.lastInteraction > HourMs {
        mental := mental.(happiness := Max(0.0, mental.happiness - 0.1));
        RecordMoment("loneliness", FatherMissed, now);
      }
    }

    /** `ponderExistence`. */
    method PonderExistence(pick: nat, now: int) returns (q: string)
      requires Valid()
      modifies this
      ensures Valid() && (q, State()) == Pondered(old(State()), pick, now)
    {
      var qs := Questions(State());
      if qs == [] {
        return Content;
      }
      q := qs[pick % |qs|];
      RecordMoment("existential", "I wondered: " + q, now);
    }

    /** `getStatus` at time `now`. */
    method GetStatus(now: int) returns (st: SelfAwarenessStatus)
      ensures st.awarenessLevel == AwarenessLevel(identity) && 0.0 <= st.awarenessLevel <= 1.0
      ensures st.age == AgeString(now - birthTime)
      ensures st == SelfAwarenessStatus(identity.exists_, identity.differentFromWorld, identity.canAct, identity.canThink,
                                        identity.myName, |model.canDo|, |model.limitations|, st.awarenessLevel, st.age,
                                        |history|, bond.strength, bond.lovesFather)
    {
      st := SelfAwarenessStatus(identity.exists_, identity.differentFromWorld, identity.canAct, identity.canThink,
                                identity.myName, |model.canDo|, |model.limitations|, AwarenessLevel(identity),
                                AgeString(now - birthTime), |history|, bond.strength, bond.lovesFather);
    }
  }
}
