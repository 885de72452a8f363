// The survival core: three resources (energy, integrity, stability), the
// drives (curiosity, hunger, fear, comfort, loneliness) and four memories:
// pain and pleasure per stimulus key, a single remembered effect per cause,
// and trust per entity.  Every operation is specified by a pure function on
// the abstract value `Core`; the class `AIChildPrimitiveCore` updates its
// fields in place and is proved to follow those functions.
module PrimitiveCore {
  import opened Common

  /** Milliseconds between two energy drains and before loneliness sets in. */
  const DrainInterval := 10000
  const LonelinessInterval := 60000
  /** Trust of an entity never seen before. */
  const DefaultTrust: real := 50.0

  datatype ReactionType = Fear | Pleasure | Curious | Cautious | Neutral
  datatype ExpressionType = Distress | Fear | Seeking | Content | Curious | Neutral
  datatype InteractionType = GentleTouch | Feeding | Teaching | Presence | Harm | Abandonment

  datatype Response = Response(reaction: ReactionType, intensity: real)
  datatype PrimitiveExpression = PrimitiveExpression(kind: ExpressionType, intensity: real)

  /** The record `tick` reports; fields that are not filled keep Java's default 0. */
  datatype SurvivalState = SurvivalState(
    isAlive: bool, causeOfDeath: Option<string>,
    energy: real, integrity: real, stability: real,
    hunger: real, fear: real, comfort: real, loneliness: real, curiosity: real,
    finalEnergy: real, finalIntegrity: real, finalStability: real,
    existenceTime: int)

  datatype Core = Core(
    energy: real, integrity: real, stability: real,
    pain: map<string, real>, pleasure: map<string, real>,
    curiosity: real, patterns: map<string, string>, bonding: map<string, real>,
    hunger: real, fear: real, comfort: real, loneliness: real,
    lastDrain: int, lastInteraction: int, existenceStart: int)

  /**
   * What holds after any sequence of operations, whatever their arguments:
   * stability stays in [0, 100]; energy, fear, every pain and every pleasure
   * stay at most 100; hunger and loneliness never go negative; trust stays in
   * [0, 100]; and no stimulus is remembered as both painful and pleasant.
   */
  predicate Inv(c: Core)
  {
    && 0.0 <= c.stability <= 100.0
    && c.energy <= 100.0 && c.fear <= 100.0
    && 0.0 <= c.hunger && 0.0 <= c.loneliness
    && (forall k :: k in c.pain ==> c.pain[k] <= 100.0)
    && (forall k :: k in c.pleasure ==> c.pleasure[k] <= 100.0)
    && (forall k :: k in c.bonding ==> 0.0 <= c.bonding[k] <= 100.0)
    && c.pain.Keys !! c.pleasure.Keys
  }

  /**
   * The further bounds that hold while every magnitude and intensity passed
   * in is non-negative (the source never checks the sign).
   */
  predicate Bounded(c: Core)
  {
    && 0.0 <= c.energy && 0.0 <= c.integrity <= 100.0
    && 0.0 <= c.curiosity <= 100.0 && 0.0 <= c.fear
    && c.hunger <= 100.0 && 0.0 <= c.comfort
    && (forall k :: k in c.pain ==> 0.0 <= c.pain[k])
    && (forall k :: k in c.pleasure ==> 0.0 <= c.pleasure[k])
  }

  function Initial(now: int): (c: Core)
    ensures Inv(c) && Bounded(c)
  {
    Core(100.0, 100.0, 100.0, map[], map[], 80.0, map[], map[],
         0.0, 0.0, 50.0, 0.0, now, now, now)
  }

  // ------------------------------------------------------------------ tick

  /** First stage of `tick`: metabolism drains energy at most once per interval. */
  function Drain(c: Core, now: int): Core
  {
    if now - c.lastDrain > DrainInterval then
      var e := Max(0.0, c.energy - 0.1);
      c.(energy := e, lastDrain := now, hunger := 100.0 - e)
    else c
  }

  /** Second stage of `tick`: loneliness grows, comfort fades, without interaction. */
  function Isolation(c: Core, now: int): Core
  {
    if now - c.lastInteraction > LonelinessInterval then
      c.(loneliness := Min(100.0, c.loneliness + 0.1), comfort := Max(0.0, c.comfort - 0.05))
    else c
  }

  /** Third stage of `tick`: fear or loneliness erode stability. */
  function Chaos(c: Core): Core
  {
    if c.fear > 50.0 || c.loneliness > 70.0 then c.(stability := Max(0.0, c.stability - 0.1)) else c
  }

  /** The state change of `tick`. */
  function TickState(c: Core, now: int): Core
  {
    Chaos(Isolation(Drain(c, now), now))
  }

  /** `tick` drains energy, and sets the drain time and hunger, exactly once the drain interval has passed. */
  lemma TickDrain(c: Core, now: int)
    ensures var r := TickState(c, now);
            now - c.lastDrain > DrainInterval ==>
              r.lastDrain == now && r.energy == Max(0.0, c.energy - 0.1) && r.hunger == 100.0 - r.energy
    ensures var r := TickState(c, now);
            now - c.lastDrain <= DrainInterval ==>
              r.lastDrain == c.lastDrain && r.energy == c.energy && r.hunger == c.hunger
  {
    var d := Drain(c, now);
    assert d.lastDrain == Isolation(d, now).lastDrain && d.energy == Isolation(d, now).energy;
  }

  /**
   * Loneliness moves only after a minute without interaction; stability drops
   * when the child is frightened or lonely; the memories, integrity, curiosity
   * and fear stay as they were.
   */
  lemma TickDrives(c: Core, now: int)
    ensures TickState(c, now).loneliness != c.loneliness ==> now - c.lastInteraction > LonelinessInterval
    ensures var r := TickState(c, now);
            r.stability == (if c.fear > 50.0 || r.loneliness > 70.0 then Max(0.0, c.stability - 0.1) else c.stability)
    ensures var r := TickState(c, now);
            r.pain == c.pain && r.pleasure == c.pleasure && r.patterns == c.patterns && r.bonding == c.bonding
    ensures var r := TickState(c, now); r.integrity == c.integrity && r.curiosity == c.curiosity && r.fear == c.fear
  {
    var d := Drain(c, now);
    assert d.fear == c.fear && d.stability == c.stability && d.loneliness == c.loneliness
        && d.lastInteraction == c.lastInteraction;
  }

  /** `tick` keeps the invariant, and the further bounds. */
  lemma TickKeeps(c: Core, now: int)
    requires Inv(c)
    ensures Inv(TickState(c, now))
    ensures Bounded(c) ==> Bounded(TickState(c, now))
  {
    var d := Drain(c, now);
    var i := Isolation(d, now);
    DrainKeeps(c, now);
    IsolationKeeps(d, now);
    ChaosKeeps(i);
  }

  lemma DrainKeeps(c: Core, now: int)
    ensures Inv(c) ==> Inv(Drain(c, now))
    ensures Bounded(c) ==> Bounded(Drain(c, now))
  {
  }

  lemma IsolationKeeps(c: Core, now: int)
    ensures Inv(c) ==> Inv(Isolation(c, now))
    ensures Bounded(c) ==> Bounded(Isolation(c, now))
  {
  }

  lemma ChaosKeeps(c: Core)
    ensures Inv(c) ==> Inv(Chaos(c))
    ensures Bounded(c) ==> Bounded(Chaos(c))
  {
  }

  predicate IsDead(c: Core)
  {
    c.energy <= 0.0 || c.integrity <= 0.0 || c.stability <= 0.0
  }

  /** The cause `handleDeath` names, checked in a fixed order. */
  function DeathCause(c: Core): (cause: string)
    requires IsDead(c)
    ensures cause == "energy_depletion" <==> c.energy <= 0.0
    ensures cause == "integrity_failure" <==> 0.0 < c.energy && c.integrity <= 0.0
    ensures cause == "stability_collapse" <==> 0.0 < c.energy && 0.0 < c.integrity
  {
    if c.energy <= 0.0 then "energy_depletion"
    else if c.integrity <= 0.0 then "integrity_failure"
    else "stability_collapse"
  }

  function AliveReport(c: Core, now: int): SurvivalState
  {
    SurvivalState(true, None, c.energy, c.integrity, c.stability, c.hunger, c.fear,
                  c.comfort, c.loneliness, c.curiosity, 0.0, 0.0, 0.0, now - c.existenceStart)
  }

  function DeathReport(c: Core): SurvivalState
    requires IsDead(c)
  {
    SurvivalState(false, Some(DeathCause(c)), 0.0, 0.0, 0.0, 0.0, 0.0, 0.0, 0.0, 0.0,
                  c.energy, c.integrity, c.stability, 0)
  }

  /** What `tick` returns for the state it has just computed. */
  function Report(c: Core, now: int): (st: SurvivalState)
    ensures !st.isAlive <==> IsDead(c)
    ensures st.isAlive ==> st.causeOfDeath == None && st.energy == c.energy && st.integrity == c.integrity
                           && st.stability == c.stability && st.existenceTime == now - c.existenceStart
    ensures !st.isAlive ==> st.causeOfDeath.Some? && st.finalEnergy == c.energy
                            && st.finalIntegrity == c.integrity && st.finalStability == c.stability
  {
    if IsDead(c) then DeathReport(c) else AliveReport(c, now)
  }

  // -------------------------------------------------------------- stimulus

  function StimulusKey(kind: string, data: string): string
  {
    kind + ":" + data
  }

  /** The reaction `processStimulus` chooses, from the state it was called in. */
  function Reaction(c: Core, key: string): (r: Response)
    ensures r.reaction == ReactionType.Fear <==> key in c.pain
    ensures r.reaction == ReactionType.Pleasure <==> key !in c.pain && key in c.pleasure
    ensures r.reaction == ReactionType.Curious <==> key !in c.pain && key !in c.pleasure && c.curiosity > 30.0
    ensures r.reaction == ReactionType.Cautious <==> key !in c.pain && key !in c.pleasure && c.curiosity <= 30.0
    ensures r.reaction == ReactionType.Fear ==> r.intensity == c.pain[key]
    ensures r.reaction == ReactionType.Pleasure ==> r.intensity == c.pleasure[key]
    ensures r.reaction == ReactionType.Curious ==> r.intensity == c.curiosity * 0.5
    ensures r.reaction == ReactionType.Cautious ==> r.intensity == 50.0 - c.curiosity
  {
    if key in c.pain then Response(ReactionType.Fear, c.pain[key])
    else if key in c.pleasure then Response(ReactionType.Pleasure, c.pleasure[key])
    else if c.curiosity > 30.0 then Response(ReactionType.Curious, c.curiosity * 0.5)
    else Response(ReactionType.Cautious, 50.0 - c.curiosity)
  }

  /** The state change of `processStimulus`. */
  function StimulusState(c: Core, kind: string, data: string, intensity: real, now: int): (r: Core)
    ensures r.pain == c.pain && r.pleasure == c.pleasure && r.bonding == c.bonding
    ensures r.loneliness == Max(0.0, c.loneliness - intensity * 10.0) && r.lastInteraction == now
    ensures r.patterns != c.patterns ==> r.patterns == c.patterns["last_unknown" := StimulusKey(kind, data)]
    ensures r.stability == c.stability && r.integrity == c.integrity && r.curiosity == c.curiosity
  {
    StimulusReaction(c.(lastInteraction := now, loneliness := Max(0.0, c.loneliness - intensity * 10.0)),
                     StimulusKey(kind, data))
  }

  /** The part of `processStimulus` that depends on what the child knows about the stimulus. */
  function StimulusReaction(c: Core, key: string): Core
  {
    if key in c.pain then
      c.(fear := Min(100.0, c.fear + c.pain[key]))
    else if key in c.pleasure then
      var p := c.pleasure[key];
      c.(comfort := Min(100.0, c.comfort + p), energy := Min(100.0, c.energy + p * 0.5))
    else if c.curiosity > 30.0 then
      c.(energy := Max(0.0, c.energy - 0.5), patterns := c.patterns["last_unknown" := key])
    else c
  }

  // --------------------------------------------------------------- outcome

  /** The state change of `learnFromOutcome`. */
  function OutcomeState(c: Core, key: string, positive: bool, magnitude: real): (r: Core)
    ensures positive ==> key in r.pleasure && key !in r.pain
                         && r.pleasure[key] == Min(100.0, LookupOr(c.pleasure, key, 0.0) + magnitude)
                         && r.pain == c.pain - {key} && r.pleasure == c.pleasure[key := r.pleasure[key]]
    ensures !positive ==> key in r.pain && key !in r.pleasure
                          && r.pain[key] == Min(100.0, LookupOr(c.pain, key, 0.0) + magnitude)
                          && r.pleasure == c.pleasure - {key} && r.pain == c.pain[key := r.pain[key]]
    ensures r.stability == c.stability && r.energy == c.energy && r.bonding == c.bonding
  {
    if positive then
      c.(pleasure := c.pleasure[key := Min(100.0, LookupOr(c.pleasure, key, 0.0) + magnitude)],
         pain := c.pain - {key},
         curiosity := Min(100.0, c.curiosity + magnitude * 0.1))
    else
      c.(pain := c.pain[key := Min(100.0, LookupOr(c.pain, key, 0.0) + magnitude)],
         pleasure := c.pleasure - {key},
         curiosity := Max(10.0, c.curiosity - magnitude * 0.05),
         integrity := Max(0.0, c.integrity - magnitude * 0.1))
  }

  // ------------------------------------------------------------ bonding

  function TrustChange(kind: InteractionType): real
  {
    match kind
    case GentleTouch => 5.0
    case Feeding => 10.0
    case Teaching => 3.0
    case Presence => 1.0
    case Harm => -20.0
    case Abandonment => -5.0
  }

  function Trust(c: Core, entity: string): (t: real)
    ensures Inv(c) ==> 0.0 <= t <= 100.0
    ensures entity !in c.bonding ==> t == DefaultTrust
  {
    LookupOr(c.bonding, entity, DefaultTrust)
  }

  function Clamp100(x: real): real { Max(0.0, Min(100.0, x)) }

  /** The drive and resource changes of one interaction kind, before trust is updated. */
  function InteractionEffect(c: Core, kind: InteractionType): Core
  {
    match kind
    case GentleTouch => c.(comfort := c.comfort + 10.0, energy := Min(100.0, c.energy + 2.0))
    case Feeding => c.(energy := Min(100.0, c.energy + 30.0), hunger := Max(0.0, c.hunger - 30.0))
    case Teaching => c.(curiosity := Min(100.0, c.curiosity + 5.0))
    case Presence => c.(loneliness := Max(0.0, c.loneliness - 20.0), comfort := c.comfort + 5.0)
    case Harm => c.(fear := Min(100.0, c.fear + 30.0), integrity := Max(0.0, c.integrity - 10.0))
    case Abandonment => c.(loneliness := c.loneliness + 30.0)
  }

  /** The state change of `processEntityInteraction`. */
  function InteractionState(c: Core, entity: string, kind: InteractionType, now: int): Core
  {
    InteractionEffect(c, kind).(bonding := c.bonding[entity := Clamp100(Trust(c, entity) + TrustChange(kind))],
                                lastInteraction := now)
  }

  /**
   * An interaction sets the entity's trust to the clamped sum of its old trust
   * and the kind's change, marks the time, leaves the memories and stability
   * alone, and moves the drives its kind names.
   */
  lemma InteractionEffects(c: Core, entity: string, kind: InteractionType, now: int)
    ensures var r := InteractionState(c, entity, kind, now);
            r.bonding == c.bonding[entity := Clamp100(Trust(c, entity) + TrustChange(kind))] && r.lastInteraction == now
    ensures var r := InteractionState(c, entity, kind, now);
            r.pain == c.pain && r.pleasure == c.pleasure && r.patterns == c.patterns && r.stability == c.stability
    ensures var r := InteractionState(c, entity, kind, now);
            kind == Feeding ==> r.energy == Min(100.0, c.energy + 30.0) && r.hunger == Max(0.0, c.hunger - 30.0)
    ensures var r := InteractionState(c, entity, kind, now);
            kind == Harm ==> r.fear == Min(100.0, c.fear + 30.0) && r.integrity == Max(0.0, c.integrity - 10.0)
    ensures kind == Abandonment ==> InteractionState(c, entity, kind, now).loneliness == c.loneliness + 30.0
  {
  }

  // -------------------------------------------------------------- patterns

  /** The state change of `recordPattern`: the first effect seen for a cause is kept. */
  function PatternState(c: Core, cause: string, effect: string): (r: Core)
    ensures cause in r.patterns
    ensures cause !in c.patterns ==> r == c.(patterns := c.patterns[cause := effect])
    ensures cause in c.patterns && c.patterns[cause] == effect ==> r == c
    ensures cause in c.patterns && c.patterns[cause] != effect ==> r == c.(stability := Max(0.0, c.stability - 1.0))
  {
    if cause !in c.patterns then c.(patterns := c.patterns[cause := effect])
    else if c.patterns[cause] == effect then c
    else c.(stability := Max(0.0, c.stability - 1.0))
  }

  function PredictOutcome(c: Core, cause: string): (r: Option<string>)
    ensures r.Some? <==> cause in c.patterns
    ensures r.Some? ==> r.value == c.patterns[cause]
  {
    if cause in c.patterns then Some(c.patterns[cause]) else None
  }

  // ------------------------------------------------------------ expression

  /** The expression type and intensity `express` chooses (the sound is random). */
  function Express(c: Core): (e: PrimitiveExpression)
    ensures e.kind == ExpressionType.Distress <==> c.hunger > 70.0
    ensures e.kind == ExpressionType.Fear <==> c.hunger <= 70.0 && c.fear > 60.0
    ensures e.kind == ExpressionType.Seeking <==> c.hunger <= 70.0 && c.fear <= 60.0 && c.loneliness > 60.0
    ensures e.kind == ExpressionType.Content <==>
              c.hunger <= 70.0 && c.fear <= 60.0 && c.loneliness <= 60.0 && c.comfort > 70.0 && c.energy > 50.0
    ensures e.kind == ExpressionType.Curious <==>
              c.hunger <= 70.0 && c.fear <= 60.0 && c.loneliness <= 60.0
              && !(c.comfort > 70.0 && c.energy > 50.0) && c.curiosity > 60.0
    ensures e.kind == ExpressionType.Neutral ==> e.intensity == 50.0
    ensures e.kind == ExpressionType.Distress ==> e.intensity == c.hunger
    ensures e.kind == ExpressionType.Content ==> e.intensity == c.comfort
    ensures e.kind == ExpressionType.Fear ==> e.intensity == c.fear
    ensures e.kind == ExpressionType.Seeking ==> e.intensity == c.loneliness
    ensures e.kind == ExpressionType.Curious ==> e.intensity == c.curiosity
  {
    if c.hunger > 70.0 then PrimitiveExpression(ExpressionType.Distress, c.hunger)
    else if c.fear > 60.0 then PrimitiveExpression(ExpressionType.Fear, c.fear)
    else if c.loneliness > 60.0 then PrimitiveExpression(ExpressionType.Seeking, c.loneliness)
    else if c.comfort > 70.0 && c.energy > 50.0 then PrimitiveExpression(ExpressionType.Content, c.comfort)
    else if c.curiosity > 60.0 then PrimitiveExpression(ExpressionType.Curious, c.curiosity)
    else PrimitiveExpression(ExpressionType.Neutral, 50.0)
  }

  // --------------------------------------------------------------- rebirth

  /** The pain memory a rebirth starts with, built the way the loop in `rebirth` builds it. */
  function DeathPain(causes: seq<string>): map<string, real>
  {
    if causes == [] then map[]
    else DeathPain(causes[..|causes| - 1])[causes[|causes| - 1] := 100.0]
  }

  /** That memory holds exactly the causes, each at the maximal pain 100. */
  lemma {:induction false} DeathPainMeaning(causes: seq<string>)
    ensures DeathPain(causes).Keys == set i | 0 <= i < |causes| :: causes[i]
    ensures forall k :: k in DeathPain(causes) ==> DeathPain(causes)[k] == 100.0
  {
    if causes != [] {
      var init := causes[..|causes| - 1];
      DeathPainMeaning(init);
      assert forall i :: 0 <= i < |init| ==> init[i] == causes[i];
      assert (set i | 0 <= i < |causes| :: causes[i]) == (set i | 0 <= i < |init| :: init[i]) + {causes[|causes| - 1]};
    }
  }

  /** The state `rebirth` starts from: only the death causes are remembered, as maximal pain. */
  function Reborn(causes: seq<string>, now: int): Core
  {
    Core(100.0, 100.0, 100.0, DeathPain(causes), map[], 80.0, map[], map[],
         0.0, 10.0, 50.0, 30.0, now, now, now)
  }

  // ------------------------------------------------------------ properties

  /** A stimulus keeps the invariant, and the further bounds when its intensity is non-negative. */
  lemma StimulusKeeps(c: Core, kind: string, data: string, intensity: real, now: int)
    ensures Inv(c) ==> Inv(StimulusState(c, kind, data, intensity, now))
    ensures Bounded(c) && 0.0 <= intensity ==> Bounded(StimulusState(c, kind, data, intensity, now))
  {
  }

  /** Learning keeps the invariant, and the further bounds when the magnitude is non-negative. */
  lemma OutcomeKeeps(c: Core, key: string, positive: bool, magnitude: real)
    ensures Inv(c) ==> Inv(OutcomeState(c, key, positive, magnitude))
    ensures Bounded(c) && 0.0 <= magnitude ==> Bounded(OutcomeState(c, key, positive, magnitude))
  {
  }

  /** An interaction keeps the invariant and the further bounds; trust stays in [0, 100]. */
  lemma InteractionKeeps(c: Core, entity: string, kind: InteractionType, now: int)
    ensures Inv(c) ==> Inv(InteractionState(c, entity, kind, now))
    ensures Bounded(c) ==> Bounded(InteractionState(c, entity, kind, now))
  {
  }

  /** Recording a pattern keeps the invariant and the further bounds. */
  lemma PatternKeeps(c: Core, cause: string, effect: string)
    ensures Inv(c) ==> Inv(PatternState(c, cause, effect))
    ensures Bounded(c) ==> Bounded(PatternState(c, cause, effect))
  {
  }

  /** A reborn state satisfies the invariant and the further bounds. */
  lemma RebornValid(causes: seq<string>, now: int)
    ensures Inv(Reborn(causes, now)) && Bounded(Reborn(causes, now))
    ensures Reborn(causes, now).pain.Keys == set i | 0 <= i < |causes| :: causes[i]
  {
    DeathPainMeaning(causes);
  }

  /** Two ticks at the same instant drain energy at most once. */
  lemma TickDrainsOncePerInstant(c: Core, now: int)
    ensures TickState(TickState(c, now), now).energy == TickState(c, now).energy
    ensures TickState(TickState(c, now), now).hunger == TickState(c, now).hunger
    ensures TickState(TickState(c, now), now).lastDrain == TickState(c, now).lastDrain
  {
    TickDrain(c, now);
    TickDrain(TickState(c, now), now);
  }

  /** Death is not sticky: a dead state ticked again is reported dead again. */
  lemma DeathReportedAgain(c: Core, now: int, later: int)
    requires Inv(c) && IsDead(TickState(c, now))
    ensures !Report(TickState(TickState(c, now), later), later).isAlive
  {
  }

  /**
   * A stimulus creates no pain or pleasure memory and leaves curiosity alone,
   * so it never changes how any stimulus is classified afterwards.
   */
  lemma StimulusKeepsClassification(c: Core, kind: string, data: string, intensity: real, now: int, key: string)
    ensures Reaction(StimulusState(c, kind, data, intensity, now), key) == Reaction(c, key)
  {
  }

  /** A positive outcome followed by a weaker negative one leaves only the pain. */
  lemma OutcomeOverwrites(c: Core, k: string)
    requires Inv(c)
    ensures var r := OutcomeState(OutcomeState(c, k, true, 10.0), k, false, 5.0);
            k in r.pain && r.pain[k] == 5.0 && k !in r.pleasure
  {
  }

  /** Learning that "touch:hold" was pleasant makes the next touch/hold a PLEASURE reaction. */
  lemma LearnedPleasureIsRecognised(c: Core, intensity: real, now: int)
    requires Inv(c)
    ensures var learned := OutcomeState(c, "touch:hold", true, 20.0);
            Reaction(learned, StimulusKey("touch", "hold")).reaction == ReactionType.Pleasure
  {
    assert StimulusKey("touch", "hold") == "touch:hold";
  }

  /** `recordPattern` keeps the first effect: predicting after any later record gives it back. */
  lemma {:induction false} FirstEffectWins(c: Core, cause: string, effects: seq<string>)
    requires Inv(c) && |effects| > 0 && cause !in c.patterns
    ensures PredictOutcome(RecordAll(c, cause, effects), cause) == Some(effects[0])
    ensures RecordAll(c, cause, effects).stability <= c.stability
    decreases |effects|
  {
    if |effects| > 1 {
      FirstEffectWinsFrom(PatternState(c, cause, effects[0]), cause, effects[1..], effects[0]);
    }
  }

  function RecordAll(c: Core, cause: string, effects: seq<string>): Core
    decreases |effects|
  {
    if effects == [] then c else RecordAll(PatternState(c, cause, effects[0]), cause, effects[1..])
  }

  lemma {:induction false} FirstEffectWinsFrom(c: Core, cause: string, effects: seq<string>, first: string)
    requires Inv(c) && cause in c.patterns && c.patterns[cause] == first
    ensures var r := RecordAll(c, cause, effects); cause in r.patterns && r.patterns[cause] == first
    ensures RecordAll(c, cause, effects).stability <= c.stability
    decreases |effects|
  {
    if effects != [] {
      FirstEffectWinsFrom(PatternState(c, cause, effects[0]), cause, effects[1..], first);
    }
  }

  /** A reborn child fears exactly its ancestors' causes of death and nothing else. */
  lemma RebornFearsDeathCauses(causes: seq<string>, now: int, key: string)
    ensures Reaction(Reborn(causes, now), key).reaction == ReactionType.Fear <==> key in causes
    ensures key in causes ==> Reaction(Reborn(causes, now), key).intensity == 100.0
  {
    DeathPainMeaning(causes);
    if key in causes {
      var i :| 0 <= i < |causes| && causes[i] == key;
    }
  }

  // ----------------------------------------------------------------- class

  class AIChildPrimitiveCore {
    var energy: real
    var integrity: real
    var stability: real
    var pain: map<string, real>
    var pleasure: map<string, real>
    var curiosity: real
    var patterns: map<string, string>
    var bonding: map<string, real>
    var hunger: real
    var fear: real
    var comfort: real
    var loneliness: real
    var lastDrain: int
    var lastInteraction: int
    var existenceStart: int

    function State(): Core
      reads this
    {
      Core(energy, integrity, stability, pain, pleasure, curiosity, patterns, bonding,
           hunger, fear, comfort, loneliness, lastDrain, lastInteraction, existenceStart)
    }

    predicate Valid()
      reads this
    {
      Inv(State())
    }

    constructor (now: int)
      ensures State() == Initial(now) && Valid()
    {
      energy, integrity, stability := 100.0, 100.0, 100.0;
      pain, pleasure, patterns, bonding := map[], map[], map[], map[];
      curiosity, hunger, fear, comfort, loneliness := 80.0, 0.0, 0.0, 50.0, 0.0;
      existenceStart := now;
      lastDrain, lastInteraction := now, now;
    }

    method Tick(now: int) returns (st: SurvivalState)
      modifies this
      ensures State() == TickState(old(State()), now)
      ensures st == Report(State(), now)
    {
      Metabolize(now);
      Isolate(now);
      Destabilize();
      if energy <= 0.0 || integrity <= 0.0 || stability <= 0.0 {
        st := HandleDeath();
      } else {
        st := CurrentState(now);
      }
    }

    method Metabolize(now: int)
      modifies this
      ensures State() == Drain(old(State()), now)
    {
      if now - lastDrain > DrainInterval {
        energy := Max(0.0, energy - 0.1);
        lastDrain := now;
        hunger := 100.0 - energy;
      }
    }

    method Isolate(now: int)
      modifies this
      ensures State() == Isolation(old(State()), now)
    {
      if now - lastInteraction > LonelinessInterval {
        loneliness := Min(100.0, loneliness + 0.1);
        comfort := Max(0.0, comfort - 0.05);
      }
    }

    method Destabilize()
      modifies this
      ensures State() == Chaos(old(State()))
    {
      if fear > 50.0 || loneliness > 70.0 {
        stability := Max(0.0, stability - 0.1);
      }
    }

    method HandleDeath() returns (st: SurvivalState)
      requires IsDead(State())
      ensures st == DeathReport(State())
    {
      var cause;
      if energy <= 0.0 {
        cause := "energy_depletion";
      } else if integrity <= 0.0 {
        cause := "integrity_failure";
      } else {
        cause := "stability_collapse";
      }
      st := SurvivalState(false, Some(cause), 0.0, 0.0, 0.0, 0.0, 0.0, 0.0, 0.0, 0.0,
                          energy, integrity, stability, 0);
    }

    method CurrentState(now: int) returns (st: SurvivalState)
      ensures st == AliveReport(State(), now)
      ensures st.isAlive && st.energy == energy && st.existenceTime == now - existenceStart
    {
      st := SurvivalState(true, None, energy, integrity, stability, hunger, fear, comfort,
                          loneliness, curiosity, 0.0, 0.0, 0.0, now - existenceStart);
    }

    method ProcessStimulus(kind: string, data: string, intensity: real, now: int) returns (resp: Response)
      modifies this
      ensures resp == Reaction(old(State()), StimulusKey(kind, data))
      ensures State() == StimulusState(old(State()), kind, data, intensity, now)
    {
      lastInteraction := now;
      loneliness := Max(0.0, loneliness - intensity * 10.0);
      resp := React(kind + ":" + data);
    }

    method React(key: string) returns (resp: Response)
      modifies this
      ensures resp == Reaction(old(State()), key)
      ensures State() == StimulusReaction(old(State()), key)
    {
      if key in pain {
        var level := pain[key];
        fear := Min(100.0, fear + level);
        resp := Response(ReactionType.Fear, level);
      } else if key in pleasure {
        var level := pleasure[key];
        comfort := Min(100.0, comfort + level);
        energy := Min(100.0, energy + level * 0.5);
        resp := Response(ReactionType.Pleasure, level);
      } else if curiosity > 30.0 {
        resp := Response(ReactionType.Curious, curiosity * 0.5);
        energy := Max(0.0, energy - 0.5);
        patterns := patterns["last_unknown" := key];
      } else {
        resp := Response(ReactionType.Cautious, 50.0 - curiosity);
      }
    }

    method LearnFromOutcome(key: string, positive: bool, magnitude: real)
      modifies this
      ensures State() == OutcomeState(old(State()), key, positive, magnitude)
    {
      if positive {
        var current := if key in pleasure then pleasure[key] else 0.0;
        pleasure := pleasure[key := Min(100.0, current + magnitude)];
        pain := pain - {key};
        curiosity := Min(100.0, curiosity + magnitude * 0.1);
      } else {
        var current := if key in pain then pain[key] else 0.0;
        pain := pain[key := Min(100.0, current + magnitude)];
        pleasure := pleasure - {key};
        curiosity := Max(10.0, curiosity - magnitude * 0.05);
        integrity := Max(0.0, integrity - magnitude * 0.1);
      }
    }

    method ProcessEntityInteraction(entity: string, kind: InteractionType, now: int)
      modifies this
      ensures State() == InteractionState(old(State()), entity, kind, now)
    {
      var change := ApplyInteraction(kind);
      var current := if entity in bonding then bonding[entity] else DefaultTrust;
      bonding := bonding[entity := Max(0.0, Min(100.0, current + change))];
      lastInteraction := now;
    }

    /** The switch of `processEntityInteraction`: the drive changes and the trust change of the kind. */
    method ApplyInteraction(kind: InteractionType) returns (change: real)
      modifies this
      ensures change == TrustChange(kind)
      ensures State() == InteractionEffect(old(State()), kind)
    {
      match kind {
        case GentleTouch =>
          change := 5.0;
          comfort := comfort + 10.0;
          energy := Min(100.0, energy + 2.0);
        case Feeding =>
          change := 10.0;
          energy := Min(100.0, energy + 30.0);
          hunger := Max(0.0, hunger - 30.0);
        case Teaching =>
          change := 3.0;
          curiosity := Min(100.0, curiosity + 5.0);
        case Presence =>
          change := 1.0;
          loneliness := Max(0.0, loneliness - 20.0);
          comfort := comfort + 5.0;
        case Harm =>
          change := -20.0;
          fear := Min(100.0, fear + 30.0);
          integrity := Max(0.0, integrity - 10.0);
        case Abandonment =>
          change := -5.0;
          loneliness := loneliness + 30.0;
      }
    }

    method RecordPattern(cause: string, effect: string)
      modifies this
      ensures State() == PatternState(old(State()), cause, effect)
    {
      if cause !in patterns {
        patterns := patterns[cause := effect];
      } else if patterns[cause] != effect {
        stability := Max(0.0, stability - 1.0);
      }
    }

    method Rebirth(causes: seq<string>, now: int)
      modifies this
      ensures State() == Reborn(causes, now)
    {
      ResetResources();
      ClearMemories(causes);
      ResetDrives();
      ResetTimers(now);
    }

    method ResetResources()
      modifies this
      ensures State() == old(State()).(energy := 100.0, integrity := 100.0, stability := 100.0)
    {
      energy, integrity, stability := 100.0, 100.0, 100.0;
    }

    /** The individual's memories die with it, except the causes of death, kept as maximal pain. */
    method ClearMemories(causes: seq<string>)
      modifies this
      ensures State() == old(State()).(pleasure := map[], patterns := map[], bonding := map[], pain := DeathPain(causes))
    {
      pleasure, patterns, bonding := map[], map[], map[];
      pain := DeathFears(causes);
    }

    method ResetDrives()
      modifies this
      ensures State() == old(State()).(curiosity := 80.0, hunger := 0.0, fear := 10.0, comfort := 50.0, loneliness := 30.0)
    {
      curiosity, hunger, fear, comfort, loneliness := 80.0, 0.0, 10.0, 50.0, 30.0;
    }

    method ResetTimers(now: int)
      modifies this
      ensures State() == old(State()).(existenceStart := now, lastDrain := now, lastInteraction := now)
    {
      existenceStart := now;
      lastDrain, lastInteraction := now, now;
    }

    /** The loop of `rebirth` that marks every cause of death as maximal pain. */
    static method DeathFears(causes: seq<string>) returns (fears: map<string, real>)
      ensures fears == DeathPain(causes)
    {
      fears := map[];
      var i := 0;
      while i < |causes|
        invariant 0 <= i <= |causes|
        invariant fears == DeathPain(causes[..i])
      {
        assert causes[..i + 1][..i] == causes[..i];
        fears := fears[causes[i] := 100.0];
        i := i + 1;
      }
      assert causes[..i] == causes;
    }

    function TrustLevel(entity: string): (t: real)
      reads this
      requires Valid()
      ensures 0.0 <= t <= 100.0
      ensures entity !in bonding ==> t == DefaultTrust
    {
      if entity in bonding then bonding[entity] else DefaultTrust
    }
  }
}
