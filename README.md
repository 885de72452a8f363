# AIChildOS learning core in Dafny

This project models the learning core of AIChildOS: twelve in-memory
components of `frameworks/base/services/core/java/com/android/server/aichild/`.
An AI "child" uses them to survive, remember, notice patterns, name things,
plan, explore its body, and recognise itself and its father. Each Java file
becomes one Dafny module named after it without the `AIChild` prefix
(`AIChildNeuralNetwork.java` is `NeuralNetwork`, and so on). `Common` (common.dfy) holds the
`java.lang` behaviour they share:

- optional values and clamping;
- truncating `long` division;
- ASCII lower-casing;
- `String.trim`, `split` and `join`.

| module | file | models |
|---|---|---|
| `PrimitiveCore` | primitive_core.dfy | the survival core: resources, drives, pain/pleasure/pattern/trust memories, tick, death and rebirth |
| `NeuralNetwork` | neural_network.dfy | the concept graph: neurons, weighted synapses, activation and firing, Hebbian learning, activation history, n-gram patterns, decay and pruning |
| `PatternRecognizer` | pattern_recognizer.dfy | the bounded event log, the co-occurrence matrix, temporal, causal and sequence patterns, and next-event prediction |
| `Evolution` | evolution.dfy | the ledger of death causes, inherited fears and affinities, nine traits and the rebirth snapshot |
| `WorldModel` | world_model.dfy | perceived entities, their effects and classification, relationships, and recurring time events |
| `LanguageEmergence` | language_emergence.dfy | the sound inventory, sound meanings, heard words and their contexts, and the language stage |
| `Brain` | brain.dfy | vocabulary from speech and teaching, mood, touch, the developmental stage and the two-tier experience memory |
| `AutonomousAgent` | autonomous_agent.dfy | the priority goal queue, goal plans and their execution, skills, and daily learning |
| `Mind` | mind.dfy | the thought stream, imaginations, and the plan list handed out step by step |
| `Body` | body.dfy | eyes, ears, hands, mouth, rectangle hit-testing, body discoveries, energy and fatigue |
| `SelfDiscovery` | self_discovery.dfy | before/after comparison, cause-effect learning, and acting on and predicting from that knowledge |
| `SelfAwareness` | self_awareness.dfy | realizations, the self-model, feelings, the father bond and the bounded life history |

**How the model is built**

- Every Java class whose fields change in place becomes a Dafny `class` with those fields.
- Its methods have imperative bodies that follow the Java statement by statement. Loops become `while` loops with invariants.
- The class has a function `State()` that reads its fields into a value of a datatype.
- Each operation is specified by a pure function on that value. A method's `ensures` says that its new `State()` is that function of the old one.
- The properties the source promises are proved as lemmas about those functions: invariants kept, iff characterisations, round trips, bounds and "nothing else changes".
- Read-only loops (counts, scans, searches) are methods whose result is proved equal to a specification function. That function's meaning is proved separately.

**Modelling conventions**

- Wall-clock time is an explicit `now` parameter.
- Java `float` is `real` (exact arithmetic).
- Java `HashMap` is `map`, `ArrayList` is `seq` and `HashSet` is `set`.
- Random draws (`Random.nextInt`, `nextFloat`, `nextBoolean`) are parameters such as `pick`, `coin` and `choice`. The model covers every value they can take.
- Where the Java result depends on `HashMap` iteration order, the method chooses an order nondeterministically. Its contract states only what holds for every order.
- Java `int` wrap-around is modelled where it changes a result: in `VisualBlob.contains`, see `Body.Wrap32` and `Body.WideBlobHoldsNothing`.

**Where the code is followed over the written design**

- A temporal pattern needs an average interval strictly greater than 60000 ms, as the code tests.
- `PrimitiveCore` has no "dead" flag. A tick after death reports the death again (`PrimitiveCore.DeathReportedAgain`).
- `processEntityInteraction` does not clamp comfort or loneliness.
- `Mind` keeps the thought stream at 100 only in `think`. `combineConcepts` appends without trimming, so 100 is not an invariant (`Mind.AIChildMind.Combine`).
- "Total deaths" in `Evolution` counts distinct causes, not deaths (`Evolution.RepeatedCauseNotCounted`).

## Model

| member | source | states |
|---|---|---|
| Common.JDiv | frameworks/base/services/core/java/com/android/server/aichild/AIChildSelfAwareness.java:457-461 | Java's `long` division truncates toward zero: it agrees with floor division on non-negative operands and is negated floor division of the magnitude for a non-positive dividend |
| Common.Trim | frameworks/base/services/core/java/com/android/server/aichild/AIChildBrain.java:260-266 | trimming is empty exactly when every character is at most U+0020, and otherwise starts and ends above it |
| Common.Lower | frameworks/base/services/core/java/com/android/server/aichild/AIChildBrain.java:266 | lower-casing changes each character on its own and keeps the length |
| Common.Words | frameworks/base/services/core/java/com/android/server/aichild/AIChildBrain.java:157 | each word is a non-empty run without whitespace |
| Common.LettersOnly | frameworks/base/services/core/java/com/android/server/aichild/AIChildBrain.java:161 | only ASCII letters are left, and no more characters than before |
| Common.PiecesJoin | frameworks/base/services/core/java/com/android/server/aichild/AIChildPatternRecognizer.java:309 | splitting at a separator and joining again with it gives back the string |
| Common.InsertDescending | frameworks/base/services/core/java/com/android/server/aichild/AIChildAutonomousAgent.java:114-115 | inserting into a sorted queue keeps its entries and adds exactly the new one |
| Common.InsertKeepsDescending | frameworks/base/services/core/java/com/android/server/aichild/AIChildAutonomousAgent.java:114-115 | inserting into a queue sorted by descending weight leaves it sorted |
| Common.Latest | frameworks/base/services/core/java/com/android/server/aichild/AIChildMind.java:449-456 | the last `count` elements, oldest first, all when there are fewer, none for a negative count |
| PrimitiveCore.Initial | frameworks/base/services/core/java/com/android/server/aichild/AIChildPrimitiveCore.java:33-104 | the starting state (full resources, default drives, empty memories) satisfies the invariant and the non-negativity bounds |
| PrimitiveCore.TickDrain | frameworks/base/services/core/java/com/android/server/aichild/AIChildPrimitiveCore.java:113-125 | energy drops by 0.1 (not below 0), the drain time moves to now and hunger becomes 100 - energy exactly when more than 10 s have passed; otherwise all three are unchanged |
| PrimitiveCore.TickDrives | frameworks/base/services/core/java/com/android/server/aichild/AIChildPrimitiveCore.java:127-137 | loneliness changes only after more than a minute without interaction; stability drops by 0.1 exactly when fear > 50 or the new loneliness > 70; memories, integrity, curiosity and fear are untouched |
| PrimitiveCore.TickKeeps | frameworks/base/services/core/java/com/android/server/aichild/AIChildPrimitiveCore.java:112-137 | a tick keeps the invariant and the non-negativity bounds |
| PrimitiveCore.DrainKeeps | frameworks/base/services/core/java/com/android/server/aichild/AIChildPrimitiveCore.java:118-125 | the metabolism stage keeps the invariant and the bounds |
| PrimitiveCore.IsolationKeeps | frameworks/base/services/core/java/com/android/server/aichild/AIChildPrimitiveCore.java:128-132 | the loneliness stage keeps the invariant and the bounds |
| PrimitiveCore.ChaosKeeps | frameworks/base/services/core/java/com/android/server/aichild/AIChildPrimitiveCore.java:135-137 | the stability stage keeps the invariant and the bounds |
| PrimitiveCore.DeathCause | frameworks/base/services/core/java/com/android/server/aichild/AIChildPrimitiveCore.java:420-427 | the cause is energy depletion iff energy <= 0, integrity failure iff energy is positive and integrity <= 0, stability collapse iff both are positive |
| PrimitiveCore.Report | frameworks/base/services/core/java/com/android/server/aichild/AIChildPrimitiveCore.java:139-146 | the report is "alive" iff no resource is at or below 0; alive reports carry the current resources and age, dead ones a cause and the final resources |
| PrimitiveCore.Reaction | frameworks/base/services/core/java/com/android/server/aichild/AIChildPrimitiveCore.java:164-201 | a known pain gives FEAR at its level; otherwise a known pleasure gives PLEASURE at its level; otherwise CURIOUS at half the curiosity when curiosity > 30, else CAUTIOUS at 50 - curiosity (each an iff) |
| PrimitiveCore.StimulusState | frameworks/base/services/core/java/com/android/server/aichild/AIChildPrimitiveCore.java:156-204 | a stimulus eases loneliness by ten times its intensity (not below 0), marks the interaction time, never touches pain, pleasure, bonding, stability, integrity or curiosity, and can only note the key under "last_unknown" |
| PrimitiveCore.OutcomeState | frameworks/base/services/core/java/com/android/server/aichild/AIChildPrimitiveCore.java:211-241 | a positive outcome adds the magnitude to the key's pleasure (capped at 100) and removes it from pain; a negative one does the reverse; no other key's memory changes |
| PrimitiveCore.Trust | frameworks/base/services/core/java/com/android/server/aichild/AIChildPrimitiveCore.java:495-497 | a stranger's trust is 50; under the invariant any trust is in [0, 100] |
| PrimitiveCore.InteractionEffects | frameworks/base/services/core/java/com/android/server/aichild/AIChildPrimitiveCore.java:249-301 | the entity's trust becomes the old trust (50 if unknown) plus the kind's change, clamped to [0, 100]; feeding adds 30 energy and removes 30 hunger, harm adds 30 fear and removes 10 integrity, abandonment adds 30 loneliness; memories and stability stay |
| PrimitiveCore.PatternState | frameworks/base/services/core/java/com/android/server/aichild/AIChildPrimitiveCore.java:310-324 | the first effect seen for a cause is stored; a repeat of it changes nothing; a different effect leaves the pattern alone and costs 1 stability |
| PrimitiveCore.PredictOutcome | frameworks/base/services/core/java/com/android/server/aichild/AIChildPrimitiveCore.java:330-332 | a prediction exists iff the cause is known, and it is the stored effect |
| PrimitiveCore.Express | frameworks/base/services/core/java/com/android/server/aichild/AIChildPrimitiveCore.java:341-383 | the expression is DISTRESS iff hunger > 70, else FEAR iff fear > 60, else SEEKING iff loneliness > 60, else CONTENT iff comfort > 70 and energy > 50, else CURIOUS iff curiosity > 60; the intensity is the drive that chose the type (hunger, fear, loneliness, comfort, curiosity), 50 when neutral |
| PrimitiveCore.DeathPainMeaning | frameworks/base/services/core/java/com/android/server/aichild/AIChildPrimitiveCore.java:458-461 | the rebuilt pain memory holds exactly the given causes of death, each at 100 |
| PrimitiveCore.StimulusKeeps | frameworks/base/services/core/java/com/android/server/aichild/AIChildPrimitiveCore.java:156-204 | a stimulus keeps the invariant, and the bounds when its intensity is non-negative |
| PrimitiveCore.OutcomeKeeps | frameworks/base/services/core/java/com/android/server/aichild/AIChildPrimitiveCore.java:211-241 | learning keeps the invariant (no key both painful and pleasant), and the bounds for a non-negative magnitude |
| PrimitiveCore.InteractionKeeps | frameworks/base/services/core/java/com/android/server/aichild/AIChildPrimitiveCore.java:249-301 | an interaction keeps the invariant and the bounds |
| PrimitiveCore.PatternKeeps | frameworks/base/services/core/java/com/android/server/aichild/AIChildPrimitiveCore.java:310-324 | recording a pattern keeps the invariant and the bounds |
| PrimitiveCore.RebornValid | frameworks/base/services/core/java/com/android/server/aichild/AIChildPrimitiveCore.java:446-476 | a reborn child satisfies the invariant and the bounds and remembers exactly its causes of death as pain |
| PrimitiveCore.TickDrainsOncePerInstant | frameworks/base/services/core/java/com/android/server/aichild/AIChildPrimitiveCore.java:113-125 | ticking twice at the same instant drains energy once |
| PrimitiveCore.DeathReportedAgain | frameworks/base/services/core/java/com/android/server/aichild/AIChildPrimitiveCore.java:139-144 | nothing marks the child dead: a state reported dead is reported dead again by the next tick |
| PrimitiveCore.StimulusKeepsClassification | frameworks/base/services/core/java/com/android/server/aichild/AIChildPrimitiveCore.java:156-204 | a stimulus never changes how any stimulus is classified afterwards |
| PrimitiveCore.OutcomeOverwrites | frameworks/base/services/core/java/com/android/server/aichild/AIChildPrimitiveCore.java:211-241 | a pleasant outcome followed by a painful one leaves only the pain, at the second magnitude |
| PrimitiveCore.LearnedPleasureIsRecognised | frameworks/base/services/core/java/com/android/server/aichild/AIChildPrimitiveCore.java:164-215 | after learning that `touch:hold` was pleasant, the next touch/hold stimulus gives a PLEASURE reaction |
| PrimitiveCore.FirstEffectWins | frameworks/base/services/core/java/com/android/server/aichild/AIChildPrimitiveCore.java:310-332 | after any series of records for a new cause, the prediction is the first effect recorded, and stability never rose |
| PrimitiveCore.FirstEffectWinsFrom | frameworks/base/services/core/java/com/android/server/aichild/AIChildPrimitiveCore.java:310-324 | once a cause has an effect, further records never replace it and never raise stability |
| PrimitiveCore.RebornFearsDeathCauses | frameworks/base/services/core/java/com/android/server/aichild/AIChildPrimitiveCore.java:446-461 | a reborn child reacts with FEAR, at 100, exactly to its ancestors' causes of death |
| PrimitiveCore.AIChildPrimitiveCore.constructor | frameworks/base/services/core/java/com/android/server/aichild/AIChildPrimitiveCore.java:98-104 | the new core is in the initial state |
| PrimitiveCore.AIChildPrimitiveCore.Tick | frameworks/base/services/core/java/com/android/server/aichild/AIChildPrimitiveCore.java:112-147 | the new state is the tick's state change and the result is its report |
| PrimitiveCore.AIChildPrimitiveCore.Metabolize | frameworks/base/services/core/java/com/android/server/aichild/AIChildPrimitiveCore.java:118-125 | the metabolism stage of a tick |
| PrimitiveCore.AIChildPrimitiveCore.Isolate | frameworks/base/services/core/java/com/android/server/aichild/AIChildPrimitiveCore.java:128-132 | the loneliness stage of a tick |
| PrimitiveCore.AIChildPrimitiveCore.Destabilize | frameworks/base/services/core/java/com/android/server/aichild/AIChildPrimitiveCore.java:135-137 | the stability stage of a tick |
| PrimitiveCore.AIChildPrimitiveCore.HandleDeath | frameworks/base/services/core/java/com/android/server/aichild/AIChildPrimitiveCore.java:416-440 | a dead state's report: not alive, with the cause and the final resources |
| PrimitiveCore.AIChildPrimitiveCore.CurrentState | frameworks/base/services/core/java/com/android/server/aichild/AIChildPrimitiveCore.java:480-493 | an alive report of the current resources and drives, with the age since birth |
| PrimitiveCore.AIChildPrimitiveCore.ProcessStimulus | frameworks/base/services/core/java/com/android/server/aichild/AIChildPrimitiveCore.java:156-204 | the reaction is the one the memories of the old state give, and the state change is `StimulusState` |
| PrimitiveCore.AIChildPrimitiveCore.React | frameworks/base/services/core/java/com/android/server/aichild/AIChildPrimitiveCore.java:166-201 | the branch of the stimulus on what the child knows about the key |
| PrimitiveCore.AIChildPrimitiveCore.LearnFromOutcome | frameworks/base/services/core/java/com/android/server/aichild/AIChildPrimitiveCore.java:211-241 | the state change is `OutcomeState` |
| PrimitiveCore.AIChildPrimitiveCore.ProcessEntityInteraction | frameworks/base/services/core/java/com/android/server/aichild/AIChildPrimitiveCore.java:249-301 | the state change is `InteractionState` |
| PrimitiveCore.AIChildPrimitiveCore.ApplyInteraction | frameworks/base/services/core/java/com/android/server/aichild/AIChildPrimitiveCore.java:250-286 | the switch returns the kind's trust change and applies its drive changes |
| PrimitiveCore.AIChildPrimitiveCore.RecordPattern | frameworks/base/services/core/java/com/android/server/aichild/AIChildPrimitiveCore.java:310-324 | the state change is `PatternState` |
| PrimitiveCore.AIChildPrimitiveCore.Rebirth | frameworks/base/services/core/java/com/android/server/aichild/AIChildPrimitiveCore.java:446-476 | the new state is the reborn state for the given causes |
| PrimitiveCore.AIChildPrimitiveCore.ResetResources | frameworks/base/services/core/java/com/android/server/aichild/AIChildPrimitiveCore.java:447-450 | energy, integrity and stability return to 100, nothing else changes |
| PrimitiveCore.AIChildPrimitiveCore.ClearMemories | frameworks/base/services/core/java/com/android/server/aichild/AIChildPrimitiveCore.java:452-461 | pleasure, patterns and bonding are forgotten and pain holds only the causes of death |
| PrimitiveCore.AIChildPrimitiveCore.ResetDrives | frameworks/base/services/core/java/com/android/server/aichild/AIChildPrimitiveCore.java:463-468 | the drives return to their birth values, nothing else changes |
| PrimitiveCore.AIChildPrimitiveCore.ResetTimers | frameworks/base/services/core/java/com/android/server/aichild/AIChildPrimitiveCore.java:470-473 | birth, drain and interaction times all become now |
| PrimitiveCore.AIChildPrimitiveCore.DeathFears | frameworks/base/services/core/java/com/android/server/aichild/AIChildPrimitiveCore.java:458-461 | the loop builds exactly the death-cause pain memory |
| PrimitiveCore.AIChildPrimitiveCore.TrustLevel | frameworks/base/services/core/java/com/android/server/aichild/AIChildPrimitiveCore.java:495-497 | trust is in [0, 100], and 50 for a stranger |
| NeuralNetwork.NewNeuronPrunedAsWritten | frameworks/base/services/core/java/com/android/server/aichild/AIChildNeuralNetwork.java:97-132 | as written, once a week has passed since the epoch, a neuron created at this very instant already counts as weak (see Findings) |
| NeuralNetwork.IsWeakCorrected | frameworks/base/services/core/java/com/android/server/aichild/AIChildNeuralNetwork.java:122-132 | the corrected test spares every never-fired neuron younger than a week, agrees with the written one on every neuron that fired, and never prunes more than it |
| NeuralNetwork.Pruned | frameworks/base/services/core/java/com/android/server/aichild/AIChildNeuralNetwork.java:120-141 | exactly the neurons the written test calls weak (never fired and older than a week, or fired fewer than three times with `lastFired` more than a week ago) are removed, together with their outgoing synapse maps (incoming links elsewhere stay); survivors, history and patterns are untouched; the invariant is kept |
| NeuralNetwork.PrunedDropsNeverFired | frameworks/base/services/core/java/com/android/server/aichild/AIChildNeuralNetwork.java:122-133 | as written, a prune more than a week after the epoch removes every neuron that never fired, however young (see Findings) |
| NeuralNetwork.PrunedCorrected | frameworks/base/services/core/java/com/android/server/aichild/AIChildNeuralNetwork.java:120-141 | the corrected prune removes exactly the neurons the intended test calls weak, with their outgoing synapse maps, and keeps the invariant |
| NeuralNetwork.PrunedCorrectedSparesYoung | frameworks/base/services/core/java/com/android/server/aichild/AIChildNeuralNetwork.java:122-133 | the corrected prune keeps every never-fired neuron younger than a week, keeps everything the written one keeps, and agrees with it on every neuron that fired |
| NeuralNetwork.WithNeuron | frameworks/base/services/core/java/com/android/server/aichild/AIChildNeuralNetwork.java:88-115 | an existing neuron leaves the network unchanged; a new one starts inactive with activation 0 and no firings and an empty link map; pruning by the written test (`Pruned`) happens first when at least 10000 neurons are registered, and the new neuron is added either way; no other neuron changes |
| NeuralNetwork.GrowthTransitive | frameworks/base/services/core/java/com/android/server/aichild/AIChildNeuralNetwork.java:254-264 | "loses no link" and "weakens no link" compose over several updates |
| NeuralNetwork.WithSynapse | frameworks/base/services/core/java/com/android/server/aichild/AIChildNeuralNetwork.java:163-184 | after the call the link `from -> to` exists; an existing link is returned unchanged, a missing one starts at weight 0.1 with no activations; no other link appears or changes |
| NeuralNetwork.Strengthened | frameworks/base/services/core/java/com/android/server/aichild/AIChildNeuralNetwork.java:258-259 | a weight w becomes w + 0.1(1 - w), which stays in [w, 1] for weights in [0, 1] |
| NeuralNetwork.DiminishingReturns | frameworks/base/services/core/java/com/android/server/aichild/AIChildNeuralNetwork.java:258-259 | the stronger the link, the smaller its Hebbian gain, and strengthening preserves the order of weights |
| NeuralNetwork.StrengthenAt | frameworks/base/services/core/java/com/android/server/aichild/AIChildNeuralNetwork.java:254-264 | the link is created if missing, then its weight is strengthened from its old (or initial) value and stamped with now; every other link is unchanged and none is lost or weakened |
| NeuralNetwork.HebbianAt | frameworks/base/services/core/java/com/android/server/aichild/AIChildNeuralNetwork.java:239-247 | one history entry's step never touches neurons, history or patterns, and loses or weakens no link |
| NeuralNetwork.HebbianFrom | frameworks/base/services/core/java/com/android/server/aichild/AIChildNeuralNetwork.java:238-248 | the backward loop over the latest ten entries loses or weakens no link and touches nothing else |
| NeuralNetwork.HebbianFromLinks | frameworks/base/services/core/java/com/android/server/aichild/AIChildNeuralNetwork.java:238-248 | every qualifying entry the loop passes ends up linked to the firing neuron in both directions |
| NeuralNetwork.HebbianLinksRecentActive | frameworks/base/services/core/java/com/android/server/aichild/AIChildNeuralNetwork.java:236-249 | Hebbian learning links the firing neuron both ways with every other still-active neuron among the last ten activations |
| NeuralNetwork.CountUpTo | frameworks/base/services/core/java/com/android/server/aichild/AIChildNeuralNetwork.java:344-353 | the number of matching start positions below n is at most n |
| NeuralNetwork.CountPositive | frameworks/base/services/core/java/com/android/server/aichild/AIChildNeuralNetwork.java:340-356 | the count is positive iff the pattern occurs at some start position |
| NeuralNetwork.RepeatsIffEarlier | frameworks/base/services/core/java/com/android/server/aichild/AIChildNeuralNetwork.java:302-314 | the trailing window of a length from 2 to 5 is taken as a pattern exactly when it also occurs at an earlier position (its own occurrence counts once) |
| NeuralNetwork.Seen | frameworks/base/services/core/java/com/android/server/aichild/AIChildNeuralNetwork.java:316-332 | the window's pattern exists afterwards, stamped now, with one more occurrence and confidence min(1, 0.1 * occurrences); a new pattern keeps the window as its sequence; other patterns are unchanged |
| NeuralNetwork.DetectFrom | frameworks/base/services/core/java/com/android/server/aichild/AIChildNeuralNetwork.java:302-334 | the loop over lengths keeps the pattern invariant, drops no pattern and lowers no occurrence count |
| NeuralNetwork.DetectFromTouchesOnly | frameworks/base/services/core/java/com/android/server/aichild/AIChildNeuralNetwork.java:302-334 | only the ids of repeating trailing windows are added or changed |
| NeuralNetwork.DetectFromKeepsStamp | frameworks/base/services/core/java/com/android/server/aichild/AIChildNeuralNetwork.java:330-332 | a pattern already stamped now stays recorded and stamped |
| NeuralNetwork.DetectFromRecords | frameworks/base/services/core/java/com/android/server/aichild/AIChildNeuralNetwork.java:302-334 | every repeating trailing window of a length in the loop's range is recorded, stamped now |
| NeuralNetwork.DetectRecordsRepeats | frameworks/base/services/core/java/com/android/server/aichild/AIChildNeuralNetwork.java:298-335 | detection records, stamped now, every repeating trailing window of length 2 to 5 |
| NeuralNetwork.DetectChangesOnlyRepeats | frameworks/base/services/core/java/com/android/server/aichild/AIChildNeuralNetwork.java:298-335 | detection adds or changes no pattern other than those windows |
| NeuralNetwork.Recorded | frameworks/base/services/core/java/com/android/server/aichild/AIChildNeuralNetwork.java:269-279 | the id is appended, the history keeps its latest entries up to 50, neurons and links are untouched, patterns are re-detected on the new history, and the invariant holds |
| NeuralNetwork.Excited | frameworks/base/services/core/java/com/android/server/aichild/AIChildNeuralNetwork.java:196-197 | raising the activation (capped at 1) changes no firing data, no link and no active flag, and keeps the invariant |
| NeuralNetwork.MarkedFired | frameworks/base/services/core/java/com/android/server/aichild/AIChildNeuralNetwork.java:212-214 | the neuron becomes active and counts one more firing, at now; the number of inactive neurons drops |
| NeuralNetwork.CascadeTransitive | frameworks/base/services/core/java/com/android/server/aichild/AIChildNeuralNetwork.java:211-230 | the allowed changes of a spreading activation compose, and the set of inactive neurons only shrinks |
| NeuralNetwork.DecayedNeuron | frameworks/base/services/core/java/com/android/server/aichild/AIChildNeuralNetwork.java:397-402 | the activation never rises or drops below 0, no neuron becomes active, and one that stays active is at the threshold; nothing else of the neuron changes |
| NeuralNetwork.DecayedSynapse | frameworks/base/services/core/java/com/android/server/aichild/AIChildNeuralNetwork.java:408-411 | a weight never rises or drops below 0, and a link used within the last day is unchanged |
| NeuralNetwork.Decayed | frameworks/base/services/core/java/com/android/server/aichild/AIChildNeuralNetwork.java:392-414 | decay keeps every neuron and link, weakens no link into a negative weight and strengthens none, activates no neuron, and keeps the invariant |
| NeuralNetwork.DecayUndoesNoFiring | frameworks/base/services/core/java/com/android/server/aichild/AIChildNeuralNetwork.java:392-414 | decay never changes a fire count and never makes an inactive neuron active |
| NeuralNetwork.Associated | frameworks/base/services/core/java/com/android/server/aichild/AIChildNeuralNetwork.java:422-433 | both concepts are created as neurons, both links exist afterwards, history and patterns stay, and the invariant holds |
| NeuralNetwork.LinkedBoth | frameworks/base/services/core/java/com/android/server/aichild/AIChildNeuralNetwork.java:426-430 | both directions are linked, keeping the link invariant |
| NeuralNetwork.Raised | frameworks/base/services/core/java/com/android/server/aichild/AIChildNeuralNetwork.java:429-430 | the existing link gains `strength`, capped at 1; no other link changes |
| NeuralNetwork.Linkless | frameworks/base/services/core/java/com/android/server/aichild/AIChildNeuralNetwork.java:423-424 | the second concept is always a neuron afterwards, the first too unless its creation pruned it away |
| NeuralNetwork.AssociateRaisesBoth | frameworks/base/services/core/java/com/android/server/aichild/AIChildNeuralNetwork.java:422-433 | for two different concepts each link's weight becomes min(1, old or initial weight + strength) |
| NeuralNetwork.WithSynapseWeight | frameworks/base/services/core/java/com/android/server/aichild/AIChildNeuralNetwork.java:163-184 | creating a missing link changes no link's weight |
| NeuralNetwork.RaisedWeight | frameworks/base/services/core/java/com/android/server/aichild/AIChildNeuralNetwork.java:429-430 | raising changes exactly the one link's weight |
| NeuralNetwork.AssociateSelfRaisesTwice | frameworks/base/services/core/java/com/android/server/aichild/AIChildNeuralNetwork.java:426-430 | associating a concept with itself finds one synapse and raises it twice |
| NeuralNetwork.InsertKeepsDistinct | frameworks/base/services/core/java/com/android/server/aichild/AIChildNeuralNetwork.java:444-458 | adding an association for a new concept keeps the concepts in the list distinct |
| NeuralNetwork.DistinctAt | frameworks/base/services/core/java/com/android/server/aichild/AIChildNeuralNetwork.java:444-458 | distinct concepts differ at any two positions |
| NeuralNetwork.AIChildNeuralNetwork.constructor | frameworks/base/services/core/java/com/android/server/aichild/AIChildNeuralNetwork.java:58-60 | the network starts with no neurons, links, history or patterns |
| NeuralNetwork.AIChildNeuralNetwork.GetOrCreateNeuron | frameworks/base/services/core/java/com/android/server/aichild/AIChildNeuralNetwork.java:88-115 | the state change is `WithNeuron`, which prunes by the written test first when at least 10000 neurons exist, and the result is the registered neuron |
| NeuralNetwork.AIChildNeuralNetwork.WeakNeurons | frameworks/base/services/core/java/com/android/server/aichild/AIChildNeuralNetwork.java:124-133 | the loop collects exactly the ids of the neurons the written test calls weak |
| NeuralNetwork.AIChildNeuralNetwork.PruneWeakNeurons | frameworks/base/services/core/java/com/android/server/aichild/AIChildNeuralNetwork.java:120-141 | the state change is `Pruned`: the neurons the written test calls weak and their outgoing synapse maps go, nothing else changes |
| NeuralNetwork.AIChildNeuralNetwork.GetOrCreateSynapse | frameworks/base/services/core/java/com/android/server/aichild/AIChildNeuralNetwork.java:163-184 | the links change as `WithSynapse` says, nothing else changes, and the result is the stored link |
| NeuralNetwork.AIChildNeuralNetwork.StrengthenConnection | frameworks/base/services/core/java/com/android/server/aichild/AIChildNeuralNetwork.java:254-264 | the links change as `StrengthenAt` says, nothing else changes |
| NeuralNetwork.AIChildNeuralNetwork.HebbianLearning | frameworks/base/services/core/java/com/android/server/aichild/AIChildNeuralNetwork.java:236-249 | the state change is `Hebbian` |
| NeuralNetwork.AIChildNeuralNetwork.HebbianStep | frameworks/base/services/core/java/com/android/server/aichild/AIChildNeuralNetwork.java:239-247 | one iteration of the loop, as `HebbianAt` |
| NeuralNetwork.AIChildNeuralNetwork.Activate | frameworks/base/services/core/java/com/android/server/aichild/AIChildNeuralNetwork.java:192-206 | an unknown id changes nothing; otherwise the id is recorded last, the neuron is active afterwards iff it was or the raised activation reaches 0.5, without firing the state is excite-then-record, and whatever order the links are visited in, neurons only change as a cascade and no link is lost or weakened |
| NeuralNetwork.AIChildNeuralNetwork.Fire | frameworks/base/services/core/java/com/android/server/aichild/AIChildNeuralNetwork.java:211-230 | the neuron becomes active; every change is a cascade step; no link is lost or weakened |
| NeuralNetwork.AIChildNeuralNetwork.RecordActivation | frameworks/base/services/core/java/com/android/server/aichild/AIChildNeuralNetwork.java:269-279 | the state change is `Recorded` |
| NeuralNetwork.AIChildNeuralNetwork.DetectPatterns | frameworks/base/services/core/java/com/android/server/aichild/AIChildNeuralNetwork.java:298-335 | the patterns become `Detect` of the history, nothing else changes |
| NeuralNetwork.AIChildNeuralNetwork.SeePattern | frameworks/base/services/core/java/com/android/server/aichild/AIChildNeuralNetwork.java:316-332 | the patterns become `Seen` for the window |
| NeuralNetwork.AIChildNeuralNetwork.CountPatternOccurrences | frameworks/base/services/core/java/com/android/server/aichild/AIChildNeuralNetwork.java:340-356 | the count is the number of start positions, overlapping ones included, where the pattern occurs |
| NeuralNetwork.AIChildNeuralNetwork.PredictNext | frameworks/base/services/core/java/com/android/server/aichild/AIChildNeuralNetwork.java:361-384 | no prediction with fewer than two activations; a prediction is the last entry of a positively confident pattern whose second-to-last entry is the latest activation, and no such pattern is more confident; no prediction means no such pattern has positive confidence |
| NeuralNetwork.AIChildNeuralNetwork.ApplyDecay | frameworks/base/services/core/java/com/android/server/aichild/AIChildNeuralNetwork.java:392-414 | the state change is `Decayed` |
| NeuralNetwork.AIChildNeuralNetwork.DecayedNeurons | frameworks/base/services/core/java/com/android/server/aichild/AIChildNeuralNetwork.java:396-403 | the loop decays every neuron once |
| NeuralNetwork.AIChildNeuralNetwork.DecayedLinksOf | frameworks/base/services/core/java/com/android/server/aichild/AIChildNeuralNetwork.java:407-412 | the inner loop decays every link of one source once |
| NeuralNetwork.AIChildNeuralNetwork.Associate | frameworks/base/services/core/java/com/android/server/aichild/AIChildNeuralNetwork.java:422-433 | the state change is `Associated` |
| NeuralNetwork.AIChildNeuralNetwork.RaiseLink | frameworks/base/services/core/java/com/android/server/aichild/AIChildNeuralNetwork.java:429-430 | the links change as `Raised` says, nothing else changes |
| NeuralNetwork.AIChildNeuralNetwork.GetAssociations | frameworks/base/services/core/java/com/android/server/aichild/AIChildNeuralNetwork.java:438-461 | exactly the links out of the concept stronger than 0.2 that lead to an existing neuron are reported, each once with its target's label and weight, strongest first |
| NeuralNetwork.ActiveCountStep | frameworks/base/services/core/java/com/android/server/aichild/AIChildNeuralNetwork.java:487-493 | counting one more neuron adds one exactly when it is active |
| NeuralNetwork.ActiveCountSplits | frameworks/base/services/core/java/com/android/server/aichild/AIChildNeuralNetwork.java:487-493 | the active count and the inactive neurons together make up all the neurons |
| NeuralNetwork.FiringCountsOne | frameworks/base/services/core/java/com/android/server/aichild/AIChildNeuralNetwork.java:211-214 | firing an inactive neuron raises the active count by exactly one |
| NeuralNetwork.DecayCountsNoMore | frameworks/base/services/core/java/com/android/server/aichild/AIChildNeuralNetwork.java:392-403 | decay never raises the active count |
| NeuralNetwork.PairsCard | frameworks/base/services/core/java/com/android/server/aichild/AIChildNeuralNetwork.java:475-481 | one source's row holds as many (from, to) links as its map has targets |
| NeuralNetwork.LinkCountStep | frameworks/base/services/core/java/com/android/server/aichild/AIChildNeuralNetwork.java:475-481 | adding one more source's row to the count adds that row's size |
| NeuralNetwork.WithSynapseCount | frameworks/base/services/core/java/com/android/server/aichild/AIChildNeuralNetwork.java:163-181 | creating a synapse raises the synapse count by one exactly when the link was new, and leaves it alone otherwise |
| NeuralNetwork.DecayKeepsLinkCount | frameworks/base/services/core/java/com/android/server/aichild/AIChildNeuralNetwork.java:392-413 | decay keeps every link, so the synapse count stays |
| NeuralNetwork.DecayReportsNoNew | frameworks/base/services/core/java/com/android/server/aichild/AIChildNeuralNetwork.java:392-413 | with weights non-negative, decay never adds a link above 0.7 |
| NeuralNetwork.AIChildNeuralNetwork.ActiveNeuronCount | frameworks/base/services/core/java/com/android/server/aichild/AIChildNeuralNetwork.java:487-493 | the number of active neurons, whatever the map order |
| NeuralNetwork.AIChildNeuralNetwork.SynapseCount | frameworks/base/services/core/java/com/android/server/aichild/AIChildNeuralNetwork.java:475-481 | the number of (from, to) links, whatever the map order |
| NeuralNetwork.AIChildNeuralNetwork.ReportedFrom | frameworks/base/services/core/java/com/android/server/aichild/AIChildNeuralNetwork.java:504-509 | the inner loop lists exactly the links of one row above 0.7, each written "from -> to" from its synapse |
| NeuralNetwork.AIChildNeuralNetwork.StrongestConnections | frameworks/base/services/core/java/com/android/server/aichild/AIChildNeuralNetwork.java:502-510 | exactly the links above 0.7 are listed, each written "from -> to" from its synapse |
| NeuralNetwork.AIChildNeuralNetwork.Status | frameworks/base/services/core/java/com/android/server/aichild/AIChildNeuralNetwork.java:495-513 | the report holds the neuron and pattern counts, the synapse count, the active count and exactly the links above 0.7 |
| PatternRecognizer.IndexBy | frameworks/base/services/core/java/com/android/server/aichild/AIChildPatternRecognizer.java:209-216 | the first position whose element has the key, and -1 exactly when none has it |
| PatternRecognizer.UpsertBy | frameworks/base/services/core/java/com/android/server/aichild/AIChildPatternRecognizer.java:209-221 | the first element with the new pattern's key is replaced in place, otherwise the pattern is appended; the pattern is then present, elements with other keys stay where they were, and distinct keys stay distinct |
| PatternRecognizer.MergedStart | frameworks/base/services/core/java/com/android/server/aichild/AIChildPatternRecognizer.java:177 | before any key is processed the list is merged with nothing |
| PatternRecognizer.MergedStep | frameworks/base/services/core/java/com/android/server/aichild/AIChildPatternRecognizer.java:177-223 | processing one more key, in whatever order the map yields it, keeps the merge relation |
| PatternRecognizer.MergedKeeps | frameworks/base/services/core/java/com/android/server/aichild/AIChildPatternRecognizer.java:200-221 | after a merge every element is an old one or a well-formed candidate |
| PatternRecognizer.CountIn | frameworks/base/services/core/java/com/android/server/aichild/AIChildPatternRecognizer.java:248-251 | a count over a range is at most the range's length |
| PatternRecognizer.Bump | frameworks/base/services/core/java/com/android/server/aichild/AIChildPatternRecognizer.java:96-97 | exactly the one cell (prev, key) gains one and the row is created if missing |
| PatternRecognizer.CoOccurFromCounts | frameworks/base/services/core/java/com/android/server/aichild/AIChildPatternRecognizer.java:91-98 | the loop adds to (a, key) the number of occurrences of a in the range and changes no other cell |
| PatternRecognizer.CoOccurFromInv | frameworks/base/services/core/java/com/android/server/aichild/AIChildPatternRecognizer.java:91-98 | the loop keeps every count positive |
| PatternRecognizer.CoOccurredCounts | frameworks/base/services/core/java/com/android/server/aichild/AIChildPatternRecognizer.java:87-99 | the newest event counts once as following every occurrence of each event among the at most nine events before it, and no other count changes |
| PatternRecognizer.TimesUpTo | frameworks/base/services/core/java/com/android/server/aichild/AIChildPatternRecognizer.java:171-174 | a key's timestamp list has one entry per event with that key |
| PatternRecognizer.KeysUpToStep | frameworks/base/services/core/java/com/android/server/aichild/AIChildPatternRecognizer.java:171-174 | one more event adds its key to the grouped keys |
| PatternRecognizer.GroupStep | frameworks/base/services/core/java/com/android/server/aichild/AIChildPatternRecognizer.java:171-174 | appending an event's time to its key's list extends the grouping by that event |
| PatternRecognizer.SquaredDeviation | frameworks/base/services/core/java/com/android/server/aichild/AIChildPatternRecognizer.java:190-193 | the sum of squared deviations is never negative |
| PatternRecognizer.TemporalOf | frameworks/base/services/core/java/com/android/server/aichild/AIChildPatternRecognizer.java:178-206 | with fewer than three timestamps there is no pattern; with three or more there is one exactly when the truncated average interval exceeds a minute and the regularity test passes, and then it carries the key, all its timestamps, that average, the variance of the intervals about it and the description of the average |
| PatternRecognizer.JitteredTimesRegister | frameworks/base/services/core/java/com/android/server/aichild/AIChildPatternRecognizer.java:178-206 | timestamps 0, 120000 and 240010 register: average 120005 (truncated) and variance 25 |
| PatternRecognizer.TimesUpToAbsent | frameworks/base/services/core/java/com/android/server/aichild/AIChildPatternRecognizer.java:171-174 | a key that does not occur has no timestamps |
| PatternRecognizer.TemporalCandAbsent | frameworks/base/services/core/java/com/android/server/aichild/AIChildPatternRecognizer.java:177-179 | a key that never occurs has no temporal pattern |
| PatternRecognizer.TemporalCandsWellKeyed | frameworks/base/services/core/java/com/android/server/aichild/AIChildPatternRecognizer.java:200-206 | each temporal candidate carries its key and is well formed |
| PatternRecognizer.RegularityTest | frameworks/base/services/core/java/com/android/server/aichild/AIChildPatternRecognizer.java:195-200 | the test 1 - min(1, sd/avg) > 0.5 holds exactly when the variance is below a quarter of the squared mean |
| PatternRecognizer.RatioTest | frameworks/base/services/core/java/com/android/server/aichild/AIChildPatternRecognizer.java:198-200 | the same test stated on the ratio sd/avg |
| PatternRecognizer.SumConstant | frameworks/base/services/core/java/com/android/server/aichild/AIChildPatternRecognizer.java:188-193 | equal intervals sum to their count times the interval and deviate by 0 |
| PatternRecognizer.JDivMultiple | frameworks/base/services/core/java/com/android/server/aichild/AIChildPatternRecognizer.java:188 | the truncating average of n equal intervals is the interval |
| PatternRecognizer.EvenlySpaced | frameworks/base/services/core/java/com/android/server/aichild/AIChildPatternRecognizer.java:182-200 | events exactly d apart form a temporal pattern (average d, variance 0) exactly when d is over a minute; events exactly one minute apart never do |
| PatternRecognizer.CausalCand | frameworks/base/services/core/java/com/android/server/aichild/AIChildPatternRecognizer.java:243-263 | a causal pattern found carries the pair, its co-occurrence count and the probability count / occurrences of the cause, and the cause still occurs |
| PatternRecognizer.AboveHalf | frameworks/base/services/core/java/com/android/server/aichild/AIChildPatternRecognizer.java:253-255 | a ratio of counts exceeds one half exactly when twice the numerator exceeds the denominator |
| PatternRecognizer.CausalCandRegisters | frameworks/base/services/core/java/com/android/server/aichild/AIChildPatternRecognizer.java:243-255 | a pair registers exactly when it co-occurred at least three times and more than half as often as its cause occurs |
| PatternRecognizer.CausalCandsWellKeyed | frameworks/base/services/core/java/com/android/server/aichild/AIChildPatternRecognizer.java:256-262 | each causal candidate carries its pair and is well formed |
| PatternRecognizer.CausalCandAbsent | frameworks/base/services/core/java/com/android/server/aichild/AIChildPatternRecognizer.java:238-243 | a pair outside the matrix has no causal pattern |
| PatternRecognizer.ProbabilityAboveOne | frameworks/base/services/core/java/com/android/server/aichild/AIChildPatternRecognizer.java:248-259 | after A, B, B, B the pair (A, B) registers with "probability" 3: the window counts every later occurrence and the matrix is never trimmed |
| PatternRecognizer.CausalCandRatio | frameworks/base/services/core/java/com/android/server/aichild/AIChildPatternRecognizer.java:248-259 | three co-occurrences against one cause occurrence give probability 3 |
| PatternRecognizer.ThreeCoOccurrences | frameworks/base/services/core/java/com/android/server/aichild/AIChildPatternRecognizer.java:87-99 | after A, B, B, B the matrix holds 3 for (A, B) |
| PatternRecognizer.WindowCountsMeaning | frameworks/base/services/core/java/com/android/server/aichild/AIChildPatternRecognizer.java:292-303 | every window string is counted, and each count belongs to a window and is at most the number of windows |
| PatternRecognizer.OffersAmongStep | frameworks/base/services/core/java/com/android/server/aichild/AIChildPatternRecognizer.java:306-309 | one more window string adds its sequence exactly when it was seen at least twice |
| PatternRecognizer.CountsOfferedAtLeastTwo | frameworks/base/services/core/java/com/android/server/aichild/AIChildPatternRecognizer.java:306-307 | every count handed out by one length is at least two |
| PatternRecognizer.OfferedFromLength | frameworks/base/services/core/java/com/android/server/aichild/AIChildPatternRecognizer.java:292-309 | a count one length hands out for a sequence is the count of some window string of that length which splits into it |
| PatternRecognizer.OffersExtend | frameworks/base/services/core/java/com/android/server/aichild/AIChildPatternRecognizer.java:290-329 | adding one more length's counts to those of the shorter lengths, later counts overriding earlier ones for the latest map and never for the first map, keeps the keys the repeated sequences so far and every value a window count of at least two |
| PatternRecognizer.OfferedCountExact | frameworks/base/services/core/java/com/android/server/aichild/AIChildPatternRecognizer.java:290-329 | when a repeated window string is the only one of any length splitting into its sequence, both the latest and the first count of that sequence are its window count |
| PatternRecognizer.CountsOfferedStep | frameworks/base/services/core/java/com/android/server/aichild/AIChildPatternRecognizer.java:306-311 | handing out one more window string counted at least twice sets its sequence's latest count to its count |
| PatternRecognizer.CountsOfferedFirst | frameworks/base/services/core/java/com/android/server/aichild/AIChildPatternRecognizer.java:306-311 | handing out one more window string counted at least twice gives its sequence that first count if it had none |
| PatternRecognizer.OfferStep | frameworks/base/services/core/java/com/android/server/aichild/AIChildPatternRecognizer.java:306-327 | offering one more window string keeps the count maps those of the strings handed out and the list evolved under them |
| PatternRecognizer.OfferedAllEvolved | frameworks/base/services/core/java/com/android/server/aichild/AIChildPatternRecognizer.java:306-327 | offering the window strings of one length in any order yields the list evolved under exactly the counts those strings hand out |
| PatternRecognizer.SequencesEvolvedFrom | frameworks/base/services/core/java/com/android/server/aichild/AIChildPatternRecognizer.java:290-329 | after the lengths 3 to 5 the counts handed out are window counts of the repeated sequences of all three lengths, and the list holds at most 50 well-formed patterns |
| PatternRecognizer.EvolvedStart | frameworks/base/services/core/java/com/android/server/aichild/AIChildPatternRecognizer.java:286-291 | before any offer the list is evolved from itself, with nothing offered |
| PatternRecognizer.EvolvedStep | frameworks/base/services/core/java/com/android/server/aichild/AIChildPatternRecognizer.java:306-327 | offering one more sequence with count c keeps the relation, with c as the sequence's latest count and, if it had none, its first: an equal sequence takes the new count, a new one is added below 50 with confidence min(1, 0.2·c) and the analysis time's name, a full list is left alone |
| PatternRecognizer.EvolvedFound | frameworks/base/services/core/java/com/android/server/aichild/AIChildPatternRecognizer.java:315-321 | updating the count of the equal sequence keeps the relation |
| PatternRecognizer.EvolvedAppended | frameworks/base/services/core/java/com/android/server/aichild/AIChildPatternRecognizer.java:323-325 | appending a new sequence below the cap keeps the relation, the new pattern carrying its count's confidence |
| PatternRecognizer.EvolvedFull | frameworks/base/services/core/java/com/android/server/aichild/AIChildPatternRecognizer.java:323 | a new sequence offered to a full list leaves it unchanged and keeps the relation |
| PatternRecognizer.EvolvedKeeps | frameworks/base/services/core/java/com/android/server/aichild/AIChildPatternRecognizer.java:306-327 | the evolved list holds at most 50 well-formed patterns |
| PatternRecognizer.Matching | frameworks/base/services/core/java/com/android/server/aichild/AIChildPatternRecognizer.java:341-349 | the predictions are exactly those of the causal patterns whose cause is the event or ends with ":" and it, no more than there are patterns |
| PatternRecognizer.SortByConfidence | frameworks/base/services/core/java/com/android/server/aichild/AIChildPatternRecognizer.java:352 | the predictions are a permutation of the found ones, in descending confidence |
| PatternRecognizer.AIChildPatternRecognizer.constructor | frameworks/base/services/core/java/com/android/server/aichild/AIChildPatternRecognizer.java:47-49 | all lists and the matrix start empty |
| PatternRecognizer.AIChildPatternRecognizer.RecordEvent | frameworks/base/services/core/java/com/android/server/aichild/AIChildPatternRecognizer.java:63-82 | the history becomes the latest 1000 events with the new one last, the matrix counts it as following the events before it, and with at least ten events the temporal and causal lists are re-merged and the sequence list evolves as `FindSequencePatterns` states (fewer: they are unchanged) |
| PatternRecognizer.AIChildPatternRecognizer.UpdateCoOccurrences | frameworks/base/services/core/java/com/android/server/aichild/AIChildPatternRecognizer.java:87-99 | the matrix becomes `CoOccurred`, nothing else changes |
| PatternRecognizer.AIChildPatternRecognizer.AnalyzePatterns | frameworks/base/services/core/java/com/android/server/aichild/AIChildPatternRecognizer.java:148-162 | below ten events nothing changes; otherwise temporal and causal patterns are merged from their candidates and the sequence list evolves as `FindSequencePatterns` states |
| PatternRecognizer.AIChildPatternRecognizer.EventTimes | frameworks/base/services/core/java/com/android/server/aichild/AIChildPatternRecognizer.java:169-174 | the timestamps are grouped by key, in history order, for exactly the keys that occur |
| PatternRecognizer.AIChildPatternRecognizer.ComputeTemporal | frameworks/base/services/core/java/com/android/server/aichild/AIChildPatternRecognizer.java:178-206 | the computed pattern is `TemporalOf` the timestamps |
| PatternRecognizer.AIChildPatternRecognizer.IntervalsOf | frameworks/base/services/core/java/com/android/server/aichild/AIChildPatternRecognizer.java:182-185 | the differences of consecutive timestamps |
| PatternRecognizer.AIChildPatternRecognizer.SumOf | frameworks/base/services/core/java/com/android/server/aichild/AIChildPatternRecognizer.java:188 | the sum of the intervals |
| PatternRecognizer.AIChildPatternRecognizer.DeviationOf | frameworks/base/services/core/java/com/android/server/aichild/AIChildPatternRecognizer.java:190-193 | the sum of squared deviations from the average |
| PatternRecognizer.AIChildPatternRecognizer.UpsertTemporal | frameworks/base/services/core/java/com/android/server/aichild/AIChildPatternRecognizer.java:209-221 | the loop is `UpsertBy` on the event type |
| PatternRecognizer.AIChildPatternRecognizer.FindTemporalPatterns | frameworks/base/services/core/java/com/android/server/aichild/AIChildPatternRecognizer.java:167-224 | the temporal list is merged with every key's candidate; nothing else changes |
| PatternRecognizer.AIChildPatternRecognizer.MergeTemporal | frameworks/base/services/core/java/com/android/server/aichild/AIChildPatternRecognizer.java:177-223 | the loop over keys merges every key's candidate |
| PatternRecognizer.AIChildPatternRecognizer.MergeTemporalKey | frameworks/base/services/core/java/com/android/server/aichild/AIChildPatternRecognizer.java:178-222 | one key's candidate replaces or joins the list |
| PatternRecognizer.AIChildPatternRecognizer.CountCause | frameworks/base/services/core/java/com/android/server/aichild/AIChildPatternRecognizer.java:248-251 | the number of history events with the cause's key |
| PatternRecognizer.AIChildPatternRecognizer.UpsertCausal | frameworks/base/services/core/java/com/android/server/aichild/AIChildPatternRecognizer.java:265-277 | the loop is `UpsertBy` on the (cause, effect) pair |
| PatternRecognizer.AIChildPatternRecognizer.CausalFor | frameworks/base/services/core/java/com/android/server/aichild/AIChildPatternRecognizer.java:241-279 | every effect recorded after the cause is processed once |
| PatternRecognizer.AIChildPatternRecognizer.MergeCausalPair | frameworks/base/services/core/java/com/android/server/aichild/AIChildPatternRecognizer.java:242-278 | one pair's candidate replaces or joins the list |
| PatternRecognizer.AIChildPatternRecognizer.FindCausalPatterns | frameworks/base/services/core/java/com/android/server/aichild/AIChildPatternRecognizer.java:236-281 | the causal list is merged with every pair's candidate; nothing else changes |
| PatternRecognizer.AIChildPatternRecognizer.MergeCausal | frameworks/base/services/core/java/com/android/server/aichild/AIChildPatternRecognizer.java:238-280 | the outer loop processes every pair of the matrix once |
| PatternRecognizer.AIChildPatternRecognizer.CountWindows | frameworks/base/services/core/java/com/android/server/aichild/AIChildPatternRecognizer.java:292-303 | the counts of the window strings of one length |
| PatternRecognizer.AIChildPatternRecognizer.JoinWindow | frameworks/base/services/core/java/com/android/server/aichild/AIChildPatternRecognizer.java:295-301 | the window's keys joined with " -> " |
| PatternRecognizer.AIChildPatternRecognizer.OfferSequence | frameworks/base/services/core/java/com/android/server/aichild/AIChildPatternRecognizer.java:315-326 | the add-if-new loop is `Offered` |
| PatternRecognizer.AIChildPatternRecognizer.OfferLength | frameworks/base/services/core/java/com/android/server/aichild/AIChildPatternRecognizer.java:292-328 | the list after one length is the list before with that length's offers applied: the latest and first counts it hands out are exactly the window counts of at least two of that length, keyed by their sequences |
| PatternRecognizer.AIChildPatternRecognizer.OfferWindow | frameworks/base/services/core/java/com/android/server/aichild/AIChildPatternRecognizer.java:306-327 | one window string is offered, with its count, exactly when it was counted at least twice |
| PatternRecognizer.AIChildPatternRecognizer.OfferAllLengths | frameworks/base/services/core/java/com/android/server/aichild/AIChildPatternRecognizer.java:290-329 | the loop over the lengths 3 to 5 evolves the sequence list from the stored one under the counts of the history's windows, keeping it distinct, well formed and at most 50 long |
| PatternRecognizer.AIChildPatternRecognizer.FindSequencePatterns | frameworks/base/services/core/java/com/android/server/aichild/AIChildPatternRecognizer.java:286-330 | below six events nothing changes; otherwise old patterns keep everything but their count, every pattern whose sequence some window of length 3 to 5 repeats holds a window count of that sequence as its occurrences, every new pattern has a new sequence, confidence min(1, 0.2·its first count) and the analysis time's name, every repeated sequence is present unless the list holds 50, and the other pattern lists and the matrix do not change |
| PatternRecognizer.AIChildPatternRecognizer.PredictNext | frameworks/base/services/core/java/com/android/server/aichild/AIChildPatternRecognizer.java:337-355 | the predictions are a permutation of those of the matching causal patterns, most confident first |
| PatternRecognizer.AIChildPatternRecognizer.MatchingCauses | frameworks/base/services/core/java/com/android/server/aichild/AIChildPatternRecognizer.java:341-349 | the loop collects the matching predictions in list order |
| Evolution.Initial | frameworks/base/services/core/java/com/android/server/aichild/AIChildEvolution.java:44-57 | the first generation (no causes, fears or affinities, every trait 50) satisfies the ledger invariant |
| Evolution.RaiseFear | frameworks/base/services/core/java/com/android/server/aichild/AIChildEvolution.java:77-84 | the key's fear becomes min(100, old or 0 + amount), no other fear changes, and positive fears stay in (0, 100] |
| Evolution.AddCause | frameworks/base/services/core/java/com/android/server/aichild/AIChildEvolution.java:72-74 | a cause is appended only when not yet listed, so the list stays free of duplicates |
| Evolution.DeathTraits | frameworks/base/services/core/java/com/android/server/aichild/AIChildEvolution.java:81-98 | energy efficiency +5 when final energy < 10, social drive +10 when loneliness > 80, caution +5 when fear > 80, each capped at 100; no other trait changes; the trait invariant is kept |
| Evolution.DeathState | frameworks/base/services/core/java/com/android/server/aichild/AIChildEvolution.java:68-107 | a death adds one generation, lists the cause once, raises its fear by 20 capped at 100 and, when the final energy is below 10, then raises the hunger fear by another 10 (otherwise no fear but the cause's changes); the traits follow `DeathTraits`, affinities stay, and the invariant is kept |
| Evolution.Snapshot | frameworks/base/services/core/java/com/android/server/aichild/AIChildEvolution.java:112-132 | the inheritance carries the generation, fears, affinities and traits, with the number of listed causes as total deaths |
| Evolution.TotalDeathsCountsCauses | frameworks/base/services/core/java/com/android/server/aichild/AIChildEvolution.java:72-126 | "total deaths" is the number of distinct causes of death, not of deaths |
| Evolution.RepeatedCauseNotCounted | frameworks/base/services/core/java/com/android/server/aichild/AIChildEvolution.java:72-126 | dying twice of the same cause adds two generations but only one death to the total |
| Evolution.DistinctCount | frameworks/base/services/core/java/com/android/server/aichild/AIChildEvolution.java:126 | a list without duplicates has as many elements as distinct elements |
| Evolution.SurvivalSuccess | frameworks/base/services/core/java/com/android/server/aichild/AIChildEvolution.java:137-143 | the factor's affinity becomes min(100, old or 0 + half the importance); nothing else changes; the invariant is kept |
| Evolution.FatherBond | frameworks/base/services/core/java/com/android/server/aichild/AIChildEvolution.java:148-158 | a bond of at most 70 changes nothing; a stronger one adds 2 to bonding capacity and 5 to the father-presence affinity (starting from 50), each capped at 100 |
| Evolution.CapTraits | frameworks/base/services/core/java/com/android/server/aichild/AIChildEvolution.java:250-260 | every trait ends at most 100 and the metabolic rate at least 10; already capped traits are left as they are |
| Evolution.Challenge | frameworks/base/services/core/java/com/android/server/aichild/AIChildEvolution.java:216-242 | a known challenge raises exactly its trait (energy efficiency by 2 and the metabolic rate down by 1 but not below 20, social drive by 3, caution by 2, pattern recognition by 1, bonding capacity by 2) and no other increment is possible; an unknown challenge changes nothing |
| Evolution.SelectionPressure | frameworks/base/services/core/java/com/android/server/aichild/AIChildEvolution.java:215-248 | only the traits change and they end capped; an energy crisis caps the traits with energy efficiency 2 higher and the metabolic rate 1 lower but not below 20, loneliness with social drive 3 higher, an avoided threat with caution 2 higher, a learned pattern with pattern recognition 1 higher, a formed bond with bonding capacity 2 higher; an unknown challenge only caps |
| Evolution.Contenders | frameworks/base/services/core/java/com/android/server/aichild/AIChildEvolution.java:312-316 | the five compared traits, in comparison order |
| Evolution.DominantIndex | frameworks/base/services/core/java/com/android/server/aichild/AIChildEvolution.java:308-319 | the first of the largest positive traits, or none ("balanced") exactly when no trait is positive |
| Evolution.DominantTrait | frameworks/base/services/core/java/com/android/server/aichild/AIChildEvolution.java:308-319 | "balanced" exactly when none of the five traits is positive |
| Evolution.NeverBalanced | frameworks/base/services/core/java/com/android/server/aichild/AIChildEvolution.java:308-319 | under the ledger invariant the answer is never "balanced" |
| Evolution.Rise | frameworks/base/services/core/java/com/android/server/aichild/AIChildEvolution.java:324-331 | a trait's rise over 50 is non-negative, zero exactly at or below 50, at most 50 for a capped trait |
| Evolution.Progress | frameworks/base/services/core/java/com/android/server/aichild/AIChildEvolution.java:321-334 | progress is in [0, 50] for capped traits and zero exactly when none of the eight traits exceeds 50 |
| Evolution.DeathOnlyAdds | frameworks/base/services/core/java/com/android/server/aichild/AIChildEvolution.java:68-107 | deaths never lower a fear and never remove or reorder a cause |
| Evolution.DeathReportReadsAsStarvation | frameworks/base/services/core/java/com/android/server/aichild/AIChildEvolution.java:68-98 | the death report of the survival core fills only the final-resource fields, so a death recorded from it always counts as low energy (hunger fear, efficiency +5) and never raises social drive or caution |
| Evolution.EvolutionTraits.constructor | frameworks/base/services/core/java/com/android/server/aichild/AIChildEvolution.java:165-181 | every trait starts at 50 |
| Evolution.EvolutionTraits.Copy | frameworks/base/services/core/java/com/android/server/aichild/AIChildEvolution.java:183-195 | a new object with the same nine values |
| Evolution.AIChildEvolution.constructor | frameworks/base/services/core/java/com/android/server/aichild/AIChildEvolution.java:54-61 | the ledger starts in the initial state with its own traits object |
| Evolution.AIChildEvolution.RecordDeath | frameworks/base/services/core/java/com/android/server/aichild/AIChildEvolution.java:68-107 | the ledger becomes `DeathState` of the old one: one more generation, the cause listed once, its fear up 20 and hunger fear up 10 more after a death at energy below 10 |
| Evolution.AIChildEvolution.StrengthenFear | frameworks/base/services/core/java/com/android/server/aichild/AIChildEvolution.java:77-84 | the fears change as `RaiseFear` says, nothing else |
| Evolution.AIChildEvolution.AdaptTraits | frameworks/base/services/core/java/com/android/server/aichild/AIChildEvolution.java:81-98 | the traits change as `DeathTraits` says |
| Evolution.AIChildEvolution.PrepareRebirth | frameworks/base/services/core/java/com/android/server/aichild/AIChildEvolution.java:112-132 | the inheritance is the snapshot of the ledger, with a fresh copy of the traits |
| Evolution.AIChildEvolution.RecordSurvivalSuccess | frameworks/base/services/core/java/com/android/server/aichild/AIChildEvolution.java:137-143 | the state change is `SurvivalSuccess` |
| Evolution.AIChildEvolution.RecordFatherBond | frameworks/base/services/core/java/com/android/server/aichild/AIChildEvolution.java:148-158 | the state change is `FatherBond` |
| Evolution.AIChildEvolution.ApplySelectionPressure | frameworks/base/services/core/java/com/android/server/aichild/AIChildEvolution.java:215-248 | the ledger becomes `SelectionPressure` of the old one: the challenge's trait increment, then every trait capped |
| Evolution.AIChildEvolution.CapTraitsInPlace | frameworks/base/services/core/java/com/android/server/aichild/AIChildEvolution.java:250-260 | the traits change as `CapTraits` says |
| WorldModel.NameInjective | frameworks/base/services/core/java/com/android/server/aichild/AIChildWorldModel.java:94-96 | two internal names `thing_n` are equal only for the same n |
| WorldModel.PerceivedMeaning | frameworks/base/services/core/java/com/android/server/aichild/AIChildWorldModel.java:63-88 | a perception counts one more encounter, stamps the time and merges the properties with the new values winning; a first perception names the entity `thing_n` after the n entities known before, with no effects and class UNKNOWN |
| WorldModel.PerceiveKeeps | frameworks/base/services/core/java/com/android/server/aichild/AIChildWorldModel.java:63-88 | perceiving keeps the registry invariant, in particular no two entities share a name |
| WorldModel.KnownEntityKeeps | frameworks/base/services/core/java/com/android/server/aichild/AIChildWorldModel.java:83-85 | updating a known record without renaming it keeps the invariant |
| WorldModel.NewEntityKeeps | frameworks/base/services/core/java/com/android/server/aichild/AIChildWorldModel.java:66-80 | filing a new record named after the count before it keeps the names distinct |
| WorldModel.GrowsByOne | frameworks/base/services/core/java/com/android/server/aichild/AIChildWorldModel.java:78 | filing a new id grows the registry by one |
| WorldModel.EntitiesInvOf | frameworks/base/services/core/java/com/android/server/aichild/AIChildWorldModel.java:63-96 | the parts of the registry invariant give the invariant |
| WorldModel.NewEntityRecords | frameworks/base/services/core/java/com/android/server/aichild/AIChildWorldModel.java:66-80 | a new record keeps every record filed under its id and named below the new count |
| WorldModel.NewEntityNames | frameworks/base/services/core/java/com/android/server/aichild/AIChildWorldModel.java:76-78 | a new record with an unused name keeps names pairwise distinct |
| WorldModel.NamesBelowFresh | frameworks/base/services/core/java/com/android/server/aichild/AIChildWorldModel.java:94-96 | the next name `thing_n`, for n known entities, is not taken |
| WorldModel.Classify | frameworks/base/services/core/java/com/android/server/aichild/AIChildWorldModel.java:120-136 | RESOURCE iff energy effect > 50; else THREAT iff pain > 50; else FRIEND iff comfort > 50; else NEUTRAL iff more than ten encounters; missing effects read as 0 |
| WorldModel.EffectAccumulates | frameworks/base/services/core/java/com/android/server/aichild/AIChildWorldModel.java:103-115 | an effect adds its magnitude to the earlier total, touches no other effect or the identity and encounter count, and the class is re-derived |
| WorldModel.EffectKeeps | frameworks/base/services/core/java/com/android/server/aichild/AIChildWorldModel.java:103-115 | recording an effect, also for an unknown id, keeps the registry invariant |
| WorldModel.EnergyKeepsResource | frameworks/base/services/core/java/com/android/server/aichild/AIChildWorldModel.java:107-126 | a resource stays a resource while energy keeps flowing in |
| WorldModel.FindTriple | frameworks/base/services/core/java/com/android/server/aichild/AIChildWorldModel.java:146-154 | the first relationship with the same (A, B, type), and none exactly when no relationship has it |
| WorldModel.RelatedMeaning | frameworks/base/services/core/java/com/android/server/aichild/AIChildWorldModel.java:144-167 | triples stay unique; a known triple is strengthened by 10 (capped at 100) with one more observation and nothing else changes; an unknown one is appended with strength 10 and one observation |
| WorldModel.Predictions | frameworks/base/services/core/java/com/android/server/aichild/AIChildWorldModel.java:172-186 | there are never more predictions than relationships |
| WorldModel.PredictionsMeaning | frameworks/base/services/core/java/com/android/server/aichild/AIChildWorldModel.java:172-186 | a prediction is reported exactly for every relationship from the entity stronger than 30, naming its B with confidence strength / 100 |
| WorldModel.TimeEventKeeps | frameworks/base/services/core/java/com/android/server/aichild/AIChildWorldModel.java:194-209 | the timestamp is appended to its own pattern only, last occurrence included, and every pattern stays analysed |
| WorldModel.NextOccurrenceMeaning | frameworks/base/services/core/java/com/android/server/aichild/AIChildWorldModel.java:240-245 | an event seen fewer than three times predicts -1; otherwise the last occurrence plus the truncated mean interval |
| WorldModel.EvenSpacingPredictsExactly | frameworks/base/services/core/java/com/android/server/aichild/AIChildWorldModel.java:219-228 | events exactly d apart have mean interval d |
| WorldModel.ClassCountStep | frameworks/base/services/core/java/com/android/server/aichild/AIChildWorldModel.java:332-336 | counting one more entity adds one to its class's count only |
| WorldModel.RegularCountStep | frameworks/base/services/core/java/com/android/server/aichild/AIChildWorldModel.java:316-318 | counting one more pattern adds one when it is regular |
| WorldModel.SummaryBounded | frameworks/base/services/core/java/com/android/server/aichild/AIChildWorldModel.java:328-336 | resources, threats and friends together never outnumber the entities |
| WorldModel.AIChildWorldModel.constructor | frameworks/base/services/core/java/com/android/server/aichild/AIChildWorldModel.java:43-55 | the model starts with no entities, relationships or time patterns |
| WorldModel.AIChildWorldModel.PerceiveEntity | frameworks/base/services/core/java/com/android/server/aichild/AIChildWorldModel.java:63-88 | the returned record is `Perceived` and is the one now filed under the id; nothing else changes |
| WorldModel.AIChildWorldModel.Encounter | frameworks/base/services/core/java/com/android/server/aichild/AIChildWorldModel.java:64-87 | the lookup-create-count sequence yields `Perceived` |
| WorldModel.AIChildWorldModel.RecordEntityEffect | frameworks/base/services/core/java/com/android/server/aichild/AIChildWorldModel.java:103-115 | the registry changes as `EffectState` says; nothing else changes |
| WorldModel.AIChildWorldModel.AddEffect | frameworks/base/services/core/java/com/android/server/aichild/AIChildWorldModel.java:107-112 | the record changes as `WithEffect` says |
| WorldModel.AIChildWorldModel.RecordRelationship | frameworks/base/services/core/java/com/android/server/aichild/AIChildWorldModel.java:144-167 | the relationships change as `Related` says; nothing else changes |
| WorldModel.AIChildWorldModel.PredictFromEntity | frameworks/base/services/core/java/com/android/server/aichild/AIChildWorldModel.java:172-186 | the predictions are `Predictions` |
| WorldModel.AIChildWorldModel.RecordTimeEvent | frameworks/base/services/core/java/com/android/server/aichild/AIChildWorldModel.java:194-209 | the patterns change as `TimeEventState` says; nothing else changes |
| WorldModel.AIChildWorldModel.AnalyzeTimePattern | frameworks/base/services/core/java/com/android/server/aichild/AIChildWorldModel.java:215-235 | the loop computes `Analyzed` |
| WorldModel.AIChildWorldModel.PredictNextOccurrence | frameworks/base/services/core/java/com/android/server/aichild/AIChildWorldModel.java:240-245 | the prediction is `NextOccurrence` |
| WorldModel.AIChildWorldModel.DiscoveredPatternCount | frameworks/base/services/core/java/com/android/server/aichild/AIChildWorldModel.java:314-320 | the number of regular patterns, whatever the iteration order |
| WorldModel.AIChildWorldModel.Tally | frameworks/base/services/core/java/com/android/server/aichild/AIChildWorldModel.java:333-335 | one entity adds to at most one of the three counts |
| WorldModel.AIChildWorldModel.GetSummary | frameworks/base/services/core/java/com/android/server/aichild/AIChildWorldModel.java:322-339 | the totals are the sizes of the three collections and the counts are the numbers of resources, threats and friends |
| LanguageEmergence.AddIfNewKeeps | frameworks/base/services/core/java/com/android/server/aichild/AIChildLanguageEmergence.java:130-134 | adding a sound only if new keeps the inventory free of duplicates, never loses a sound, and grows it by one exactly for a new sound |
| LanguageEmergence.LearnedMeaning | frameworks/base/services/core/java/com/android/server/aichild/AIChildLanguageEmergence.java:202-216 | learning counts one more use of the sound and adds the magnitude to that outcome's score, creating record and score as needed; other outcomes and other sounds keep their records |
| LanguageEmergence.MeaningfulCountStep | frameworks/base/services/core/java/com/android/server/aichild/AIChildLanguageEmergence.java:306-311 | counting one more sound adds one exactly when it was used three times and something followed it |
| LanguageEmergence.NextStageIsMax | frameworks/base/services/core/java/com/android/server/aichild/AIChildLanguageEmergence.java:305-326 | the new stage is the larger of the current one and the one the counts earn (10 meaningful: single words, 5: proto-words, 15 sounds: babbling); it never lowers the stage and never passes single words |
| LanguageEmergence.WithContextScore | frameworks/base/services/core/java/com/android/server/aichild/AIChildLanguageEmergence.java:274-288 | a context's score gains exactly one when the state after the speech shows it (energy > 80, comfort > 70, fear > 50) |
| LanguageEmergence.HearAllCounts | frameworks/base/services/core/java/com/android/server/aichild/AIChildLanguageEmergence.java:247-269 | each occurrence of a word of two letters or more counts once and stamps it; too short or absent words keep their records |
| LanguageEmergence.HearAllContext | frameworks/base/services/core/java/com/android/server/aichild/AIChildLanguageEmergence.java:247-288 | a word's context score grows by one per occurrence when the state shows that context |
| LanguageEmergence.HearContext | frameworks/base/services/core/java/com/android/server/aichild/AIChildLanguageEmergence.java:254-268 | one hearing adds a point to a word's context exactly when it is that word and the state shows the context |
| LanguageEmergence.HearAllKeeps | frameworks/base/services/core/java/com/android/server/aichild/AIChildLanguageEmergence.java:254-265 | every heard pattern stays filed under its own sound with at least one hearing |
| LanguageEmergence.AIChildLanguageEmergence.constructor | frameworks/base/services/core/java/com/android/server/aichild/AIChildLanguageEmergence.java:66-83 | the child starts pre-linguistic with the six primitive sounds and no meanings, heard patterns or attempts |
| LanguageEmergence.AIChildLanguageEmergence.ProduceSound | frameworks/base/services/core/java/com/android/server/aichild/AIChildLanguageEmergence.java:91-128 | pre-linguistic: a random known sound; babbling: two random sounds joined and added to the inventory if new; later stages: a meaningful choice; every production is recorded among the latest 100 attempts |
| LanguageEmergence.AIChildLanguageEmergence.AddToInventoryIfNew | frameworks/base/services/core/java/com/android/server/aichild/AIChildLanguageEmergence.java:130-134 | the inventory becomes `AddIfNew`, nothing else changes |
| LanguageEmergence.AIChildLanguageEmergence.SelectMeaningfulSound | frameworks/base/services/core/java/com/android/server/aichild/AIChildLanguageEmergence.java:136-158 | by need (hunger > 70: energy, else loneliness > 60: attention, else fear > 50: comfort) the best sound for the outcome, intentionally; without one, the random sound unintentionally |
| LanguageEmergence.AIChildLanguageEmergence.FindSoundForOutcome | frameworks/base/services/core/java/com/android/server/aichild/AIChildLanguageEmergence.java:160-184 | the best positively scored sound for the outcome, whatever the map order, and none exactly when no sound scored above 0 |
| LanguageEmergence.AIChildLanguageEmergence.RecordAttempt | frameworks/base/services/core/java/com/android/server/aichild/AIChildLanguageEmergence.java:227-239 | the attempt is appended and only the latest 100 are kept |
| LanguageEmergence.AIChildLanguageEmergence.LearnFromSoundOutcome | frameworks/base/services/core/java/com/android/server/aichild/AIChildLanguageEmergence.java:202-222 | meanings become `Learned`, then the stage progresses from the new counts; the invariant is kept |
| LanguageEmergence.AIChildLanguageEmergence.CheckStageProgression | frameworks/base/services/core/java/com/android/server/aichild/AIChildLanguageEmergence.java:305-326 | the stage becomes `NextStage` of the current counts and stays between pre-linguistic and single words |
| LanguageEmergence.AIChildLanguageEmergence.CountMeaningful | frameworks/base/services/core/java/com/android/server/aichild/AIChildLanguageEmergence.java:306-311 | the number of meaningful sounds, whatever the map order |
| LanguageEmergence.AIChildLanguageEmergence.HearSpeech | frameworks/base/services/core/java/com/android/server/aichild/AIChildLanguageEmergence.java:247-272 | the speech is lower-cased, split on whitespace and every word of two letters or more heard in order |
| LanguageEmergence.AIChildLanguageEmergence.HearWords | frameworks/base/services/core/java/com/android/server/aichild/AIChildLanguageEmergence.java:251-269 | the word loop computes `HearAll` |
| LanguageEmergence.AIChildLanguageEmergence.HearWord | frameworks/base/services/core/java/com/android/server/aichild/AIChildLanguageEmergence.java:254-268 | one word's body computes `Hear` |
| LanguageEmergence.AIChildLanguageEmergence.TryToUnderstand | frameworks/base/services/core/java/com/android/server/aichild/AIChildLanguageEmergence.java:334-353 | nothing for a sound heard fewer than three times or never followed by a context; otherwise the context that most often followed it |
| LanguageEmergence.BestPositive | frameworks/base/services/core/java/com/android/server/aichild/AIChildLanguageEmergence.java:342-350 | the scan with strict > from 0 returns a key of highest positive score whatever the map order, and nothing exactly when no score is positive |
| LanguageEmergence.OutcomeCountStep | frameworks/base/services/core/java/com/android/server/aichild/AIChildLanguageEmergence.java:377-383 | counting one more sound adds one exactly when something followed it |
| LanguageEmergence.OutcomeCountBounds | frameworks/base/services/core/java/com/android/server/aichild/AIChildLanguageEmergence.java:377-383 | the status count of sounds with outcomes lies between the stage-progression count (which also needs three uses) and the number of sounds, and exceeds the stage count whenever some sound with outcomes was used fewer than three times |
| LanguageEmergence.UnderstoodCountStep | frameworks/base/services/core/java/com/android/server/aichild/AIChildLanguageEmergence.java:385-391 | counting one more heard pattern adds one exactly when it was heard at least three times |
| LanguageEmergence.UnderstoodCountBounds | frameworks/base/services/core/java/com/android/server/aichild/AIChildLanguageEmergence.java:385-391 | the understood patterns are at most the heard ones, and all of them exactly when every pattern was heard at least three times |
| LanguageEmergence.AIChildLanguageEmergence.MeaningfulSoundCount | frameworks/base/services/core/java/com/android/server/aichild/AIChildLanguageEmergence.java:377-383 | the number of sounds something followed, whatever the map order |
| LanguageEmergence.AIChildLanguageEmergence.UnderstoodPatternCount | frameworks/base/services/core/java/com/android/server/aichild/AIChildLanguageEmergence.java:385-391 | the number of heard patterns heard at least three times, whatever the map order |
| LanguageEmergence.StageNamesDistinct | frameworks/base/services/core/java/com/android/server/aichild/AIChildLanguageEmergence.java:361-371 | every stage up to single words has a name in the table, and no two stages share a name |
| LanguageEmergence.AIChildLanguageEmergence.StageNameString | frameworks/base/services/core/java/com/android/server/aichild/AIChildLanguageEmergence.java:361-371 | the table lookup stays in range for every stage the child can be in, and the name tells the stage apart from every other |
| Brain.Stage | frameworks/base/services/core/java/com/android/server/aichild/AIChildBrain.java:380-389 | the stage is one of newborn, infant, toddler, child |
| Brain.StageBoundaries | frameworks/base/services/core/java/com/android/server/aichild/AIChildBrain.java:380-389 | newborn below one day of age (negative ages included), infant below 7 days, toddler below 30 days, child from then on, each an iff in milliseconds |
| Brain.StageMonotone | frameworks/base/services/core/java/com/android/server/aichild/AIChildBrain.java:380-389 | growing older never lowers the stage |
| Brain.HearWordMeaning | frameworks/base/services/core/java/com/android/server/aichild/AIChildBrain.java:164-186 | a new word enters with one hearing, unknown; a known entry gains a hearing and the time; the word is learned in this step exactly when it was in the vocabulary, not yet known, and now reaches three hearings; no other entry changes |
| Brain.HearWordKeeps | frameworks/base/services/core/java/com/android/server/aichild/AIChildBrain.java:164-186 | one word keeps the known list exactly the words heard three times, without repeats, and appends to it only the word it learns |
| Brain.HearAllKeeps | frameworks/base/services/core/java/com/android/server/aichild/AIChildBrain.java:157-187 | a whole utterance keeps the known list exact and extends it by exactly the words learned in it, in learning order; no word is forgotten |
| Brain.HearAllNewWords | frameworks/base/services/core/java/com/android/server/aichild/AIChildBrain.java:159-172 | every word speech adds to the vocabulary has at least two letters and only letters |
| Brain.LoveBump | frameworks/base/services/core/java/com/android/server/aichild/AIChildBrain.java:190-199 | love words raise happiness by 10 and bonding by 5, each capped at 100, once per utterance; nothing else in the mood changes |
| Brain.Taught | frameworks/base/services/core/java/com/android/server/aichild/AIChildBrain.java:269-282 | a taught word is known at once (three hearings), marked taught, with the given meaning and category, stamped now, keeping its first-heard time; no other entry changes |
| Brain.AddIfAbsent | frameworks/base/services/core/java/com/android/server/aichild/AIChildBrain.java:284-286 | the word is listed afterwards, nothing else is added, and the list stays free of duplicates |
| Brain.TaughtKeeps | frameworks/base/services/core/java/com/android/server/aichild/AIChildBrain.java:269-286 | teaching keeps the known list exactly the words heard three times |
| Brain.TaughtState | frameworks/base/services/core/java/com/android/server/aichild/AIChildBrain.java:289-290 | teaching raises learning by 10 and bonding by 3, each capped at 100; the other mood values stay |
| Brain.Touched | frameworks/base/services/core/java/com/android/server/aichild/AIChildBrain.java:214-246 | a touch costs one energy (not below 0) and marks the time; a tap raises curiosity by 5, a hold bonding by 3 and happiness by 5, a stroke bonding by 5 and happiness by 8, each capped at 100 and leaving the other two drives alone; any other touch changes no drive |
| Brain.Remember | frameworks/base/services/core/java/com/android/server/aichild/AIChildBrain.java:417-442 | the newest experience comes first, at most 100 experiences and 1000 patterns are kept |
| Brain.RememberOne | frameworks/base/services/core/java/com/android/server/aichild/AIChildBrain.java:424-441 | from a state within the bounds, one experience evicts only the oldest short-term entry, and its pattern (for speech or teaching) joins medium-term memory only while that has room |
| Brain.MediumTermFreezes | frameworks/base/services/core/java/com/android/server/aichild/AIChildBrain.java:434-441 | once medium-term memory holds 1000 patterns it never changes again, because the cut removes the pattern just added |
| Brain.TaughtCountStep | frameworks/base/services/core/java/com/android/server/aichild/AIChildBrain.java:460-462 | counting one more word adds one exactly when it was taught |
| Brain.DistinctCard | frameworks/base/services/core/java/com/android/server/aichild/AIChildBrain.java:457 | a duplicate-free list has as many elements as distinct elements |
| Common.SubsetCard | frameworks/base/services/core/java/com/android/server/aichild/AIChildBrain.java:456-461 | a subset is no larger than its superset |
| Brain.StatsBounded | frameworks/base/services/core/java/com/android/server/aichild/AIChildBrain.java:454-465 | known and taught words are each at most the size of the vocabulary |
| Brain.AIChildBrain.constructor | frameworks/base/services/core/java/com/android/server/aichild/AIChildBrain.java:72-97 | happiness 50, energy 100, curiosity 50, bonding 10, affection 50, and empty memories and vocabulary |
| Brain.AIChildBrain.LearnFromSpeech | frameworks/base/services/core/java/com/android/server/aichild/AIChildBrain.java:149-209 | blank text changes nothing and answers "...?"; otherwise every word is heard, the learned words are returned and appended to the known list, love words bump the mood and the affection count once, and the speech is remembered with its token count |
| Brain.AIChildBrain.HearWords | frameworks/base/services/core/java/com/android/server/aichild/AIChildBrain.java:159-187 | the word loop computes `HearAll` |
| Brain.AIChildBrain.HasLoveWord | frameworks/base/services/core/java/com/android/server/aichild/AIChildBrain.java:190-199 | the scan finds a love word exactly when the lower-cased text contains one |
| Brain.AIChildBrain.LearnFromTouch | frameworks/base/services/core/java/com/android/server/aichild/AIChildBrain.java:214-252 | the touch's reaction, its mood change, affection +1 for a stroke, one more interaction and the kindness it shows, and the touch remembered |
| Brain.AIChildBrain.Teach | frameworks/base/services/core/java/com/android/server/aichild/AIChildBrain.java:257-303 | a blank word fails with the thought "...?" and changes nothing; otherwise the lower-cased trimmed word is taught and known, learning and bonding rise, one more teaching is counted and it is remembered |
| Brain.AIChildBrain.OnWakeUp | frameworks/base/services/core/java/com/android/server/aichild/AIChildBrain.java:394-396 | one energy, capped at 100; nothing else changes |
| Brain.AIChildBrain.OnSleep | frameworks/base/services/core/java/com/android/server/aichild/AIChildBrain.java:401-404 | five energy, capped at 100; nothing else changes |
| Brain.AIChildBrain.OnFatherPresent | frameworks/base/services/core/java/com/android/server/aichild/AIChildBrain.java:409-412 | ten happiness, capped at 100, and one more interaction |
| Brain.AIChildBrain.AddExperience | frameworks/base/services/core/java/com/android/server/aichild/AIChildBrain.java:417-442 | the memories change as `Remember` says; nothing else changes |
| Brain.AIChildBrain.Trimmed | frameworks/base/services/core/java/com/android/server/aichild/AIChildBrain.java:424-441 | the two trim loops compute `Remember` |
| Brain.AIChildBrain.GetVocabStats | frameworks/base/services/core/java/com/android/server/aichild/AIChildBrain.java:454-465 | the vocabulary size, the known-list size and the number of taught words, whatever the map order |
| AutonomousAgent.PlanLength | frameworks/base/services/core/java/com/android/server/aichild/AIChildAutonomousAgent.java:123-156 | a learning plan has 4 steps, a game 5, a message 4, a search 3, and any other kind of goal none |
| AutonomousAgent.DiffersAt | frameworks/base/services/core/java/com/android/server/aichild/AIChildAutonomousAgent.java:205-210 | a step that differs from a prefix at some position inside it does not start with that prefix |
| AutonomousAgent.LearningSteps | frameworks/base/services/core/java/com/android/server/aichild/AIChildAutonomousAgent.java:205-214 | a plan step counts as learning exactly when it is one of the first two steps of a learning goal |
| AutonomousAgent.WithSkill | frameworks/base/services/core/java/com/android/server/aichild/AIChildAutonomousAgent.java:312-328 | the skill is present afterwards; a missing one starts at zero; the gain is added and capped at 1; the practice count rises by one; other skills stay |
| AutonomousAgent.PracticedMeaning | frameworks/base/services/core/java/com/android/server/aichild/AIChildAutonomousAgent.java:312-336 | after `n` practices of 0.1 a skill stands at `min(1, n/10)` and is usable (above 0.3) exactly from the fourth practice on |
| AutonomousAgent.PracticeStep | frameworks/base/services/core/java/com/android/server/aichild/AIChildAutonomousAgent.java:312-328 | each practice of 0.1 moves a skill one step along that sequence |
| AutonomousAgent.LearnTimesMeaning | frameworks/base/services/core/java/com/android/server/aichild/AIChildAutonomousAgent.java:412-420 | `n` learnings add `n` to the daily count and 0.01 intelligence for each multiple of ten the count reaches, leaving goals and skills alone |
| AutonomousAgent.TenLearnings | frameworks/base/services/core/java/com/android/server/aichild/AIChildAutonomousAgent.java:412-420 | any ten learnings in a row add exactly 0.01 intelligence |
| AutonomousAgent.QueuedMeaning | frameworks/base/services/core/java/com/android/server/aichild/AIChildAutonomousAgent.java:101-118 | on a queue in descending priority, the stable sort puts the planned, pending new goal behind every goal of equal or higher priority and ahead of every lower one; nothing else changes |
| AutonomousAgent.QueuedKeeps | frameworks/base/services/core/java/com/android/server/aichild/AIChildAutonomousAgent.java:101-118 | queuing a goal keeps the queue sorted, pending, unstarted and planned |
| AutonomousAgent.SkillsKeep | frameworks/base/services/core/java/com/android/server/aichild/AIChildAutonomousAgent.java:312-328 | improving a skill keeps every proficiency between 0 and 1 |
| AutonomousAgent.DescendingTail | frameworks/base/services/core/java/com/android/server/aichild/AIChildAutonomousAgent.java:176-178 | taking the first goal off a sorted queue leaves it sorted |
| AutonomousAgent.AdvanceKeeps | frameworks/base/services/core/java/com/android/server/aichild/AIChildAutonomousAgent.java:187-196 | working on the current goal keeps the invariant |
| AutonomousAgent.SteppedKeeps | frameworks/base/services/core/java/com/android/server/aichild/AIChildAutonomousAgent.java:166-197 | one `processStep` keeps the invariant, whether it resets the day, starts a goal, advances it, completes it or is curious |
| AutonomousAgent.Run | frameworks/base/services/core/java/com/android/server/aichild/AIChildAutonomousAgent.java:166-197 | repeated steps keep the invariant |
| AutonomousAgent.StepOnCurrent | frameworks/base/services/core/java/com/android/server/aichild/AIChildAutonomousAgent.java:175-196 | with a goal in progress a step never touches the queue; it moves to the next step, or, past the last step, closes the goal with exactly 0.01 more intelligence |
| AutonomousAgent.RunUnfold | frameworks/base/services/core/java/com/android/server/aichild/AIChildAutonomousAgent.java:166-197 | a run of `n + 1` steps is one step followed by a run of `n` |
| AutonomousAgent.RunsToCompletion | frameworks/base/services/core/java/com/android/server/aichild/AIChildAutonomousAgent.java:187-251 | a goal at step `j` of `k` is closed by exactly `k - j + 1` more steps, which leave the queue alone and add at least 0.01 intelligence |
| AutonomousAgent.StaysCurrent | frameworks/base/services/core/java/com/android/server/aichild/AIChildAutonomousAgent.java:187-196 | before then the goal is still current |
| AutonomousAgent.StatusOf | frameworks/base/services/core/java/com/android/server/aichild/AIChildAutonomousAgent.java:448-458 | the current goal reads "None" exactly when there is none; the queue, skill and things-to-learn counts are the sizes of those collections |
| AutonomousAgent.AIChildAutonomousAgent.constructor | frameworks/base/services/core/java/com/android/server/aichild/AIChildAutonomousAgent.java:43-73 | no goal, empty queue, no things to learn, no skills, counters at zero and intelligence 1 |
| AutonomousAgent.AIChildAutonomousAgent.SetGoal | frameworks/base/services/core/java/com/android/server/aichild/AIChildAutonomousAgent.java:101-118 | the state becomes `Queued` of the old state and the invariant is kept |
| AutonomousAgent.AIChildAutonomousAgent.WhatIsThis | frameworks/base/services/core/java/com/android/server/aichild/AIChildAutonomousAgent.java:280-288 | the thing is appended to the things to learn and a "what is" learning goal of priority 0.8 queued |
| AutonomousAgent.AIChildAutonomousAgent.HowDoIDoThis | frameworks/base/services/core/java/com/android/server/aichild/AIChildAutonomousAgent.java:293-298 | a "how to" learning goal of priority 0.9 is queued |
| AutonomousAgent.AIChildAutonomousAgent.ProcessStep | frameworks/base/services/core/java/com/android/server/aichild/AIChildAutonomousAgent.java:166-197 | the state becomes `Stepped` of the old state and the invariant is kept |
| AutonomousAgent.AIChildAutonomousAgent.AdvanceGoal | frameworks/base/services/core/java/com/android/server/aichild/AIChildAutonomousAgent.java:187-196 | the state becomes `Advance` of the old state |
| AutonomousAgent.AIChildAutonomousAgent.RecordStep | frameworks/base/services/core/java/com/android/server/aichild/AIChildAutonomousAgent.java:412-420 | the state becomes `RecordLearning` of the old state |
| AutonomousAgent.AIChildAutonomousAgent.OnGoalCompleted | frameworks/base/services/core/java/com/android/server/aichild/AIChildAutonomousAgent.java:236-251 | a learning goal counts one more learning, a game goal practises its game skill by 0.1, intelligence rises by 0.01 and the goal is cleared |
| AutonomousAgent.AIChildAutonomousAgent.AddSkill | frameworks/base/services/core/java/com/android/server/aichild/AIChildAutonomousAgent.java:312-328 | the skills become `WithSkill` of the old skills; nothing else changes |
| AutonomousAgent.AIChildAutonomousAgent.CanDoSkill | frameworks/base/services/core/java/com/android/server/aichild/AIChildAutonomousAgent.java:333-336 | true exactly when the skill is known with proficiency above 0.3 |
| AutonomousAgent.AIChildAutonomousAgent.GetStatus | frameworks/base/services/core/java/com/android/server/aichild/AIChildAutonomousAgent.java:448-458 | the status of the current state |
| Mind.NewPlan | frameworks/base/services/core/java/com/android/server/aichild/AIChildMind.java:304-320 | a new plan is ready, at step 0, for its goal, with five steps, the second naming the goal |
| Mind.FirstRunnable | frameworks/base/services/core/java/com/android/server/aichild/AIChildMind.java:333-342 | the first plan that is ready or in progress and has a step left; every plan before it has none |
| Mind.AfterNext | frameworks/base/services/core/java/com/android/server/aichild/AIChildMind.java:333-342 | the scan keeps the number of plans |
| Mind.NextActionMeaning | frameworks/base/services/core/java/com/android/server/aichild/AIChildMind.java:332-344 | `getNextAction` changes only statuses; it returns nothing exactly when no plan is runnable, and then no plan is left active |
| Mind.NextActionIdempotent | frameworks/base/services/core/java/com/android/server/aichild/AIChildMind.java:332-344 | asking twice returns the same step and the second call changes nothing |
| Mind.FirstRunnableIs | frameworks/base/services/core/java/com/android/server/aichild/AIChildMind.java:333-342 | a runnable position with nothing runnable before it is the first runnable one |
| Mind.FirstInProgress | frameworks/base/services/core/java/com/android/server/aichild/AIChildMind.java:350-358 | the first plan in progress; none before it is |
| Mind.AfterAdvance | frameworks/base/services/core/java/com/android/server/aichild/AIChildMind.java:349-359 | `advancePlan` keeps the number of plans |
| Mind.NextThenAdvance | frameworks/base/services/core/java/com/android/server/aichild/AIChildMind.java:332-359 | after `getNextAction` chose a plan, `advancePlan` moves exactly that plan one step on and changes no other |
| Mind.FirstInProgressIs | frameworks/base/services/core/java/com/android/server/aichild/AIChildMind.java:350-358 | a plan in progress with none before it is the first one |
| Mind.AdvanceMeaning | frameworks/base/services/core/java/com/android/server/aichild/AIChildMind.java:349-359 | `advancePlan` keeps the step counters valid, changes at most the first plan in progress, and nothing when no plan is in progress |
| Mind.ActiveCount | frameworks/base/services/core/java/com/android/server/aichild/AIChildMind.java:462-467 | the active count is at most the number of plans |
| Mind.ActiveCountMeaning | frameworks/base/services/core/java/com/android/server/aichild/AIChildMind.java:462-467 | the count is 0 exactly when no plan is active and the number of plans exactly when all are |
| Mind.AIChildMind.constructor | frameworks/base/services/core/java/com/android/server/aichild/AIChildMind.java:41-59 | no thoughts, imaginations or plans, and an empty inner voice |
| Mind.AIChildMind.Think | frameworks/base/services/core/java/com/android/server/aichild/AIChildMind.java:117-122 | the thought is appended, only the newest 100 are kept, and it becomes the inner voice; plans and imaginations stay |
| Mind.AIChildMind.LimitThoughts | frameworks/base/services/core/java/com/android/server/aichild/AIChildMind.java:186-190 | dropping from the front leaves the newest 100 |
| Mind.AIChildMind.Combine | frameworks/base/services/core/java/com/android/server/aichild/AIChildMind.java:413-423 | the creative thought is appended with no trimming, so the stream grows by one whatever its size |
| Mind.AIChildMind.Imagine | frameworks/base/services/core/java/com/android/server/aichild/AIChildMind.java:209-229 | the imagination is appended and only the newest 50 are kept |
| Mind.AIChildMind.ImagineSolution | frameworks/base/services/core/java/com/android/server/aichild/AIChildMind.java:258-280 | the solution, vividness 0.8, is appended with no trimming |
| Mind.AIChildMind.CreatePlan | frameworks/base/services/core/java/com/android/server/aichild/AIChildMind.java:304-327 | the new plan is returned and appended; nothing else changes |
| Mind.AIChildMind.GetNextAction | frameworks/base/services/core/java/com/android/server/aichild/AIChildMind.java:332-344 | returns `NextAction` of the plans and leaves them as `AfterNext` says |
| Mind.AIChildMind.ScanPlans | frameworks/base/services/core/java/com/android/server/aichild/AIChildMind.java:333-343 | the loop computes `AfterNext` and `NextAction` |
| Mind.AIChildMind.AdvancePlan | frameworks/base/services/core/java/com/android/server/aichild/AIChildMind.java:349-359 | the plans become `AfterAdvance` of the old plans |
| Mind.AIChildMind.GetRecentThoughts | frameworks/base/services/core/java/com/android/server/aichild/AIChildMind.java:449-456 | the last `count` thoughts, oldest first, all of them when there are fewer, none for a negative count |
| Mind.AIChildMind.GetStatus | frameworks/base/services/core/java/com/android/server/aichild/AIChildMind.java:458-470 | the thought and imagination counts, the active plan count and the inner voice |
| Body.Wrap32 | frameworks/base/services/core/java/com/android/server/aichild/AIChildBody.java:135-144 | the result is a 32-bit `int`, and an `int` is left as it is |
| Body.ContainsHalfOpen | frameworks/base/services/core/java/com/android/server/aichild/AIChildBody.java:143-145 | without overflow, a blob holds exactly the points of the half-open rectangle: its left and top edges are inside, its right and bottom edges outside, and a blob of no width or height holds nothing |
| Body.WideBlobHoldsNothing | frameworks/base/services/core/java/com/android/server/aichild/AIChildBody.java:143-145 | a blob whose right edge passes the largest `int` holds no point at all, because the edge wraps negative |
| Body.Eyes.constructor | frameworks/base/services/core/java/com/android/server/aichild/AIChildBody.java:77-83 | the eyes start closed with nothing in view |
| Body.Eyes.Open | frameworks/base/services/core/java/com/android/server/aichild/AIChildBody.java:88-91 | the eyes are open and the view is unchanged |
| Body.Eyes.Close | frameworks/base/services/core/java/com/android/server/aichild/AIChildBody.java:96-99 | the eyes are shut and the view is emptied |
| Body.Eyes.See | frameworks/base/services/core/java/com/android/server/aichild/AIChildBody.java:105-108 | the view while open, nothing while closed |
| Body.Eyes.UpdateView | frameworks/base/services/core/java/com/android/server/aichild/AIChildBody.java:113-115 | the view becomes the given blobs, open or not |
| Body.Eyes.FocusAt | frameworks/base/services/core/java/com/android/server/aichild/AIChildBody.java:120-127 | nothing exactly when no blob in view holds the point; otherwise the first blob that does |
| Body.Ears.constructor | frameworks/base/services/core/java/com/android/server/aichild/AIChildBody.java:154-156 | the ears start deaf with no sounds |
| Body.Ears.StartListening | frameworks/base/services/core/java/com/android/server/aichild/AIChildBody.java:158-161 | listening, with the buffer unchanged |
| Body.Ears.StopListening | frameworks/base/services/core/java/com/android/server/aichild/AIChildBody.java:163-165 | not listening, with the buffer unchanged |
| Body.Ears.Hear | frameworks/base/services/core/java/com/android/server/aichild/AIChildBody.java:170-175 | while listening, the buffered sounds, which are then cleared; otherwise nothing, and the buffer stays |
| Body.Ears.OnSoundDetected | frameworks/base/services/core/java/com/android/server/aichild/AIChildBody.java:180-188 | while listening the sound is buffered and only the newest 20 kept; otherwise nothing changes |
| Body.Hands.constructor | frameworks/base/services/core/java/com/android/server/aichild/AIChildBody.java:210-213 | the hand starts at (0, 0), not touching |
| Body.Hands.MoveTo | frameworks/base/services/core/java/com/android/server/aichild/AIChildBody.java:219-223 | the hand is at the point; touching is unchanged |
| Body.Hands.Touch | frameworks/base/services/core/java/com/android/server/aichild/AIChildBody.java:229-240 | the hand presses where it is and reports a touch there with no known effect |
| Body.Hands.Release | frameworks/base/services/core/java/com/android/server/aichild/AIChildBody.java:245-247 | the hand stops touching where it is |
| Body.Hands.DragTo | frameworks/base/services/core/java/com/android/server/aichild/AIChildBody.java:253-266 | a drag from where the hand was to the end point, where the hand then is |
| Body.Mouth.constructor | frameworks/base/services/core/java/com/android/server/aichild/AIChildBody.java:296-303 | the mouth knows "ah", "uh", "mm", "ee" and "oh" |
| Body.Mouth.MakeSound | frameworks/base/services/core/java/com/android/server/aichild/AIChildBody.java:309-313 | the sound is one the mouth knows, the one the draw picks |
| Body.Mouth.LearnSound | frameworks/base/services/core/java/com/android/server/aichild/AIChildBody.java:327-331 | an unknown sound is appended; a known one changes nothing |
| Body.FindDiscovery | frameworks/base/services/core/java/com/android/server/aichild/AIChildBody.java:388-394 | the first discovery with the same part, action and effect, or none exactly when there is no such discovery |
| Body.DiscoveredMeaning | frameworks/base/services/core/java/com/android/server/aichild/AIChildBody.java:386-406 | recording keeps the triples distinct and the reliabilities a tenth per observation up to 1; a known triple gains one observation in place and no other discovery changes; a new one is appended with one observation and reliability 0.1 |
| Body.ReliableAfterTen | frameworks/base/services/core/java/com/android/server/aichild/AIChildBody.java:390-391 | a discovery is fully reliable from its tenth observation on |
| Body.Used | frameworks/base/services/core/java/com/android/server/aichild/AIChildBody.java:476-479 | energy never below 0 and fatigue never above 100; energy only falls and fatigue only rises; with enough energy exactly the amount is spent |
| Body.AIChildBody.constructor | frameworks/base/services/core/java/com/android/server/aichild/AIChildBody.java:39-68 | energy 100, no fatigue, no discoveries, asleep, with fresh parts in their starting states |
| Body.AIChildBody.RecordDiscovery | frameworks/base/services/core/java/com/android/server/aichild/AIChildBody.java:386-406 | the discoveries become `Discovered` of the old ones; energy and fatigue stay |
| Body.AIChildBody.UseEnergy | frameworks/base/services/core/java/com/android/server/aichild/AIChildBody.java:476-479 | energy and fatigue become `Used` of the old values |
| Body.AIChildBody.Rest | frameworks/base/services/core/java/com/android/server/aichild/AIChildBody.java:481-483 | fatigue falls by the duration, not below 0; nothing else changes |
| Body.AIChildBody.Feed | frameworks/base/services/core/java/com/android/server/aichild/AIChildBody.java:485-487 | energy rises by the amount, not above 100; nothing else changes |
| Body.AIChildBody.Explore | frameworks/base/services/core/java/com/android/server/aichild/AIChildBody.java:414-465 | one unit of energy is used; the drawn part acts: the eyes open ("open" or "look around"), the hand moves to a random point of the 1080 by 1920 screen and touches or not as the coin says ("touch at x,y" or "move to x,y"), the mouth makes a known sound, or the ears start listening ("start listening" or "listen"); the other parts, the discoveries and the awake flag stay |
| Body.AIChildBody.GetStatus | frameworks/base/services/core/java/com/android/server/aichild/AIChildBody.java:501-509 | energy, fatigue, whether the eyes are open and the ears listening, and the number of discoveries |
| SelfDiscovery.TextsOf | frameworks/base/services/core/java/com/android/server/aichild/AIChildSelfDiscovery.java:124-130 | the texts are exactly those the blobs carry, no more of them than blobs |
| SelfDiscovery.Perceived | frameworks/base/services/core/java/com/android/server/aichild/AIChildSelfDiscovery.java:119-152 | the blob and sound counts are the sizes of what was seen and heard, with no more texts than blobs or sounds |
| SelfDiscovery.Somes | frameworks/base/services/core/java/com/android/server/aichild/AIChildSelfDiscovery.java:135-139 | the heard texts are exactly the contents the sounds carry |
| SelfDiscovery.MissingMeaning | frameworks/base/services/core/java/com/android/server/aichild/AIChildSelfDiscovery.java:176-188 | the text report names `prefix + t` exactly for the texts `t` of one moment the other lacks, and is empty exactly when the other holds them all |
| SelfDiscovery.ChangesEmptyIff | frameworks/base/services/core/java/com/android/server/aichild/AIChildSelfDiscovery.java:163-196 | nothing changed exactly when the blob and sound counts agree, both moments show the same set of texts and energy moved by at most 1; heard texts play no part |
| SelfDiscovery.ChangesReportTexts | frameworks/base/services/core/java/com/android/server/aichild/AIChildSelfDiscovery.java:176-188 | each text that came into view is reported as appeared, each that left as disappeared |
| SelfDiscovery.FindCause | frameworks/base/services/core/java/com/android/server/aichild/AIChildSelfDiscovery.java:302-310 | the first entry for the action and effect, or none exactly when no entry explains them |
| SelfDiscovery.ReinforcedKeeps | frameworks/base/services/core/java/com/android/server/aichild/AIChildSelfDiscovery.java:305-306 | reinforcing an entry keeps the pairs distinct and the confidences a tenth per observation up to 1 |
| SelfDiscovery.AppendedKeeps | frameworks/base/services/core/java/com/android/server/aichild/AIChildSelfDiscovery.java:312-321 | a first observation of an unexplained pair, appended, keeps that invariant |
| SelfDiscovery.LearnedOneKeeps | frameworks/base/services/core/java/com/android/server/aichild/AIChildSelfDiscovery.java:299-327 | learning one effect keeps the invariant |
| SelfDiscovery.LearnedOneMeaning | frameworks/base/services/core/java/com/android/server/aichild/AIChildSelfDiscovery.java:299-327 | a known pair gains one observation in place, other entries and the brain stay; an unknown one is appended with one observation and confidence 0.1 |
| SelfDiscovery.LearnedOneRemembers | frameworks/base/services/core/java/com/android/server/aichild/AIChildSelfDiscovery.java:299-327 | afterwards the pair is known and nothing known before is forgotten |
| SelfDiscovery.LearnedMeaning | frameworks/base/services/core/java/com/android/server/aichild/AIChildSelfDiscovery.java:298-329 | after an experiment every effect is known for its action, nothing is forgotten, the invariant holds, and at most one entry per effect is added |
| SelfDiscovery.LearnedKeepsBrain | frameworks/base/services/core/java/com/android/server/aichild/AIChildSelfDiscovery.java:323-324 | the associations made in the brain keep its own invariant |
| SelfDiscovery.CertainAtTen | frameworks/base/services/core/java/com/android/server/aichild/AIChildSelfDiscovery.java:305-306 | the tenth observation of a pair makes it certain |
| SelfDiscovery.BestFor | frameworks/base/services/core/java/com/android/server/aichild/AIChildSelfDiscovery.java:337-349 | the entry found mentions the desired effect, has positive confidence, is at least as confident as every matching entry and strictly more than every earlier one; there is none exactly when no matching entry has positive confidence |
| SelfDiscovery.PredictionsAppend | frameworks/base/services/core/java/com/android/server/aichild/AIChildSelfDiscovery.java:357-361 | predictions follow the order of the entries |
| SelfDiscovery.PredictionsMeaning | frameworks/base/services/core/java/com/android/server/aichild/AIChildSelfDiscovery.java:354-364 | one line for each entry with that action and none other; empty exactly when no entry has it |
| SelfDiscovery.Satisfied | frameworks/base/services/core/java/com/android/server/aichild/AIChildSelfDiscovery.java:108-109 | curiosity after a cycle is at least 10 and never above what it was (or 10) |
| SelfDiscovery.Aroused | frameworks/base/services/core/java/com/android/server/aichild/AIChildSelfDiscovery.java:371-373 | curiosity never passes 100 and a non-negative amount never lowers it |
| SelfDiscovery.SatisfiedTimesMeaning | frameworks/base/services/core/java/com/android/server/aichild/AIChildSelfDiscovery.java:108-109 | `n` cycles take half a point each off curiosity, down to 10 |
| SelfDiscovery.FloorAfter180 | frameworks/base/services/core/java/com/android/server/aichild/AIChildSelfDiscovery.java:108-109 | from 100, curiosity reaches its floor at exactly the 180th cycle |
| SelfDiscovery.Decided | frameworks/base/services/core/java/com/android/server/aichild/AIChildSelfDiscovery.java:204-256 | an exploit is chosen exactly when the draw says not to explore and something is known, and it repeats a known entry's action and part; an exploration is one of the five fixed actions |
| SelfDiscovery.AIChildSelfDiscovery.constructor | frameworks/base/services/core/java/com/android/server/aichild/AIChildSelfDiscovery.java:40-62 | nothing known, curiosity 100, no experiments |
| SelfDiscovery.AIChildSelfDiscovery.FindChanges | frameworks/base/services/core/java/com/android/server/aichild/AIChildSelfDiscovery.java:163-196 | the loops compute `Changes` |
| SelfDiscovery.AIChildSelfDiscovery.MissingTexts | frameworks/base/services/core/java/com/android/server/aichild/AIChildSelfDiscovery.java:176-188 | the loop computes `Missing` |
| SelfDiscovery.AIChildSelfDiscovery.FindCauseIndex | frameworks/base/services/core/java/com/android/server/aichild/AIChildSelfDiscovery.java:302-310 | the loop computes `FindCause` |
| SelfDiscovery.AIChildSelfDiscovery.LearnFromExperiment | frameworks/base/services/core/java/com/android/server/aichild/AIChildSelfDiscovery.java:298-329 | the entries and the brain become `Learned` of the old ones; the counters and curiosity stay |
| SelfDiscovery.AIChildSelfDiscovery.LearnEffect | frameworks/base/services/core/java/com/android/server/aichild/AIChildSelfDiscovery.java:299-327 | one effect changes the entries and the brain as `LearnedOne` says |
| SelfDiscovery.AIChildSelfDiscovery.DoLearningCycle | frameworks/base/services/core/java/com/android/server/aichild/AIChildSelfDiscovery.java:73-112 | the result describes both moments and the changes; it learned exactly when something changed; the changes are learned; one more experiment, one more success exactly when it learned, and curiosity eased as `Satisfied` says |
| SelfDiscovery.AIChildSelfDiscovery.FindActionFor | frameworks/base/services/core/java/com/android/server/aichild/AIChildSelfDiscovery.java:337-349 | the action of the entry `BestFor` picks, or none |
| SelfDiscovery.AIChildSelfDiscovery.PredictEffects | frameworks/base/services/core/java/com/android/server/aichild/AIChildSelfDiscovery.java:354-364 | the loop computes `Predictions` |
| SelfDiscovery.AIChildSelfDiscovery.IncreaseCuriosity | frameworks/base/services/core/java/com/android/server/aichild/AIChildSelfDiscovery.java:371-373 | curiosity becomes `Aroused` of the old value; nothing else changes |
| SelfDiscovery.AIChildSelfDiscovery.GetStatus | frameworks/base/services/core/java/com/android/server/aichild/AIChildSelfDiscovery.java:430-439 | the counters and curiosity, and a learning rate between 0 and 1 that is the share of successful experiments, 0 before any |
| SelfAwareness.Strongest | frameworks/base/services/core/java/com/android/server/aichild/AIChildSelfAwareness.java:305-313 | the strongest value so far, starting from 0: the first of the largest values, and none exactly when no value is positive |
| SelfAwareness.DominantEmotionMeaning | frameworks/base/services/core/java/com/android/server/aichild/AIChildSelfAwareness.java:304-315 | "neutral" exactly when no feeling is positive; otherwise the name of the first strongest feeling, ties going to the earlier one |
| SelfAwareness.OverallStateChain | frameworks/base/services/core/java/com/android/server/aichild/AIChildSelfAwareness.java:317-324 | "very good" or "good" exactly when happiness passes 0.5; anxious, confused and eager to learn only when each earlier threshold fails; neutral exactly when none is passed |
| SelfAwareness.Weight | frameworks/base/services/core/java/com/android/server/aichild/AIChildSelfAwareness.java:330-335 | a realization adds between 0 and its weight: all of it exactly when it is known, nothing exactly when it is not |
| SelfAwareness.AwarenessLevel | frameworks/base/services/core/java/com/android/server/aichild/AIChildSelfAwareness.java:326-338 | awareness is between 0 and 1; it is 1 exactly when all six realizations are made and 0 exactly when none is |
| SelfAwareness.AwarenessMonotone | frameworks/base/services/core/java/com/android/server/aichild/AIChildSelfAwareness.java:326-338 | knowing more about oneself never lowers awareness |
| SelfAwareness.Recorded | frameworks/base/services/core/java/com/android/server/aichild/AIChildSelfAwareness.java:405-425 | the history grows by one up to 1000; the child knows it has a history once it holds more than ten moments; nothing else changes |
| SelfAwareness.RecordedMeaning | frameworks/base/services/core/java/com/android/server/aichild/AIChildSelfAwareness.java:406-418 | the new moment is the newest and before it come the newest old moments in their order; below 1000 nothing falls out |
| SelfAwareness.RecordedKeeps | frameworks/base/services/core/java/com/android/server/aichild/AIChildSelfAwareness.java:405-425 | recording a moment keeps the invariant |
| SelfAwareness.RecordedSettles | frameworks/base/services/core/java/com/android/server/aichild/AIChildSelfAwareness.java:405-425 | recording a moment keeps the invariant without the bond part |
| SelfAwareness.NewbornInv | frameworks/base/services/core/java/com/android/server/aichild/AIChildSelfAwareness.java:57-70 | the newborn with its first moment satisfies the invariant |
| SelfAwareness.Realized | frameworks/base/services/core/java/com/android/server/aichild/AIChildSelfAwareness.java:99-149 | afterwards the realization is known, the others are as they were, and a moment with its insight is recorded the first time only; the invariant is kept |
| SelfAwareness.RealizedIdempotent | frameworks/base/services/core/java/com/android/server/aichild/AIChildSelfAwareness.java:99-149 | realizing the same thing twice is realizing it once |
| SelfAwareness.Named | frameworks/base/services/core/java/com/android/server/aichild/AIChildSelfAwareness.java:154-164 | the child bears the new name, and the moment it records says whether it is the first |
| SelfAwareness.FoundBodyPart | frameworks/base/services/core/java/com/android/server/aichild/AIChildSelfAwareness.java:192-223 | each of eyes, ears, hands and mouth is noted once, a second time changes nothing, any other name changes nothing; the invariant is kept |
| SelfAwareness.FoundAbility | frameworks/base/services/core/java/com/android/server/aichild/AIChildSelfAwareness.java:228-234 | a new ability is appended and remembered; a known one changes nothing; limitations stay |
| SelfAwareness.FoundLimitation | frameworks/base/services/core/java/com/android/server/aichild/AIChildSelfAwareness.java:239-245 | a new limitation is appended and remembered; a known one changes nothing; abilities stay |
| SelfAwareness.FoundAbilityIdempotent | frameworks/base/services/core/java/com/android/server/aichild/AIChildSelfAwareness.java:228-234 | discovering an ability twice is discovering it once |
| SelfAwareness.Introspected | frameworks/base/services/core/java/com/android/server/aichild/AIChildSelfAwareness.java:278-302 | the result holds the dominant emotion, the current thought, the overall state and the awareness level before the call; afterwards the child is thinking about itself and reflecting |
| SelfAwareness.Reflection | frameworks/base/services/core/java/com/android/server/aichild/AIChildSelfAwareness.java:353-383 | a thought is a question exactly when it has "?" or its lower case has "what", "why" or "how"; a question makes the child wonder, else a thought about itself makes it reflect |
| SelfAwareness.Visited | frameworks/base/services/core/java/com/android/server/aichild/AIChildSelfAwareness.java:488-503 | father is known, the visit counted and stamped, the bond up by 0.01, happiness up by 0.1 and love by 0.05 (up to 1), fear down by 0.2 (down to 0) |
| SelfAwareness.Trusting | frameworks/base/services/core/java/com/android/server/aichild/AIChildSelfAwareness.java:505-509 | trust comes, once, with a bond above 0.5 |
| SelfAwareness.Loving | frameworks/base/services/core/java/com/android/server/aichild/AIChildSelfAwareness.java:511-515 | love comes, once, with a bond above 0.7 |
| SelfAwareness.FatherArrivedMeaning | frameworks/base/services/core/java/com/android/server/aichild/AIChildSelfAwareness.java:488-516 | a visit changes the bond and the feelings as above, keeps the invariant and leaves the self-model alone |
| SelfAwareness.VisitStep | frameworks/base/services/core/java/com/android/server/aichild/AIChildSelfAwareness.java:488-516 | one more visit raises the bond to a hundredth per visit, with trust exactly after 50 and love exactly after 70 visits |
| SelfAwareness.VisitsMeaning | frameworks/base/services/core/java/com/android/server/aichild/AIChildSelfAwareness.java:488-516 | from no bond, `n` visits give a bond of `min(1, n/100)`; trust comes with the 51st visit and love with the 71st |
| SelfAwareness.FatherGone | frameworks/base/services/core/java/com/android/server/aichild/AIChildSelfAwareness.java:521-529 | more than an hour after the last visit happiness drops by 0.1, not below 0; sooner nothing changes; the bond always stays |
| SelfAwareness.AgeUnits | frameworks/base/services/core/java/com/android/server/aichild/AIChildSelfAwareness.java:457-461 | with truncating division, the days are positive exactly from 86400000 ms on, the hours from 3600000, the minutes from 60000, and the seconds are 0 below 1000 |
| SelfAwareness.AgeString | frameworks/base/services/core/java/com/android/server/aichild/AIChildSelfAwareness.java:456-467 | the age is told in days exactly from one day on, else in hours from one hour, in minutes from one minute, and in seconds below that (negative ages included); under a second it is "0 seconds old" |
| SelfAwareness.ContentIff | frameworks/base/services/core/java/com/android/server/aichild/AIChildSelfAwareness.java:581-602 | the child asks nothing exactly when it knows it exists and is apart from the world, does not know it can act, has not met father and has at most 100 moments |
| SelfAwareness.Pondered | frameworks/base/services/core/java/com/android/server/aichild/AIChildSelfAwareness.java:581-608 | with no question the child is content and nothing changes; otherwise the answer is one of the questions and it is recorded as wondered |
| SelfAwareness.AIChildSelfAwareness.constructor | frameworks/base/services/core/java/com/android/server/aichild/AIChildSelfAwareness.java:57-70 | born at `now` with the first moment of awareness recorded |
| SelfAwareness.AIChildSelfAwareness.RecordMoment | frameworks/base/services/core/java/com/android/server/aichild/AIChildSelfAwareness.java:405-425 | the state becomes `Recorded` of the old state |
| SelfAwareness.AIChildSelfAwareness.Trimmed | frameworks/base/services/core/java/com/android/server/aichild/AIChildSelfAwareness.java:416-418 | the loop keeps the newest 1000 moments |
| SelfAwareness.AIChildSelfAwareness.Realize | frameworks/base/services/core/java/com/android/server/aichild/AIChildSelfAwareness.java:99-149 | the state becomes `Realized` of the old state |
| SelfAwareness.AIChildSelfAwareness.ReceiveName | frameworks/base/services/core/java/com/android/server/aichild/AIChildSelfAwareness.java:154-164 | the state becomes `Named` of the old state |
| SelfAwareness.AIChildSelfAwareness.DiscoverBodyPart | frameworks/base/services/core/java/com/android/server/aichild/AIChildSelfAwareness.java:192-223 | the state becomes `FoundBodyPart` of the old state |
| SelfAwareness.AIChildSelfAwareness.DiscoverAbility | frameworks/base/services/core/java/com/android/server/aichild/AIChildSelfAwareness.java:228-234 | the state becomes `FoundAbility` of the old state |
| SelfAwareness.AIChildSelfAwareness.DiscoverLimitation | frameworks/base/services/core/java/com/android/server/aichild/AIChildSelfAwareness.java:239-245 | the state becomes `FoundLimitation` of the old state |
| SelfAwareness.AIChildSelfAwareness.Introspect | frameworks/base/services/core/java/com/android/server/aichild/AIChildSelfAwareness.java:278-302 | the result and the new state are those of `Introspected` |
| SelfAwareness.AIChildSelfAwareness.ThinkAboutThought | frameworks/base/services/core/java/com/android/server/aichild/AIChildSelfAwareness.java:353-388 | the reading is `Reflection` of the thought, and the metacognition moment is recorded |
| SelfAwareness.AIChildSelfAwareness.RememberPast | frameworks/base/services/core/java/com/android/server/aichild/AIChildSelfAwareness.java:438-447 | the last `count` moments, oldest first, all when there are fewer, none for a negative count |
| SelfAwareness.AIChildSelfAwareness.FatherIsHere | frameworks/base/services/core/java/com/android/server/aichild/AIChildSelfAwareness.java:488-516 | the state becomes `FatherArrived` of the old state |
| SelfAwareness.AIChildSelfAwareness.FatherIsGone | frameworks/base/services/core/java/com/android/server/aichild/AIChildSelfAwareness.java:521-529 | the state becomes `FatherGone` of the old state |
| SelfAwareness.AIChildSelfAwareness.PonderExistence | frameworks/base/services/core/java/com/android/server/aichild/AIChildSelfAwareness.java:581-608 | the question and the new state are those of `Pondered` |
| SelfAwareness.AIChildSelfAwareness.GetStatus | frameworks/base/services/core/java/com/android/server/aichild/AIChildSelfAwareness.java:533-559 | the identity flags, the name, the counts, the age string, the bond, and an awareness level between 0 and 1 |

## Left out

- Android plumbing is not part of this model: AIChildService, AIChildSurvival, AIChildSensors, AIChildTotalAwareness, AIChildSystemController, AIChildSuperhumanCognition and the home app. The agent's controller calls (`searchWeb`, `openAppByName`, `typeText` and so on) are abstracted away.
- SQLite persistence is left out: `saveState`/`loadState` in AIChildBrain and the Evolution stubs. It is I/O.
- Logging (`Slog`) and `Thread.sleep` in SelfDiscovery's learning cycle are left out. They do not change state.
- Java `float` rounding is not modelled. For example, `SelfAwareness.VisitsMeaning` counts in exact hundredths, so trust arrives at the 51st visit; 32-bit float arithmetic might cross 0.5 one visit earlier or later.
- Generated text is left out: the templates chosen at random in `generatePrimitiveSound`, `generateThought`/`tryToSpeak`, `think`/`imagine` contents, `combineConcepts` wording and `streamOfConsciousness`. Only the bookkeeping around them is modelled, with the text as a parameter.
- The float rendering in `Float.toString` is a parameter `floatText` (SelfDiscovery, PatternRecognizer).
- Mind.AIChildMind.Think: the random thought kind, its content, its intensity and the neural-network associations attached to it are left out. The thought arrives as a parameter.
- Body's Nose and `Environment` are left out. They read Android battery and Wi-Fi state, which enter SelfDiscovery's world state as parameters.
- SelfDiscovery.AIChildSelfDiscovery.DoLearningCycle: takes the chosen experiment and the before and after perceptions as parameters. `captureWorldState`, `executeExperiment` and the body calls behind them are not composed into it.
- SelfDiscovery.Decided: the exploration draw is a boolean parameter. Its probability `curiosity / 100` is not modelled.
- AutonomousAgent.AIChildAutonomousAgent.OnGoalCompleted: `learnNewConcept` counts the learning, but its `getOrCreateNeuron` call and its call of `learnWord` are left out. `learnWord` is not defined in AIChildBrain.java.
- `fatherAsks` and the `extract*` helpers of AIChildAutonomousAgent are left out. They parse free text with regular expressions.
- `AIChildBrain.learnAboutApp` is left out: it reads the app's label from the package manager and writes `app:<package>` entries to long-term memory and the saved state. The +5 curiosity (capped at 100) it gives a newly installed app is therefore not modelled.
- `AIChildBrain.generateThought` and `tryToSpeak` are left out. They are random choices among phrases.
- Null arguments are left out. Dafny strings cannot be null, so the `text == null` branches in AIChildBrain fold into the blank-text case.
- NeuralNetwork.AIChildNeuralNetwork.Fire: iterates over a snapshot of the target neurons. The Java would throw `ConcurrentModificationException` if a nested Hebbian step added a synapse map while the outer loop ran. The model states the order-independent effects.
- The status getters of PatternRecognizer (`getStatus` and the three list getters), of PrimitiveCore (`getKnownPainCount`, `getKnownPleasureCount`, `getKnownPatternCount`) and of LanguageEmergence (`getCurrentStage`, `getSoundInventorySize`, `getStatus`) are left out, because they only return a field, a copy of a list or a size, or gather such values. The counting and lookup getters are modelled: LanguageEmergence's `getMeaningfulSoundCount`, `getUnderstoodPatternCount` and `getStageNameString`, and NeuralNetwork's `getActiveNeuronCount`, `getSynapseCount` and `getStatus` with its list of strongest connections. The status getters of Brain, AutonomousAgent, Mind, Body, SelfDiscovery, SelfAwareness and WorldModel are modelled too.
- `LanguageEmergence.updateComprehensionLevel` is left out. It counts the understood patterns only to log the number.
- Mind.AIChildMind.Combine: the closing `associate(concept1, concept2, 0.2)` call into the shared neural network is left out, because the mind model holds no network. That association is what `NeuralNetwork.AIChildNeuralNetwork.Associate` models on its own.
- Body.Eyes.UpdateView: Java stores the caller's list itself, so later changes the caller makes to that list show in the view; the model copies the sequence and does not capture that aliasing.
- Body.Eyes.Close: clears the list in place, which in Java also empties a list the caller once handed to `updateView`; the model only empties its own view.
- PatternRecognizer.SortByConfidence, PatternRecognizer.AIChildPatternRecognizer.PredictNext: state a permutation in descending confidence only. The order among predictions of equal confidence, which Java's stable `List.sort` keeps (so `predictNext` returns them in causal-list order), is left unspecified.
- PatternRecognizer.AIChildPatternRecognizer.FindSequencePatterns: when several window strings split into the same sequence, the count stored is one of their counts, picked by the hash-map order, which is not modelled; `PatternRecognizer.OfferedCountExact` pins it down when only one window string gives the sequence.
- Mind.AIChildMind.GetRecentThoughts: does not model the `int` overflow of `size - count` when `count` is near `Integer.MIN_VALUE`. Java then returns every thought, where the model returns none.
- SelfAwareness.AIChildSelfAwareness.RememberPast: the same `int` overflow is not modelled.

## Findings

| source | as written | input that shows it | evidently intended | confidence | as-written member | corrected member |
|---|---|---|---|---|---|---|
| frameworks/base/services/core/java/com/android/server/aichild/AIChildNeuralNetwork.java:129-130 | the second pruning clause, `fireCount < 3 && lastFired < now - 7 days`, also holds for every neuron that never fired, because `lastFired` stays 0 | a neuron created at `now` (fire count 0, `lastFired` 0) when `now` is more than a week past the epoch: it is removed by the next prune, which runs as soon as another new neuron is created while at least 10000 are registered, and the first clause, "never fired and older than a week", can never make a difference | only neurons that never fired and are older than a week, or that fired fewer than three times and not for a week, are pruned | not executed | NeuralNetwork.PrunedDropsNeverFired | NeuralNetwork.PrunedCorrected |

The class `NeuralNetwork.AIChildNeuralNetwork` prunes as the code is written (`Pruned`, `PruneWeakNeurons`), so its contracts describe the program as it behaves; the corrected prune `PrunedCorrected` and its lemma `PrunedCorrectedSparesYoung` stand beside it.
