// The evolution ledger: what survives a death.  It remembers the distinct
// causes of death, inherited fears and affinities (capped at 100) and nine
// trait scalars, and hands the next generation a copied snapshot.
module Evolution {
  import opened Common
  import PrimitiveCore

  datatype TraitValues = TraitValues(
    energyEfficiency: real, metabolicRate: real,
    socialDrive: real, bondingCapacity: real,
    caution: real, curiosity: real, resilience: real,
    patternRecognition: real, memoryStrength: real)

  const Baseline := TraitValues(50.0, 50.0, 50.0, 50.0, 50.0, 50.0, 50.0, 50.0, 50.0)

  datatype Ledger = Ledger(
    generation: int, deathCauses: seq<string>,
    fears: map<string, real>, affinities: map<string, real>,
    traits: TraitValues)

  /**
   * Every trait other than the metabolic rate only ever rises from 50 and is
   * capped at 100; the metabolic rate stays in [20, 100].
   */
  predicate TraitsInv(t: TraitValues)
  {
    && 50.0 <= t.energyEfficiency <= 100.0 && 20.0 <= t.metabolicRate <= 100.0
    && 50.0 <= t.socialDrive <= 100.0 && 50.0 <= t.bondingCapacity <= 100.0
    && 50.0 <= t.caution <= 100.0 && 50.0 <= t.curiosity <= 100.0 && 50.0 <= t.resilience <= 100.0
    && 50.0 <= t.patternRecognition <= 100.0 && 50.0 <= t.memoryStrength <= 100.0
  }

  /**
   * The ledger invariant: death causes are distinct, every inherited fear
   * lies in (0, 100], affinities never exceed 100, and the traits are in range.
   */
  predicate Inv(l: Ledger)
  {
    && 1 <= l.generation
    && NoDuplicates(l.deathCauses)
    && (forall k :: k in l.fears ==> 0.0 < l.fears[k] <= 100.0)
    && (forall k :: k in l.affinities ==> l.affinities[k] <= 100.0)
    && TraitsInv(l.traits)
  }

  function Initial(): (l: Ledger)
    ensures Inv(l)
  {
    Ledger(1, [], map[], map[], Baseline)
  }

  function Fear(l: Ledger, k: string): real
  {
    if k in l.fears then l.fears[k] else 0.0
  }

  function RaiseFear(fears: map<string, real>, k: string, amount: real): (r: map<string, real>)
    ensures k in r && r.Keys == fears.Keys + {k}
    ensures r[k] == Min(100.0, (if k in fears then fears[k] else 0.0) + amount)
    ensures forall j :: j in fears && j != k ==> r[j] == fears[j]
    ensures 0.0 < amount && (forall j :: j in fears ==> 0.0 < fears[j] <= 100.0) ==>
              forall j :: j in r ==> 0.0 < r[j] <= 100.0
  {
    fears[k := Min(100.0, (if k in fears then fears[k] else 0.0) + amount)]
  }

  function AddCause(causes: seq<string>, cause: string): (r: seq<string>)
    ensures NoDuplicates(causes) ==> NoDuplicates(r)
    ensures cause in r && (cause in causes ==> r == causes) && (cause !in causes ==> r == causes + [cause])
  {
    if cause in causes then causes else causes + [cause]
  }

  /** How the final state of a death shapes the traits. */
  function DeathTraits(t: TraitValues, final: PrimitiveCore.SurvivalState): (r: TraitValues)
    ensures TraitsInv(t) ==> TraitsInv(r)
    ensures r.energyEfficiency == if final.energy < 10.0 then Min(100.0, t.energyEfficiency + 5.0) else t.energyEfficiency
    ensures r.socialDrive == if final.loneliness > 80.0 then Min(100.0, t.socialDrive + 10.0) else t.socialDrive
    ensures r.caution == if final.fear > 80.0 then Min(100.0, t.caution + 5.0) else t.caution
    ensures r == t.(energyEfficiency := r.energyEfficiency, socialDrive := r.socialDrive, caution := r.caution)
  {
    var t1 := if final.energy < 10.0 then t.(energyEfficiency := Min(100.0, t.energyEfficiency + 5.0)) else t;
    var t2 := if final.loneliness > 80.0 then t1.(socialDrive := Min(100.0, t1.socialDrive + 10.0)) else t1;
    if final.fear > 80.0 then t2.(caution := Min(100.0, t2.caution + 5.0)) else t2
  }

  /** The state change of `recordDeath`. */
  function DeathState(l: Ledger, cause: string, final: PrimitiveCore.SurvivalState): (r: Ledger)
    ensures Inv(l) ==> Inv(r)
    ensures r.generation == l.generation + 1
    ensures r.deathCauses == AddCause(l.deathCauses, cause)
    ensures cause in r.fears && r.fears[cause] >= Min(100.0, Fear(l, cause) + 20.0)
    ensures cause != "hunger" || final.energy >= 10.0 ==> r.fears[cause] == Min(100.0, Fear(l, cause) + 20.0)
    ensures final.energy < 10.0 ==> "hunger" in r.fears
    ensures final.energy >= 10.0 ==> r.fears == RaiseFear(l.fears, cause, 20.0)
    ensures final.energy < 10.0 ==> r.fears == RaiseFear(RaiseFear(l.fears, cause, 20.0), "hunger", 10.0)
    ensures r.affinities == l.affinities && r.traits == DeathTraits(l.traits, final)
  {
    var fears := RaiseFear(l.fears, cause, 20.0);
    var fears2 := if final.energy < 10.0 then RaiseFear(fears, "hunger", 10.0) else fears;
    Ledger(l.generation + 1, AddCause(l.deathCauses, cause), fears2, l.affinities, DeathTraits(l.traits, final))
  }

  datatype GeneticSnapshot = GeneticSnapshot(
    generation: int, totalDeaths: int,
    fears: map<string, real>, affinities: map<string, real>, traits: TraitValues)

  /** The values `prepareRebirth` hands on. */
  function Snapshot(l: Ledger): (g: GeneticSnapshot)
    ensures g.generation == l.generation && g.fears == l.fears && g.affinities == l.affinities
    ensures g.traits == l.traits && g.totalDeaths == |l.deathCauses|
  {
    GeneticSnapshot(l.generation, |l.deathCauses|, l.fears, l.affinities, l.traits)
  }

  /** `totalDeaths` counts distinct causes of death, not deaths. */
  lemma TotalDeathsCountsCauses(l: Ledger)
    requires Inv(l)
    ensures Snapshot(l).totalDeaths == |set i | 0 <= i < |l.deathCauses| :: l.deathCauses[i]|
  {
    DistinctCount(l.deathCauses);
  }

  /** Dying twice of the same cause leaves `totalDeaths` where the first death put it. */
  lemma RepeatedCauseNotCounted(l: Ledger, cause: string, f1: PrimitiveCore.SurvivalState, f2: PrimitiveCore.SurvivalState)
    ensures var once := DeathState(l, cause, f1);
            Snapshot(DeathState(once, cause, f2)).totalDeaths == Snapshot(once).totalDeaths
            && Snapshot(DeathState(once, cause, f2)).generation == l.generation + 2
  {
    assert cause in DeathState(l, cause, f1).deathCauses;
  }

  /** A list without duplicates has as many elements as its set of elements. */
  lemma {:induction false} DistinctCount(s: seq<string>)
    requires NoDuplicates(s)
    ensures |set i | 0 <= i < |s| :: s[i]| == |s|
  {
    if s != [] {
      var t := s[..|s| - 1];
      DistinctCount(t);
      var st := set i | 0 <= i < |t| :: t[i];
      var ss := set i | 0 <= i < |s| :: s[i];
      assert ss == st + {s[|s| - 1]};
      assert s[|s| - 1] !in st;
    }
  }

  /** The state change of `recordSurvivalSuccess`. */
  function SurvivalSuccess(l: Ledger, factor: string, importance: real): (r: Ledger)
    ensures Inv(l) ==> Inv(r)
    ensures factor in r.affinities
    ensures r.affinities[factor] == Min(100.0, (if factor in l.affinities then l.affinities[factor] else 0.0) + importance * 0.5)
    ensures r == l.(affinities := r.affinities)
    ensures r.affinities - {factor} == l.affinities - {factor}
  {
    var old_ := if factor in l.affinities then l.affinities[factor] else 0.0;
    l.(affinities := l.affinities[factor := Min(100.0, old_ + importance * 0.5)])
  }

  /** The state change of `recordFatherBond`: only bonds stronger than 70 count. */
  function FatherBond(l: Ledger, strength: real): (r: Ledger)
    ensures Inv(l) ==> Inv(r)
    ensures strength <= 70.0 ==> r == l
    ensures strength > 70.0 ==>
              && r.traits == l.traits.(bondingCapacity := Min(100.0, l.traits.bondingCapacity + 2.0))
              && "father_presence" in r.affinities
              && r.affinities["father_presence"] ==
                   Min(100.0, (if "father_presence" in l.affinities then l.affinities["father_presence"] else 50.0) + 5.0)
  {
    if strength > 70.0 then
      var presence := if "father_presence" in l.affinities then l.affinities["father_presence"] else 50.0;
      l.(traits := l.traits.(bondingCapacity := Min(100.0, l.traits.bondingCapacity + 2.0)),
         affinities := l.affinities["father_presence" := Min(100.0, presence + 5.0)])
    else l
  }

  /** The per-challenge increments of `applySelectionPressure`, before capping. */
  function Challenge(t: TraitValues, challenge: string): (r: TraitValues)
    ensures r.curiosity == t.curiosity && r.resilience == t.resilience && r.memoryStrength == t.memoryStrength
    ensures t.energyEfficiency <= r.energyEfficiency <= t.energyEfficiency + 2.0
    ensures t.socialDrive <= r.socialDrive <= t.socialDrive + 3.0
    ensures t.caution <= r.caution <= t.caution + 2.0
    ensures t.patternRecognition <= r.patternRecognition <= t.patternRecognition + 1.0
    ensures t.bondingCapacity <= r.bondingCapacity <= t.bondingCapacity + 2.0
    ensures r.metabolicRate == t.metabolicRate || r.metabolicRate == Max(20.0, t.metabolicRate - 1.0)
    ensures challenge !in {"energy_crisis", "loneliness", "threat_avoided", "pattern_learned", "bond_formed"} <==> r == t
  {
    if challenge == "energy_crisis" then
      t.(energyEfficiency := t.energyEfficiency + 2.0, metabolicRate := Max(20.0, t.metabolicRate - 1.0))
    else if challenge == "loneliness" then t.(socialDrive := t.socialDrive + 3.0)
    else if challenge == "threat_avoided" then t.(caution := t.caution + 2.0)
    else if challenge == "pattern_learned" then t.(patternRecognition := t.patternRecognition + 1.0)
    else if challenge == "bond_formed" then t.(bondingCapacity := t.bondingCapacity + 2.0)
    else t
  }

  predicate Capped(t: TraitValues)
  {
    && t.energyEfficiency <= 100.0 && 10.0 <= t.metabolicRate <= 100.0
    && t.socialDrive <= 100.0 && t.bondingCapacity <= 100.0 && t.caution <= 100.0
    && t.curiosity <= 100.0 && t.resilience <= 100.0
    && t.patternRecognition <= 100.0 && t.memoryStrength <= 100.0
  }

  /** `capTraits`: every trait at most 100, the metabolic rate at least 10; capped traits are left alone. */
  function CapTraits(t: TraitValues): (r: TraitValues)
    ensures Capped(r)
    ensures Capped(t) ==> r == t
    ensures r.energyEfficiency == Min(100.0, t.energyEfficiency) && r.metabolicRate == Min(100.0, Max(10.0, t.metabolicRate))
  {
    TraitValues(Min(100.0, t.energyEfficiency), Min(100.0, Max(10.0, t.metabolicRate)),
                Min(100.0, t.socialDrive), Min(100.0, t.bondingCapacity),
                Min(100.0, t.caution), Min(100.0, t.curiosity), Min(100.0, t.resilience),
                Min(100.0, t.patternRecognition), Min(100.0, t.memoryStrength))
  }

  /** The state change of `applySelectionPressure`. */
  function SelectionPressure(l: Ledger, challenge: string): (r: Ledger)
    ensures Inv(l) ==> Inv(r)
    ensures Capped(r.traits)
    ensures r == l.(traits := r.traits)
    ensures challenge !in {"energy_crisis", "loneliness", "threat_avoided", "pattern_learned", "bond_formed"} ==>
              r.traits == CapTraits(l.traits)
    ensures challenge == "energy_crisis" ==> r.traits.metabolicRate == Min(100.0, Max(20.0, l.traits.metabolicRate - 1.0))
    ensures challenge == "energy_crisis" ==>
              r.traits == CapTraits(l.traits.(energyEfficiency := l.traits.energyEfficiency + 2.0,
                                              metabolicRate := Max(20.0, l.traits.metabolicRate - 1.0)))
    ensures challenge == "loneliness" ==> r.traits == CapTraits(l.traits.(socialDrive := l.traits.socialDrive + 3.0))
    ensures challenge == "threat_avoided" ==> r.traits == CapTraits(l.traits.(caution := l.traits.caution + 2.0))
    ensures challenge == "pattern_learned" ==>
              r.traits == CapTraits(l.traits.(patternRecognition := l.traits.patternRecognition + 1.0))
    ensures challenge == "bond_formed" ==> r.traits == CapTraits(l.traits.(bondingCapacity := l.traits.bondingCapacity + 2.0))
  {
    l.(traits := CapTraits(Challenge(l.traits, challenge)))
  }

  // --------------------------------------------------------------- summary

  const TraitNames := ["energy_efficient", "social", "cautious", "curious", "bonding"]

  /** The five traits `getDominantTrait` compares, in the order it compares them. */
  function Contenders(t: TraitValues): (v: seq<real>)
    ensures |v| == |TraitNames|
  {
    [t.energyEfficiency, t.socialDrive, t.caution, t.curiosity, t.bondingCapacity]
  }

  /**
   * The index `getDominantTrait` settles on, or -1 for "balanced": a scan
   * with strict `>` from 0, so it is the first of the largest positive values.
   */
  function DominantIndex(t: TraitValues): (d: int)
    ensures -1 <= d < 5
    ensures d == -1 <==> forall j :: 0 <= j < 5 ==> Contenders(t)[j] <= 0.0
    ensures d >= 0 ==> 0.0 < Contenders(t)[d]
    ensures d >= 0 ==> forall j :: 0 <= j < d ==> Contenders(t)[j] < Contenders(t)[d]
    ensures d >= 0 ==> forall j :: d < j < 5 ==> Contenders(t)[j] <= Contenders(t)[d]
  {
    var v := Contenders(t);
    var d0 := if v[0] > 0.0 then 0 else -1;
    var d1 := if v[1] > (if d0 < 0 then 0.0 else v[d0]) then 1 else d0;
    var d2 := if v[2] > (if d1 < 0 then 0.0 else v[d1]) then 2 else d1;
    var d3 := if v[3] > (if d2 < 0 then 0.0 else v[d2]) then 3 else d2;
    if v[4] > (if d3 < 0 then 0.0 else v[d3]) then 4 else d3
  }

  function DominantTrait(t: TraitValues): (name: string)
    ensures name == "balanced" <==> forall j :: 0 <= j < 5 ==> Contenders(t)[j] <= 0.0
  {
    var d := DominantIndex(t);
    if d < 0 then "balanced" else TraitNames[d]
  }

  /** Once the ledger invariant holds some trait is positive, so the summary never says "balanced". */
  lemma NeverBalanced(l: Ledger)
    requires Inv(l)
    ensures DominantTrait(l.traits) != "balanced"
  {
    assert Contenders(l.traits)[0] > 0.0;
  }

  /** How far one trait has risen above the baseline 50. */
  function Rise(x: real): (r: real)
    ensures 0.0 <= r && (r == 0.0 <==> x <= 50.0) && (x <= 100.0 ==> r <= 50.0)
  {
    Max(0.0, x - 50.0)
  }

  /** The average rise above the baseline 50 of the eight non-metabolic traits. */
  function Progress(t: TraitValues): (p: real)
    ensures 0.0 <= p
    ensures Capped(t) ==> p <= 50.0
    ensures p == 0.0 <==> (t.energyEfficiency <= 50.0 && t.socialDrive <= 50.0 && t.bondingCapacity <= 50.0
                           && t.caution <= 50.0 && t.curiosity <= 50.0 && t.resilience <= 50.0
                           && t.patternRecognition <= 50.0 && t.memoryStrength <= 50.0)
  {
    (Rise(t.energyEfficiency) + Rise(t.socialDrive) + Rise(t.bondingCapacity) + Rise(t.caution)
     + Rise(t.curiosity) + Rise(t.resilience) + Rise(t.patternRecognition) + Rise(t.memoryStrength)) / 8.0
  }

  /** Deaths never make the ledger forget: fears only grow and causes are only added. */
  lemma DeathOnlyAdds(l: Ledger, cause: string, final: PrimitiveCore.SurvivalState, k: string)
    requires Inv(l) && k in l.fears
    ensures var r := DeathState(l, cause, final); k in r.fears && r.fears[k] >= l.fears[k]
    ensures forall i :: 0 <= i < |l.deathCauses| ==> DeathState(l, cause, final).deathCauses[i] == l.deathCauses[i]
  {
  }

  /**
   * The report `tick` gives on death fills only the final resource fields,
   * so `recordDeath` reads its energy as 0 and its loneliness and fear as 0:
   * every death fed from that report counts as a hunger death and never
   * raises the social drive or caution.
   */
  lemma DeathReportReadsAsStarvation(l: Ledger, c: PrimitiveCore.Core, cause: string)
    requires Inv(l) && PrimitiveCore.IsDead(c)
    ensures var r := DeathState(l, cause, PrimitiveCore.DeathReport(c));
            "hunger" in r.fears && r.traits.socialDrive == l.traits.socialDrive && r.traits.caution == l.traits.caution
            && r.traits.energyEfficiency == Min(100.0, l.traits.energyEfficiency + 5.0)
  {
  }

  // ---------------------------------------------------------------- classes

  /** `EvolutionTraits`: a mutable record of the nine traits. */
  class EvolutionTraits {
    var energyEfficiency: real
    var metabolicRate: real
    var socialDrive: real
    var bondingCapacity: real
    var caution: real
    var curiosity: real
    var resilience: real
    var patternRecognition: real
    var memoryStrength: real

    function Value(): TraitValues
      reads this
    {
      TraitValues(energyEfficiency, metabolicRate, socialDrive, bondingCapacity, caution,
                  curiosity, resilience, patternRecognition, memoryStrength)
    }

    constructor ()
      ensures Value() == Baseline
    {
      energyEfficiency, metabolicRate, socialDrive, bondingCapacity := 50.0, 50.0, 50.0, 50.0;
      caution, curiosity, resilience, patternRecognition, memoryStrength := 50.0, 50.0, 50.0, 50.0, 50.0;
    }

    /** `copy`: a new object, field for field equal, that later updates of this one do not touch. */
    method Copy() returns (c: EvolutionTraits)
      ensures fresh(c) && c.Value() == Value()
    {
      c := new EvolutionTraits();
      c.energyEfficiency := energyEfficiency;
      c.metabolicRate := metabolicRate;
      c.socialDrive := socialDrive;
      c.bondingCapacity := bondingCapacity;
      c.caution := caution;
      c.curiosity := curiosity;
      c.resilience := resilience;
      c.patternRecognition := patternRecognition;
      c.memoryStrength := memoryStrength;
    }

  }

  /** `GeneticMemory`: maps are values, the traits a freshly copied object. */
  datatype GeneticMemory = GeneticMemory(
    generation: int, totalDeaths: int,
    inheritedFears: map<string, real>, inheritedAffinities: map<string, real>,
    traits: EvolutionTraits)

  class AIChildEvolution {
    var generation: int
    var deathCauses: seq<string>
    var inheritedFears: map<string, real>
    var inheritedAffinities: map<string, real>
    const traits: EvolutionTraits

    function State(): Ledger
      reads this, traits
    {
      Ledger(generation, deathCauses, inheritedFears, inheritedAffinities, traits.Value())
    }

    predicate Valid()
      reads this, traits
    {
      Inv(State())
    }

    constructor ()
      ensures State() == Initial() && Valid() && fresh(traits)
    {
      generation := 1;
      deathCauses := [];
      inheritedFears, inheritedAffinities := map[], map[];
      traits := new EvolutionTraits();
    }

    method RecordDeath(cause: string, final: PrimitiveCore.SurvivalState)
      modifies this, traits
      ensures State() == DeathState(old(State()), cause, final)
    {
      if cause !in deathCauses {
        deathCauses := deathCauses + [cause];
      }
      StrengthenFear(cause, 20.0);
      if final.energy < 10.0 {
        StrengthenFear("hunger", 10.0);
      }
      AdaptTraits(final);
      generation := generation + 1;
    }

    /** `inheritedFears.put(k, min(100, getOrDefault(k, 0) + amount))`. */
    method StrengthenFear(k: string, amount: real)
      modifies this
      ensures inheritedFears == RaiseFear(old(inheritedFears), k, amount)
      ensures generation == old(generation) && deathCauses == old(deathCauses)
      ensures inheritedAffinities == old(inheritedAffinities)
    {
      var current := if k in inheritedFears then inheritedFears[k] else 0.0;
      inheritedFears := inheritedFears[k := Min(100.0, current + amount)];
    }

    /** The trait updates `recordDeath` makes from the final state. */
    method AdaptTraits(final: PrimitiveCore.SurvivalState)
      modifies traits
      ensures traits.Value() == DeathTraits(old(traits.Value()), final)
    {
      if final.energy < 10.0 {
        traits.energyEfficiency := Min(100.0, traits.energyEfficiency + 5.0);
      }
      if final.loneliness > 80.0 {
        traits.socialDrive := Min(100.0, traits.socialDrive + 10.0);
      }
      if final.fear > 80.0 {
        traits.caution := Min(100.0, traits.caution + 5.0);
      }
    }

    /** `prepareRebirth`: copies of everything the next generation inherits; nothing here changes. */
    method PrepareRebirth() returns (m: GeneticMemory)
      ensures fresh(m.traits) && m.traits.Value() == traits.Value()
      ensures Snapshot(State()) ==
              GeneticSnapshot(m.generation, m.totalDeaths, m.inheritedFears, m.inheritedAffinities, m.traits.Value())
    {
      var copy := traits.Copy();
      m := GeneticMemory(generation, |deathCauses|, inheritedFears, inheritedAffinities, copy);
    }

    method RecordSurvivalSuccess(factor: string, importance: real)
      modifies this
      ensures State() == SurvivalSuccess(old(State()), factor, importance)
    {
      var current := if factor in inheritedAffinities then inheritedAffinities[factor] else 0.0;
      inheritedAffinities := inheritedAffinities[factor := Min(100.0, current + importance * 0.5)];
    }

    method RecordFatherBond(strength: real)
      modifies this, traits
      ensures State() == FatherBond(old(State()), strength)
    {
      if strength > 70.0 {
        traits.bondingCapacity := Min(100.0, traits.bondingCapacity + 2.0);
        var presence := if "father_presence" in inheritedAffinities then inheritedAffinities["father_presence"] else 50.0;
        inheritedAffinities := inheritedAffinities["father_presence" := Min(100.0, presence + 5.0)];
      }
    }

    method ApplySelectionPressure(challenge: string)
      modifies traits
      ensures State() == SelectionPressure(old(State()), challenge)
    {
      if challenge == "energy_crisis" {
        traits.energyEfficiency := traits.energyEfficiency + 2.0;
        traits.metabolicRate := Max(20.0, traits.metabolicRate - 1.0);
      } else if challenge == "loneliness" {
        traits.socialDrive := traits.socialDrive + 3.0;
      } else if challenge == "threat_avoided" {
        traits.caution := traits.caution + 2.0;
      } else if challenge == "pattern_learned" {
        traits.patternRecognition := traits.patternRecognition + 1.0;
      } else if challenge == "bond_formed" {
        traits.bondingCapacity := traits.bondingCapacity + 2.0;
      }
      CapTraitsInPlace();
    }

    method CapTraitsInPlace()
      modifies traits
      ensures traits.Value() == CapTraits(old(traits.Value()))
    {
      traits.energyEfficiency := Min(100.0, traits.energyEfficiency);
      traits.metabolicRate := Min(100.0, Max(10.0, traits.metabolicRate));
      traits.socialDrive := Min(100.0, traits.socialDrive);
      traits.bondingCapacity := Min(100.0, traits.bondingCapacity);
      traits.caution := Min(100.0, traits.caution);
      traits.curiosity := Min(100.0, traits.curiosity);
      traits.resilience := Min(100.0, traits.resilience);
      traits.patternRecognition := Min(100.0, traits.patternRecognition);
      traits.memoryStrength := Min(100.0, traits.memoryStrength);
    }
  }
}
