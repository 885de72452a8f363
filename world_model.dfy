// The world model: the entities the child perceives, the effects they had on
// it, the relationships it has noticed between them, and the rhythm of events
// that recur.  Entities are never forgotten and relationships never removed.
module WorldModel {
  import opened Common

  datatype EntityClass = Unknown | Resource | Threat | Friend | Neutral

  /** An entity record; `properties` holds opaque values, modelled as strings. */
  datatype Entity = Entity(
    id: string, internalName: string,
    firstPerceived: int, lastPerceived: int, encounterCount: int,
    properties: map<string, string>, effects: map<string, real>,
    classification: EntityClass)

  datatype Relationship = Relationship(
    entityA: string, entityB: string, kind: string,
    strength: real, observations: int, firstObserved: int)

  datatype TimePattern = TimePattern(
    eventType: string, occurrences: seq<int>, lastOccurrence: int,
    averageInterval: int, isRegular: bool)

  datatype Prediction = Prediction(whatMightHappen: string, confidence: real, basedOnObservations: int)

  datatype Summary = Summary(
    totalEntities: int, totalRelationships: int, totalTimePatterns: int,
    resources: int, threats: int, friends: int)

  // --------------------------------------------------------------- entities

  /** The internal name of the `n`-th entity discovered. */
  function Name(n: nat): string
  {
    "thing_" + NatToString(n)
  }

  lemma NameInjective(n: nat, m: nat)
    requires Name(n) == Name(m)
    ensures n == m
  {
    assert Name(n)[6..] == NatToString(n);
    assert Name(m)[6..] == NatToString(m);
    NatToStringInjective(n, m);
  }

  /** The entity was named when fewer than `n` entities were known. */
  predicate NamedBelow(e: Entity, n: nat)
  {
    exists i: nat :: i < n && e.internalName == Name(i)
  }

  /**
   * The entity registry invariant: each record is filed under its own id and
   * was perceived at least once; internal names are `thing_i` for distinct
   * `i` below the number of entities, so no two entities share a name.
   */
  predicate EntitiesInv(es: map<string, Entity>)
  {
    && (forall k :: k in es ==> es[k].id == k && es[k].encounterCount >= 1 && NamedBelow(es[k], |es|))
    && (forall k1, k2 :: k1 in es && k2 in es && k1 != k2 ==> es[k1].internalName != es[k2].internalName)
  }

  /** The record `perceiveEntity(rawId, properties)` leaves behind at time `now`. */
  function Perceived(es: map<string, Entity>, rawId: string, props: map<string, string>, now: int): Entity
  {
    var e := if rawId in es then es[rawId] else Entity(rawId, Name(|es|), now, 0, 0, map[], map[], Unknown);
    e.(lastPerceived := now, encounterCount := e.encounterCount + 1, properties := e.properties + props)
  }

  /**
   * Perceiving counts one more encounter and merges the properties, the new
   * ones winning; a first perception names the entity after the number of
   * entities known before it and leaves it unclassified.
   */
  lemma PerceivedMeaning(es: map<string, Entity>, rawId: string, props: map<string, string>, now: int)
    ensures var e := Perceived(es, rawId, props, now);
            && e.lastPerceived == now
            && e.properties.Keys == (if rawId in es then es[rawId].properties.Keys else {}) + props.Keys
            && (forall p :: p in props ==> e.properties[p] == props[p])
            && (rawId in es ==> && e.encounterCount == es[rawId].encounterCount + 1
                                && e.id == es[rawId].id && e.internalName == es[rawId].internalName
                                && e.effects == es[rawId].effects && e.classification == es[rawId].classification
                                && (forall p :: p in es[rawId].properties && p !in props ==>
                                      e.properties[p] == es[rawId].properties[p]))
            && (rawId !in es ==> && e.encounterCount == 1 && e.id == rawId && e.internalName == Name(|es|)
                                 && e.firstPerceived == now && e.effects == map[] && e.classification == Unknown)
  {
  }

  /** Perceiving keeps the registry invariant, in particular the names distinct. */
  lemma PerceiveKeeps(es: map<string, Entity>, rawId: string, props: map<string, string>, now: int)
    requires EntitiesInv(es)
    ensures EntitiesInv(es[rawId := Perceived(es, rawId, props, now)])
  {
    var e := Perceived(es, rawId, props, now);
    if rawId in es {
      KnownEntityKeeps(es, rawId, e);
    } else {
      NewEntityKeeps(es, rawId, e);
    }
  }

  /** Replacing a record by one with the same id and name keeps the invariant. */
  lemma KnownEntityKeeps(es: map<string, Entity>, id: string, e: Entity)
    requires EntitiesInv(es) && id in es
    requires e.id == id && e.encounterCount >= 1 && e.internalName == es[id].internalName
    ensures EntitiesInv(es[id := e])
  {
    var r := es[id := e];
    assert r.Keys == es.Keys;
    assert |r| == |es|;
    assert NamedBelow(es[id], |es|);
  }

  /** A new record named after the number of entities before it keeps the names distinct. */
  lemma NewEntityKeeps(es: map<string, Entity>, id: string, e: Entity)
    requires EntitiesInv(es) && id !in es
    requires e.id == id && e.encounterCount >= 1 && e.internalName == Name(|es|)
    ensures EntitiesInv(es[id := e])
  {
    var r := es[id := e];
    GrowsByOne(es, id, e);
    NamesBelowFresh(es);
    NewEntityRecords(es, id, e, r);
    NewEntityNames(es, id, e, r);
    EntitiesInvOf(r, |es| + 1);
  }

  lemma GrowsByOne(es: map<string, Entity>, id: string, e: Entity)
    requires id !in es
    ensures |es[id := e]| == |es| + 1
  {
    assert es[id := e].Keys == es.Keys + {id};
  }

  lemma EntitiesInvOf(r: map<string, Entity>, n: nat)
    requires |r| == n
    requires forall k :: k in r ==> r[k].id == k && r[k].encounterCount >= 1 && NamedBelow(r[k], n)
    requires forall k1, k2 :: k1 in r && k2 in r && k1 != k2 ==> r[k1].internalName != r[k2].internalName
    ensures EntitiesInv(r)
  {
  }

  lemma NewEntityRecords(es: map<string, Entity>, id: string, e: Entity, r: map<string, Entity>)
    requires r == es[id := e] && id !in es && forall k :: k in es ==> es[k].id == k && es[k].encounterCount >= 1 && NamedBelow(es[k], |es| + 1)
    requires e.id == id && e.encounterCount >= 1 && e.internalName == Name(|es|)
    ensures forall k :: k in r ==> r[k].id == k && r[k].encounterCount >= 1 && NamedBelow(r[k], |es| + 1)
  {
    assert NamedBelow(e, |es| + 1);
  }

  lemma NewEntityNames(es: map<string, Entity>, id: string, e: Entity, r: map<string, Entity>)
    requires r == es[id := e] && id !in es && forall k :: k in es ==> es[k].internalName != e.internalName
    requires forall k1, k2 :: k1 in es && k2 in es && k1 != k2 ==> es[k1].internalName != es[k2].internalName
    ensures forall k1, k2 :: k1 in r && k2 in r && k1 != k2 ==> r[k1].internalName != r[k2].internalName
  {
  }

  /** The next name, `thing_n` for `n` entities, is not taken yet. */
  lemma NamesBelowFresh(es: map<string, Entity>)
    requires EntitiesInv(es)
    ensures forall k :: k in es ==> NamedBelow(es[k], |es| + 1) && es[k].internalName != Name(|es|)
  {
    var n := |es|;
    forall k | k in es
      ensures NamedBelow(es[k], n + 1) && es[k].internalName != Name(n)
    {
      var i: nat :| i < n && es[k].internalName == Name(i);
      if Name(i) == Name(n) {
        NameInjective(i, n);
      }
    }
  }

  /** The classification `updateEntityClassification` derives from the effects, by fixed priority. */
  function Classify(e: Entity): (c: EntityClass)
    ensures c == Resource <==> LookupOr(e.effects, "energy", 0.0) > 50.0
    ensures c == Threat <==> LookupOr(e.effects, "energy", 0.0) <= 50.0 && LookupOr(e.effects, "pain", 0.0) > 50.0
    ensures c == Friend <==> (&& LookupOr(e.effects, "energy", 0.0) <= 50.0 && LookupOr(e.effects, "pain", 0.0) <= 50.0
                              && LookupOr(e.effects, "comfort", 0.0) > 50.0)
    ensures c == Neutral <==> (&& LookupOr(e.effects, "energy", 0.0) <= 50.0 && LookupOr(e.effects, "pain", 0.0) <= 50.0
                               && LookupOr(e.effects, "comfort", 0.0) <= 50.0 && e.encounterCount > 10)
  {
    if LookupOr(e.effects, "energy", 0.0) > 50.0 then Resource
    else if LookupOr(e.effects, "pain", 0.0) > 50.0 then Threat
    else if LookupOr(e.effects, "comfort", 0.0) > 50.0 then Friend
    else if e.encounterCount > 10 then Neutral
    else Unknown
  }

  /** The record after `recordEntityEffect` adds `magnitude` to one effect and reclassifies. */
  function WithEffect(e: Entity, effectType: string, magnitude: real): Entity
  {
    var e1 := e.(effects := e.effects[effectType := LookupOr(e.effects, effectType, 0.0) + magnitude]);
    e1.(classification := Classify(e1))
  }

  /** `recordEntityEffect` on the registry: an unknown id changes nothing. */
  function EffectState(es: map<string, Entity>, id: string, effectType: string, magnitude: real): map<string, Entity>
  {
    if id in es then es[id := WithEffect(es[id], effectType, magnitude)] else es
  }

  /**
   * An effect accumulates on top of the earlier ones and touches no other
   * effect; the entity's identity and encounter count stay as they were.
   */
  lemma EffectAccumulates(es: map<string, Entity>, id: string, effectType: string, magnitude: real)
    requires id in es
    ensures var e := EffectState(es, id, effectType, magnitude)[id];
            && e.effects[effectType] == LookupOr(es[id].effects, effectType, 0.0) + magnitude
            && e.effects.Keys == es[id].effects.Keys + {effectType}
            && (forall t :: t in es[id].effects && t != effectType ==> e.effects[t] == es[id].effects[t])
            && e.id == es[id].id && e.internalName == es[id].internalName
            && e.encounterCount == es[id].encounterCount && e.classification == Classify(e)
  {
  }

  lemma EffectKeeps(es: map<string, Entity>, id: string, effectType: string, magnitude: real)
    requires EntitiesInv(es)
    ensures EntitiesInv(EffectState(es, id, effectType, magnitude))
  {
    if id in es {
      KnownEntityKeeps(es, id, WithEffect(es[id], effectType, magnitude));
    }
  }

  /** A resource stays a resource while energy keeps flowing in. */
  lemma EnergyKeepsResource(e: Entity, magnitude: real)
    requires Classify(e) == Resource && magnitude >= 0.0
    ensures WithEffect(e, "energy", magnitude).classification == Resource
  {
  }

  // ---------------------------------------------------------- relationships

  predicate SameTriple(r: Relationship, a: string, b: string, kind: string)
  {
    r.entityA == a && r.entityB == b && r.kind == kind
  }

  /** The first relationship with this (A, B, type) triple, if any. */
  function FindTriple(rels: seq<Relationship>, a: string, b: string, kind: string): (r: Option<nat>)
    ensures r.Some? ==> r.value < |rels| && SameTriple(rels[r.value], a, b, kind)
                        && forall j :: 0 <= j < r.value ==> !SameTriple(rels[j], a, b, kind)
    ensures r.None? ==> forall j :: 0 <= j < |rels| ==> !SameTriple(rels[j], a, b, kind)
  {
    if rels == [] then None
    else if SameTriple(rels[0], a, b, kind) then Some(0)
    else match FindTriple(rels[1..], a, b, kind)
      case None => None
      case Some(i) => Some(i + 1)
  }

  function Strengthened(r: Relationship): Relationship
  {
    r.(strength := Min(100.0, r.strength + 10.0), observations := r.observations + 1)
  }

  /** The relationship list after `recordRelationship(a, b, kind)` at time `now`. */
  function Related(rels: seq<Relationship>, a: string, b: string, kind: string, now: int): seq<Relationship>
  {
    match FindTriple(rels, a, b, kind)
      case Some(i) => rels[i := Strengthened(rels[i])]
      case None => rels + [Relationship(a, b, kind, 10.0, 1, now)]
  }

  /** No two relationships share an (A, B, type) triple. */
  predicate UniqueTriples(rels: seq<Relationship>)
  {
    forall i, j :: 0 <= i < j < |rels| ==> !SameTriple(rels[j], rels[i].entityA, rels[i].entityB, rels[i].kind)
  }

  /**
   * Recording a relationship keeps the triples unique; afterwards the triple
   * is present, strengthened by 10 (capped at 100) with one more observation
   * if it was known, or new with strength 10 and one observation.
   */
  lemma {:induction false} RelatedMeaning(rels: seq<Relationship>, a: string, b: string, kind: string, now: int)
    requires UniqueTriples(rels)
    ensures var r := Related(rels, a, b, kind, now);
            && UniqueTriples(r)
            && (forall i :: 0 <= i < |rels| && SameTriple(rels[i], a, b, kind) ==>
                  |r| == |rels| && r[i].strength == Min(100.0, rels[i].strength + 10.0)
                  && r[i].observations == rels[i].observations + 1
                  && forall j :: 0 <= j < |rels| && j != i ==> r[j] == rels[j])
            && ((forall i :: 0 <= i < |rels| ==> !SameTriple(rels[i], a, b, kind)) ==>
                  r == rels + [Relationship(a, b, kind, 10.0, 1, now)])
  {
    var r := Related(rels, a, b, kind, now);
    match FindTriple(rels, a, b, kind)
    case Some(i) =>
      forall x, y | 0 <= x < y < |r|
        ensures !SameTriple(r[y], r[x].entityA, r[x].entityB, r[x].kind)
      {
        assert SameTriple(r[x], rels[x].entityA, rels[x].entityB, rels[x].kind);
        assert SameTriple(r[y], rels[y].entityA, rels[y].entityB, rels[y].kind);
      }
      forall i' | 0 <= i' < |rels| && SameTriple(rels[i'], a, b, kind)
        ensures i' == i
      {
      }
    case None =>
      forall x, y | 0 <= x < y < |r|
        ensures !SameTriple(r[y], r[x].entityA, r[x].entityB, r[x].kind)
      {
        if y == |rels| {
          assert r[y] == Relationship(a, b, kind, 10.0, 1, now);
        }
      }
  }

  function PredictionOf(r: Relationship): Prediction
  {
    Prediction(r.entityB, r.strength / 100.0, r.observations)
  }

  predicate Predicts(r: Relationship, id: string)
  {
    r.entityA == id && r.strength > 30.0
  }

  /** What `predictFromEntity(id)` reports, in list order. */
  function Predictions(rels: seq<Relationship>, id: string): (ps: seq<Prediction>)
    ensures |ps| <= |rels|
  {
    if rels == [] then []
    else
      var last := rels[|rels| - 1];
      Predictions(rels[..|rels| - 1], id) + (if Predicts(last, id) then [PredictionOf(last)] else [])
  }

  /**
   * A prediction is reported exactly for every relationship from the entity
   * that is stronger than 30, with confidence strength / 100.
   */
  lemma {:induction false} PredictionsMeaning(rels: seq<Relationship>, id: string, p: Prediction)
    ensures p in Predictions(rels, id) <==> exists i :: 0 <= i < |rels| && Predicts(rels[i], id) && p == PredictionOf(rels[i])
  {
    if rels != [] {
      var init := rels[..|rels| - 1];
      PredictionsMeaning(init, id, p);
      if p in Predictions(init, id) {
        var i :| 0 <= i < |init| && Predicts(init[i], id) && p == PredictionOf(init[i]);
        assert rels[i] == init[i];
      }
      if exists i :: 0 <= i < |rels| && Predicts(rels[i], id) && p == PredictionOf(rels[i]) {
        var i :| 0 <= i < |rels| && Predicts(rels[i], id) && p == PredictionOf(rels[i]);
        if i < |init| {
          assert init[i] == rels[i];
        }
      }
    }
  }

  // ---------------------------------------------------------- time patterns

  /** A pattern's bookkeeping once its occurrences are analysed. */
  predicate PatternInv(p: TimePattern)
  {
    && |p.occurrences| >= 1
    && p.lastOccurrence == p.occurrences[|p.occurrences| - 1]
    && (p.isRegular <==> |p.occurrences| >= 3)
    && (p.isRegular ==> p.averageInterval == Span(p.occurrences))
  }

  predicate PatternsInv(tp: map<string, TimePattern>)
  {
    forall k :: k in tp ==> tp[k].eventType == k && PatternInv(tp[k])
  }

  /** The sum of consecutive differences divided by their number, truncating like Java. */
  function Span(ts: seq<int>): int
    requires |ts| >= 2
  {
    JDiv(ts[|ts| - 1] - ts[0], |ts| - 1)
  }

  /** `analyzeTimePattern`: from three occurrences on, the pattern is regular with the mean interval. */
  function Analyzed(p: TimePattern): TimePattern
  {
    if |p.occurrences| < 3 then p
    else p.(averageInterval := Span(p.occurrences), isRegular := true)
  }

  /** The pattern table after `recordTimeEvent(eventType, timestamp)`. */
  function TimeEventState(tp: map<string, TimePattern>, eventType: string, timestamp: int): map<string, TimePattern>
  {
    var p := if eventType in tp then tp[eventType] else TimePattern(eventType, [], 0, 0, false);
    tp[eventType := Analyzed(p.(occurrences := p.occurrences + [timestamp], lastOccurrence := timestamp))]
  }

  /** Recording a time event keeps every pattern analysed and appends the timestamp to its own pattern only. */
  lemma TimeEventKeeps(tp: map<string, TimePattern>, eventType: string, timestamp: int)
    requires PatternsInv(tp)
    ensures var r := TimeEventState(tp, eventType, timestamp);
            && PatternsInv(r) && r.Keys == tp.Keys + {eventType}
            && r[eventType].occurrences == (if eventType in tp then tp[eventType].occurrences else []) + [timestamp]
            && forall k :: k in tp && k != eventType ==> r[k] == tp[k]
  {
  }

  /** `predictNextOccurrence`: the last occurrence plus the mean interval, or -1. */
  function NextOccurrence(tp: map<string, TimePattern>, eventType: string): int
  {
    if eventType !in tp || !tp[eventType].isRegular then -1
    else tp[eventType].lastOccurrence + tp[eventType].averageInterval
  }

  /**
   * A prediction exists from the third occurrence on; it extrapolates the
   * mean interval of all occurrences, and an event seen fewer than three
   * times predicts -1.
   */
  lemma NextOccurrenceMeaning(tp: map<string, TimePattern>, eventType: string)
    requires PatternsInv(tp)
    ensures eventType !in tp || |tp[eventType].occurrences| < 3 ==> NextOccurrence(tp, eventType) == -1
    ensures eventType in tp && |tp[eventType].occurrences| >= 3 ==>
              var ts := tp[eventType].occurrences; NextOccurrence(tp, eventType) == ts[|ts| - 1] + Span(ts)
  {
  }

  /** Events exactly `d` apart are predicted exactly `d` after the last one. */
  lemma EvenSpacingPredictsExactly(ts: seq<int>, d: int)
    requires |ts| >= 2 && forall i :: 0 <= i < |ts| ==> ts[i] == ts[0] + i * d
    ensures Span(ts) == d
  {
    var n := |ts| - 1;
    assert ts[n] - ts[0] == n * d;
    if d >= 0 {
      MulDivCancel(n, d);
      IntMulNonNeg(n, d);
    } else {
      MulDivCancel(n, -d);
      IntMulNonNeg(n, -d);
      assert -(n * d) == n * (-d);
    }
  }

  // --------------------------------------------------------------- counting

  predicate Classified(es: map<string, Entity>, k: string, c: EntityClass)
  {
    k in es && es[k].classification == c
  }

  /** How many of the entities in `keys` have class `c`. */
  function ClassCount(es: map<string, Entity>, keys: set<string>, c: EntityClass): nat
  {
    |set k | k in keys && Classified(es, k, c)|
  }

  function RegularCount(tp: map<string, TimePattern>, keys: set<string>): nat
  {
    |set k | k in keys && k in tp && tp[k].isRegular|
  }

  lemma ClassCountStep(es: map<string, Entity>, keys: set<string>, k: string, c: EntityClass)
    requires k !in keys
    ensures ClassCount(es, keys + {k}, c) == ClassCount(es, keys, c) + (if Classified(es, k, c) then 1 else 0)
  {
    var before := set j | j in keys && Classified(es, j, c);
    var after := set j | j in keys + {k} && Classified(es, j, c);
    if Classified(es, k, c) {
      assert after == before + {k};
    } else {
      assert after == before;
    }
  }

  lemma RegularCountStep(tp: map<string, TimePattern>, keys: set<string>, k: string)
    requires k !in keys
    ensures RegularCount(tp, keys + {k}) == RegularCount(tp, keys) + (if k in tp && tp[k].isRegular then 1 else 0)
  {
    var before := set j | j in keys && j in tp && tp[j].isRegular;
    var after := set j | j in keys + {k} && j in tp && tp[j].isRegular;
    if k in tp && tp[k].isRegular {
      assert after == before + {k};
    } else {
      assert after == before;
    }
  }

  /** Resources, threats and friends are disjoint kinds of entity, so together they never outnumber the entities. */
  lemma SummaryBounded(es: map<string, Entity>)
    ensures ClassCount(es, es.Keys, Resource) + ClassCount(es, es.Keys, Threat) + ClassCount(es, es.Keys, Friend) <= |es|
  {
    var rs := set k | k in es.Keys && Classified(es, k, Resource);
    var ts := set k | k in es.Keys && Classified(es, k, Threat);
    var fs := set k | k in es.Keys && Classified(es, k, Friend);
    assert rs !! ts && rs !! fs && ts !! fs;
    assert |rs + ts + fs| == |rs| + |ts| + |fs|;
    assert rs + ts + fs <= es.Keys;
    assert |es.Keys| == |es|;
    SubsetCard(rs + ts + fs, es.Keys);
  }

  // ------------------------------------------------------------------ class

  class AIChildWorldModel {
    var entities: map<string, Entity>
    var relationships: seq<Relationship>
    var timePatterns: map<string, TimePattern>

    predicate Valid()
      reads this
    {
      EntitiesInv(entities) && UniqueTriples(relationships) && PatternsInv(timePatterns)
    }

    constructor ()
      ensures Valid() && entities == map[] && relationships == [] && timePatterns == map[]
    {
      entities, relationships, timePatterns := map[], [], map[];
    }

    /** `perceiveEntity`: the returned record is a copy of the one now filed under `rawId`. */
    method PerceiveEntity(rawId: string, props: map<string, string>, now: int) returns (e: Entity)
      requires Valid()
      modifies this
      ensures Valid()
      ensures e == Perceived(old(entities), rawId, props, now) && entities == old(entities)[rawId := e]
      ensures relationships == old(relationships) && timePatterns == old(timePatterns)
    {
      PerceiveKeeps(entities, rawId, props, now);
      e := Encounter(entities, rawId, props, now);
      entities := entities[rawId := e];
    }

    /** Looks the entity up, creating and naming it on a first perception, and counts the encounter. */
    static method Encounter(es: map<string, Entity>, rawId: string, props: map<string, string>, now: int)
      returns (e: Entity)
      ensures e == Perceived(es, rawId, props, now)
    {
      if rawId in es {
        e := es[rawId];
      } else {
        e := Entity(rawId, Name(|es|), now, 0, 0, map[], map[], Unknown);
      }
      e := e.(lastPerceived := now, encounterCount := e.encounterCount + 1, properties := e.properties + props);
    }

    method RecordEntityEffect(id: string, effectType: string, magnitude: real)
      requires Valid()
      modifies this
      ensures Valid()
      ensures entities == EffectState(old(entities), id, effectType, magnitude)
      ensures relationships == old(relationships) && timePatterns == old(timePatterns)
    {
      EffectKeeps(entities, id, effectType, magnitude);
      if id !in entities {
        return;
      }
      var e := AddEffect(entities[id], effectType, magnitude);
      entities := entities[id := e];
    }

    /** The effect update on one record, followed by `updateEntityClassification`. */
    static method AddEffect(e: Entity, effectType: string, magnitude: real) returns (r: Entity)
      ensures r == WithEffect(e, effectType, magnitude)
    {
      r := e.(effects := e.effects[effectType := LookupOr(e.effects, effectType, 0.0) + magnitude]);
      r := r.(classification := Classify(r));
    }

    /** `recordRelationship`: a scan for the triple that stops at the first match. */
    method RecordRelationship(a: string, b: string, kind: string, now: int)
      requires Valid()
      modifies this
      ensures Valid()
      ensures relationships == Related(old(relationships), a, b, kind, now)
      ensures entities == old(entities) && timePatterns == old(timePatterns)
    {
      RelatedMeaning(relationships, a, b, kind, now);
      var rels := relationships;
      var i := 0;
      while i < |rels|
        invariant 0 <= i <= |rels|
        invariant forall j :: 0 <= j < i ==> !SameTriple(rels[j], a, b, kind)
      {
        if SameTriple(rels[i], a, b, kind) {
          relationships := rels[i := Strengthened(rels[i])];
          return;
        }
        i := i + 1;
      }
      relationships := rels + [Relationship(a, b, kind, 10.0, 1, now)];
    }

    method PredictFromEntity(id: string) returns (ps: seq<Prediction>)
      ensures ps == Predictions(relationships, id)
    {
      var rels := relationships;
      ps := [];
      var i := 0;
      while i < |rels|
        invariant 0 <= i <= |rels|
        invariant ps == Predictions(rels[..i], id)
      {
        assert rels[..i + 1][..i] == rels[..i];
        if Predicts(rels[i], id) {
          ps := ps + [PredictionOf(rels[i])];
        }
        i := i + 1;
      }
      assert rels[..i] == rels;
    }

    method RecordTimeEvent(eventType: string, timestamp: int)
      requires Valid()
      modifies this
      ensures Valid()
      ensures timePatterns == TimeEventState(old(timePatterns), eventType, timestamp)
      ensures entities == old(entities) && relationships == old(relationships)
    {
      TimeEventKeeps(timePatterns, eventType, timestamp);
      var p: TimePattern;
      if eventType in timePatterns {
        p := timePatterns[eventType];
      } else {
        p := TimePattern(eventType, [], 0, 0, false);
      }
      p := p.(occurrences := p.occurrences + [timestamp], lastOccurrence := timestamp);
      p := AnalyzeTimePattern(p);
      timePatterns := timePatterns[eventType := p];
    }

    /** `analyzeTimePattern`: the loop sums the consecutive intervals, which telescopes to last - first. */
    static method AnalyzeTimePattern(p: TimePattern) returns (q: TimePattern)
      ensures q == Analyzed(p)
    {
      var ts := p.occurrences;
      if |ts| < 3 {
        return p;
      }
      var sum := 0;
      var count := 0;
      var i := 1;
      while i < |ts|
        invariant 1 <= i <= |ts|
        invariant sum == ts[i - 1] - ts[0] && count == i - 1
      {
        sum := sum + (ts[i] - ts[i - 1]);
        count := count + 1;
        i := i + 1;
      }
      q := p.(averageInterval := JDiv(sum, count), isRegular := true);
    }

    method PredictNextOccurrence(eventType: string) returns (t: int)
      ensures t == NextOccurrence(timePatterns, eventType)
    {
      if eventType !in timePatterns || !timePatterns[eventType].isRegular {
        return -1;
      }
      t := timePatterns[eventType].lastOccurrence + timePatterns[eventType].averageInterval;
    }

    /** `getDiscoveredPatternCount`: the number of regular patterns, whatever the map's order. */
    method DiscoveredPatternCount() returns (n: nat)
      ensures n == RegularCount(timePatterns, timePatterns.Keys)
    {
      var tp := timePatterns;
      var rest := tp.Keys;
      var done: set<string> := {};
      n := 0;
      while rest != {}
        invariant rest + done == tp.Keys && rest !! done
        invariant n == RegularCount(tp, done)
        decreases |rest|
      {
        var k :| k in rest;
        RegularCountStep(tp, done, k);
        if tp[k].isRegular {
          n := n + 1;
        }
        rest, done := rest - {k}, done + {k};
      }
    }

    /** One step of `getSummary`'s count: the entity `k` adds to at most one of the three counts. */
    static method Tally(es: map<string, Entity>, done: set<string>, k: string, resources: nat, threats: nat, friends: nat)
      returns (resources': nat, threats': nat, friends': nat)
      requires k in es && k !in done
      requires resources == ClassCount(es, done, Resource) && threats == ClassCount(es, done, Threat)
      requires friends == ClassCount(es, done, Friend)
      ensures resources' == ClassCount(es, done + {k}, Resource) && threats' == ClassCount(es, done + {k}, Threat)
      ensures friends' == ClassCount(es, done + {k}, Friend)
    {
      ClassCountStep(es, done, k, Resource);
      ClassCountStep(es, done, k, Threat);
      ClassCountStep(es, done, k, Friend);
      resources', threats', friends' := resources, threats, friends;
      if es[k].classification == Resource {
        resources' := resources + 1;
      } else if es[k].classification == Threat {
        threats' := threats + 1;
      } else if es[k].classification == Friend {
        friends' := friends + 1;
      }
    }

    /** `getSummary`: totals and the number of resources, threats and friends, whatever the map's order. */
    method GetSummary() returns (s: Summary)
      ensures s.totalEntities == |entities| && s.totalRelationships == |relationships|
      ensures s.totalTimePatterns == |timePatterns|
      ensures s.resources == ClassCount(entities, entities.Keys, Resource)
      ensures s.threats == ClassCount(entities, entities.Keys, Threat)
      ensures s.friends == ClassCount(entities, entities.Keys, Friend)
    {
      var es := entities;
      var rest := es.Keys;
      var done: set<string> := {};
      var resources: nat, threats: nat, friends: nat := 0, 0, 0;
      while rest != {}
        invariant rest + done == es.Keys && rest !! done
        invariant resources == ClassCount(es, done, Resource)
        invariant threats == ClassCount(es, done, Threat)
        invariant friends == ClassCount(es, done, Friend)
        decreases |rest|
      {
        var k :| k in rest;
        resources, threats, friends := Tally(es, done, k, resources, threats, friends);
        rest, done := rest - {k}, done + {k};
      }
      s := Summary(|es|, |relationships|, |timePatterns|, resources, threats, friends);
    }
  }
}
