// The associative memory: a lazily built graph of named neurons joined by
// directed weighted synapses, a bounded history of activations, and the
// repeating activation sequences recognised in that history.  Activating a
// neuron past the firing threshold fires it, which spreads activation along
// its synapses and strengthens the links to other neurons that are still
// active (Hebbian learning).  The pure functions on `Net` specify each
// operation; the class `AIChildNeuralNetwork` changes its maps in place.
module NeuralNetwork {
  import opened Common

  const InitialWeight: real := 0.1
  const LearningRate: real := 0.1
  const DecayRate: real := 0.01
  const FiringThreshold: real := 0.5
  const MaxNeurons := 10000
  const HistorySize := 50
  /** Hebbian learning looks at this many of the latest activations. */
  const HebbianWindow := 10
  /** 7 * 24 * 60 * 60 * 1000 and 24 * 60 * 60 * 1000 milliseconds; both fit a Java int. */
  const Week := 604800000
  const Day := 86400000
  /** DECAY_RATE * 0.1: what an idle synapse loses per decay. */
  const SynapseDecay: real := 0.001
  /** Only links stronger than this are reported as associations. */
  const AssociationThreshold: real := 0.2

  datatype Neuron = Neuron(
    id: string, kind: string, activation: real, bias: real,
    lastFired: int, fireCount: int, isActive: bool, created: int, name: string)

  datatype Synapse = Synapse(from: string, to: string, weight: real, lastActivated: int, activationCount: int)

  datatype Pattern = Pattern(id: string, sequence: seq<string>, occurrences: int, confidence: real, lastSeen: int)

  datatype Association = Association(concept: string, name: string, strength: real)

  /** Outgoing synapses, by source neuron and then by target neuron. */
  type Synapses = map<string, map<string, Synapse>>

  datatype Net = Net(
    neurons: map<string, Neuron>, synapses: Synapses,
    recent: seq<string>, patterns: map<string, Pattern>)

  /** `String.join("->", parts)`. */
  function Join(parts: seq<string>): string
  {
    JoinWith(parts, "->")
  }

  predicate NeuronsInv(ns: map<string, Neuron>)
  {
    forall k :: k in ns ==> ns[k].id == k && ns[k].activation <= 1.0
  }

  predicate SynapsesInv(ss: Synapses)
  {
    forall f, t :: f in ss && t in ss[f] ==>
      ss[f][t].from == f && ss[f][t].to == t && ss[f][t].weight <= 1.0
  }

  /** A recognised pattern is stored under its joined id, has 2 to 5 entries and its confidence follows its count. */
  predicate PatternInv(k: string, p: Pattern)
  {
    && k == p.id && k == Join(p.sequence)
    && 2 <= |p.sequence| <= 5
    && 1 <= p.occurrences
    && p.confidence == Min(1.0, p.occurrences as real * 0.1)
  }

  predicate PatternsInv(ps: map<string, Pattern>)
  {
    forall k :: k in ps ==> PatternInv(k, ps[k])
  }

  /**
   * What every operation keeps: neurons are stored under their id with
   * activation at most 1, synapses under their endpoints with weight at most
   * 1, the history holds at most 50 ids, and patterns are well formed.
   */
  predicate Inv(s: Net)
  {
    NeuronsInv(s.neurons) && SynapsesInv(s.synapses) && |s.recent| <= HistorySize && PatternsInv(s.patterns)
  }

  // ----------------------------------------------------------------- neurons

  function NewNeuron(id: string, kind: string, name: string, now: int): Neuron
  {
    Neuron(id, kind, 0.0, 0.0, 0, 0, false, now, name)
  }

  /**
   * The pruning test as the source writes it.  Because a neuron that never
   * fired has `lastFired == 0`, the second clause holds of every such neuron
   * once a week has passed since the epoch, however recently it was created.
   */
  predicate IsWeakAsWritten(n: Neuron, now: int)
  {
    (n.fireCount == 0 && n.created < now - Week) || (n.fireCount < 3 && n.lastFired < now - Week)
  }

  /** The intended test: the second clause restricted to neurons that did fire. */
  predicate IsWeak(n: Neuron, now: int)
  {
    (n.fireCount == 0 && n.created < now - Week) || (0 < n.fireCount < 3 && n.lastFired < now - Week)
  }

  /** As written, a neuron created at this very instant is pruned. */
  lemma NewNeuronPrunedAsWritten(id: string, kind: string, name: string, now: int)
    requires now > Week
    ensures IsWeakAsWritten(NewNeuron(id, kind, name, now), now)
  {
  }

  /**
   * The corrected test spares every neuron younger than a week that never
   * fired, and agrees with the written one on every neuron that fired.
   */
  lemma IsWeakCorrected(n: Neuron, now: int)
    ensures n.fireCount == 0 && now - Week <= n.created ==> !IsWeak(n, now)
    ensures n.fireCount > 0 ==> (IsWeak(n, now) <==> IsWeakAsWritten(n, now))
    ensures IsWeak(n, now) ==> IsWeakAsWritten(n, now)
  {
  }

  /** Drops the neurons in `gone` and their outgoing synapse maps. */
  function PrunedBy(s: Net, gone: set<string>): (r: Net)
    requires gone <= s.neurons.Keys
    ensures r.recent == s.recent && r.patterns == s.patterns
    ensures forall k :: k in r.neurons <==> k in s.neurons && k !in gone
    ensures forall k :: k in r.neurons ==> r.neurons[k] == s.neurons[k]
    ensures forall f :: f in r.synapses <==> f in s.synapses && f !in gone
    ensures forall f :: f in r.synapses ==> r.synapses[f] == s.synapses[f]
    ensures Inv(s) ==> Inv(r)
  {
    s.(neurons := s.neurons - gone, synapses := s.synapses - gone)
  }

  /** The ids `pruneWeakNeurons` removes, by the test as written. */
  function WeakSet(s: Net, now: int): set<string>
  {
    set k | k in s.neurons && IsWeakAsWritten(s.neurons[k], now)
  }

  /** `pruneWeakNeurons`: drops the neurons the written test calls weak and their outgoing synapse maps. */
  function Pruned(s: Net, now: int): (r: Net)
    ensures r.recent == s.recent && r.patterns == s.patterns
    ensures forall k :: k in r.neurons <==> k in s.neurons && !IsWeakAsWritten(s.neurons[k], now)
    ensures forall k :: k in r.neurons ==> r.neurons[k] == s.neurons[k]
    ensures forall f :: f in r.synapses <==> f in s.synapses && !(f in s.neurons && IsWeakAsWritten(s.neurons[f], now))
    ensures forall f :: f in r.synapses ==> r.synapses[f] == s.synapses[f]
    ensures Inv(s) ==> Inv(r)
  {
    PrunedBy(s, WeakSet(s, now))
  }

  /**
   * As written, a prune more than a week after the epoch removes every
   * neuron that never fired, even one created at this instant.
   */
  lemma PrunedDropsNeverFired(s: Net, k: string, now: int)
    requires now > Week && k in s.neurons && s.neurons[k].fireCount == 0 && s.neurons[k].lastFired == 0
    ensures k !in Pruned(s, now).neurons
  {
  }

  /** The corrected `pruneWeakNeurons`: drops only the neurons the intended test calls weak. */
  function PrunedCorrected(s: Net, now: int): (r: Net)
    ensures r.recent == s.recent && r.patterns == s.patterns
    ensures forall k :: k in r.neurons <==> k in s.neurons && !IsWeak(s.neurons[k], now)
    ensures forall k :: k in r.neurons ==> r.neurons[k] == s.neurons[k]
    ensures forall f :: f in r.synapses <==> f in s.synapses && !(f in s.neurons && IsWeak(s.neurons[f], now))
    ensures Inv(s) ==> Inv(r)
  {
    PrunedBy(s, set k | k in s.neurons && IsWeak(s.neurons[k], now))
  }

  /**
   * The corrected prune keeps every neuron younger than a week that never
   * fired, keeps everything the written prune keeps, and removes exactly the
   * same neurons among those that fired.
   */
  lemma PrunedCorrectedSparesYoung(s: Net, now: int)
    ensures forall k :: k in s.neurons && s.neurons[k].fireCount == 0 && now - Week <= s.neurons[k].created ==>
      k in PrunedCorrected(s, now).neurons
    ensures forall k :: k in Pruned(s, now).neurons ==> k in PrunedCorrected(s, now).neurons
    ensures forall k :: k in s.neurons && s.neurons[k].fireCount > 0 ==>
      (k in Pruned(s, now).neurons <==> k in PrunedCorrected(s, now).neurons)
  {
    forall k | k in s.neurons
      ensures s.neurons[k].fireCount == 0 && now - Week <= s.neurons[k].created ==> !IsWeak(s.neurons[k], now)
      ensures IsWeak(s.neurons[k], now) ==> IsWeakAsWritten(s.neurons[k], now)
      ensures s.neurons[k].fireCount > 0 ==> (IsWeak(s.neurons[k], now) <==> IsWeakAsWritten(s.neurons[k], now))
    {
      IsWeakCorrected(s.neurons[k], now);
    }
  }

  /** `getOrCreateNeuron`. */
  function WithNeuron(s: Net, id: string, kind: string, name: string, now: int): (r: Net)
    ensures id in s.neurons ==> r == s
    ensures id in r.neurons
    ensures id !in s.neurons ==> r.neurons[id] == NewNeuron(id, kind, name, now) && id in r.synapses && r.synapses[id] == map[]
    ensures id !in s.neurons && |s.neurons| < MaxNeurons ==>
      r.neurons == s.neurons[id := NewNeuron(id, kind, name, now)]
    ensures id !in s.neurons && |s.neurons| >= MaxNeurons ==>
      r.neurons == Pruned(s, now).neurons[id := NewNeuron(id, kind, name, now)]
    ensures forall k :: k in r.neurons && k != id ==> k in s.neurons && r.neurons[k] == s.neurons[k]
    ensures r.recent == s.recent && r.patterns == s.patterns
    ensures Inv(s) ==> Inv(r)
  {
    if id in s.neurons then s
    else
      var s1 := if |s.neurons| >= MaxNeurons then Pruned(s, now) else s;
      s1.(neurons := s1.neurons[id := NewNeuron(id, kind, name, now)],
          synapses := s1.synapses[id := map[]])
  }

  // ---------------------------------------------------------------- synapses

  /** Every link of `a` is still present in `b`. */
  predicate Keeps(a: Synapses, b: Synapses)
  {
    forall f, t :: f in a && t in a[f] ==> f in b && t in b[f]
  }

  /** No link present in both `a` and `b` is weaker in `b`. */
  predicate NoWeaker(a: Synapses, b: Synapses)
  {
    forall f, t :: f in a && t in a[f] && f in b && t in b[f] ==> a[f][t].weight <= b[f][t].weight
  }

  lemma GrowthTransitive(a: Synapses, b: Synapses, c: Synapses)
    requires Keeps(a, b) && Keeps(b, c)
    ensures Keeps(a, c)
    ensures NoWeaker(a, b) && NoWeaker(b, c) ==> NoWeaker(a, c)
  {
    if NoWeaker(a, b) && NoWeaker(b, c) {
      forall f, t | f in a && t in a[f] && f in c && t in c[f]
        ensures a[f][t].weight <= c[f][t].weight
      {
        assert b[f][t].weight <= c[f][t].weight;
      }
    }
  }

  /** The weight of the link `from -> to`, or the weight a new link starts with. */
  function LinkWeight(ss: Synapses, from: string, to: string): real
  {
    if from in ss && to in ss[from] then ss[from][to].weight else InitialWeight
  }

  /** `getOrCreateSynapse`: adds the link `from -> to` with the initial weight unless it exists. */
  function WithSynapse(ss: Synapses, from: string, to: string): (r: Synapses)
    ensures from in r && to in r[from]
    ensures from in ss && to in ss[from] ==> r == ss
    ensures !(from in ss && to in ss[from]) ==> r[from][to] == Synapse(from, to, InitialWeight, 0, 0)
    ensures r.Keys == ss.Keys + {from}
    ensures forall f, t :: f in ss && t in ss[f] ==> t in r[f] && r[f][t] == ss[f][t]
    ensures forall f, t :: f in r && t in r[f] ==> (f in ss && t in ss[f]) || (f == from && t == to)
    ensures SynapsesInv(ss) ==> SynapsesInv(r)
  {
    var m := if from in ss then ss[from] else map[];
    if to in m then ss else ss[from := m[to := Synapse(from, to, InitialWeight, 0, 0)]]
  }

  /** The Hebbian update of one weight: a tenth of the distance to 1 is added. */
  function Strengthened(w: real): (w': real)
    ensures w <= 1.0 ==> w' == w + LearningRate * (1.0 - w)
    ensures 0.0 <= w <= 1.0 ==> w <= w' <= 1.0
  {
    Min(1.0, w + LearningRate * (1.0 - w))
  }

  /** Strengthening has diminishing returns: the stronger the link, the smaller the gain. */
  lemma DiminishingReturns(w1: real, w2: real)
    requires 0.0 <= w1 < w2 <= 1.0
    ensures Strengthened(w2) - w2 < Strengthened(w1) - w1
    ensures Strengthened(w1) < Strengthened(w2)
  {
  }

  /** `strengthenConnection`: creates the link if need be, then strengthens it and stamps it. */
  function StrengthenAt(ss: Synapses, from: string, to: string, now: int): (r: Synapses)
    ensures from in r && to in r[from]
    ensures r[from][to].weight == Strengthened(LinkWeight(ss, from, to))
    ensures r[from][to].lastActivated == now
    ensures Keeps(ss, r)
    ensures forall f, t :: f in r && t in r[f] && !(f == from && t == to) ==>
      f in ss && t in ss[f] && r[f][t] == ss[f][t]
    ensures SynapsesInv(ss) ==> SynapsesInv(r) && NoWeaker(ss, r)
  {
    var s1 := WithSynapse(ss, from, to);
    var syn := s1[from][to];
    s1[from := s1[from][to := syn.(weight := Strengthened(syn.weight), lastActivated := now,
                                   activationCount := syn.activationCount + 1)]]
  }

  // ------------------------------------------------------------ Hebbian rule

  /** The history entry `i` qualifies for Hebbian learning with the firing neuron `id`. */
  predicate Qualifies(s: Net, id: string, i: int)
    requires 0 <= i < |s.recent|
  {
    s.recent[i] != id && s.recent[i] in s.neurons && s.neurons[s.recent[i]].isActive
  }

  function HebbianAt(s: Net, id: string, now: int, i: int): (r: Net)
    requires 0 <= i < |s.recent|
    ensures r.neurons == s.neurons && r.recent == s.recent && r.patterns == s.patterns
    ensures Keeps(s.synapses, r.synapses)
    ensures SynapsesInv(s.synapses) ==> SynapsesInv(r.synapses) && NoWeaker(s.synapses, r.synapses)
  {
    if Qualifies(s, id, i) then
      var other := s.recent[i];
      var s1 := StrengthenAt(s.synapses, id, other, now);
      var s2 := StrengthenAt(s1, other, id, now);
      GrowthTransitive(s.synapses, s1, s2);
      s.(synapses := s2)
    else s
  }

  /** The Hebbian step for the history entries `i`, `i-1`, ... that lie among the latest ten. */
  function HebbianFrom(s: Net, id: string, now: int, i: int): (r: Net)
    requires -1 <= i < |s.recent|
    ensures r.neurons == s.neurons && r.recent == s.recent && r.patterns == s.patterns
    ensures Keeps(s.synapses, r.synapses)
    ensures SynapsesInv(s.synapses) ==> SynapsesInv(r.synapses) && NoWeaker(s.synapses, r.synapses)
    decreases i + 1
  {
    if i < 0 || i < |s.recent| - HebbianWindow then s
    else
      var s1 := HebbianAt(s, id, now, i);
      var r := HebbianFrom(s1, id, now, i - 1);
      GrowthTransitive(s.synapses, s1.synapses, r.synapses);
      r
  }

  /** `hebbianLearning` for the firing neuron `id`. */
  function Hebbian(s: Net, id: string, now: int): Net
  {
    HebbianFrom(s, id, now, |s.recent| - 1)
  }

  predicate Linked(ss: Synapses, a: string, b: string)
  {
    a in ss && b in ss[a] && b in ss && a in ss[b]
  }

  lemma {:induction false} HebbianFromLinks(s: Net, id: string, now: int, i: int, j: int)
    requires -1 <= i < |s.recent|
    requires |s.recent| - HebbianWindow <= j <= i && 0 <= j
    requires Qualifies(s, id, j)
    ensures Linked(HebbianFrom(s, id, now, i).synapses, id, s.recent[j])
    decreases i
  {
    var s1 := HebbianAt(s, id, now, i);
    var r := HebbianFrom(s1, id, now, i - 1);
    assert HebbianFrom(s, id, now, i) == r;
    if j < i {
      HebbianFromLinks(s1, id, now, i - 1, j);
    } else {
      assert Linked(s1.synapses, id, s.recent[j]);
    }
  }

  /**
   * Hebbian learning links the firing neuron in both directions with every
   * other neuron that is still active and appears among the last ten
   * activations; it loses no link, weakens none, and leaves neurons, history
   * and patterns alone.
   */
  lemma HebbianLinksRecentActive(s: Net, id: string, now: int, j: int)
    requires 0 <= j < |s.recent| && |s.recent| - HebbianWindow <= j
    requires s.recent[j] != id && s.recent[j] in s.neurons && s.neurons[s.recent[j]].isActive
    ensures Linked(Hebbian(s, id, now).synapses, id, s.recent[j])
  {
    HebbianFromLinks(s, id, now, |s.recent| - 1, j);
  }

  // ---------------------------------------------------------------- history

  /** `p` occurs in `h` at position `i`. */
  predicate MatchAt(h: seq<string>, p: seq<string>, i: int)
  {
    0 <= i <= |h| - |p| && h[i..i + |p|] == p
  }

  /** The number of positions below `n` where `p` occurs in `h`. */
  function CountUpTo(h: seq<string>, p: seq<string>, n: nat): (c: nat)
    ensures c <= n
  {
    if n == 0 then 0 else CountUpTo(h, p, n - 1) + (if MatchAt(h, p, n - 1) then 1 else 0)
  }

  /** `countPatternOccurrences`: every position, overlapping ones included. */
  function Occurrences(h: seq<string>, p: seq<string>): nat
  {
    if |p| > |h| then 0 else CountUpTo(h, p, |h| - |p| + 1)
  }

  lemma {:induction false} CountPositive(h: seq<string>, p: seq<string>, n: nat)
    ensures CountUpTo(h, p, n) > 0 <==> exists i :: 0 <= i < n && MatchAt(h, p, i)
  {
    if n > 0 {
      CountPositive(h, p, n - 1);
    }
  }

  function Window(h: seq<string>, len: int): seq<string>
    requires 0 <= len <= |h|
  {
    h[|h| - len..]
  }

  /** The trailing window of length `len` is examined and found at least twice. */
  predicate Repeats(h: seq<string>, len: int)
  {
    2 <= len <= 5 && 2 * len <= |h| && Occurrences(h, Window(h, len)) >= 2
  }

  /** The trailing window counts as a pattern exactly when it also occurs at an earlier position. */
  lemma RepeatsIffEarlier(h: seq<string>, len: int)
    requires 2 <= len <= 5 && 2 * len <= |h|
    ensures Repeats(h, len) <==> exists i :: 0 <= i < |h| - len && MatchAt(h, Window(h, len), i)
  {
    var w := Window(h, len);
    assert MatchAt(h, w, |h| - len);
    assert Occurrences(h, w) == CountUpTo(h, w, |h| - len) + 1;
    CountPositive(h, w, |h| - len);
  }

  /** One more sighting of the window `w`; a new pattern starts from no sighting. */
  function Seen(ps: map<string, Pattern>, w: seq<string>, now: int): (r: map<string, Pattern>)
    ensures Join(w) in r && r[Join(w)].lastSeen == now
    ensures r[Join(w)].occurrences == (if Join(w) in ps then ps[Join(w)].occurrences else 0) + 1
    ensures r[Join(w)].confidence == Min(1.0, r[Join(w)].occurrences as real * 0.1)
    ensures Join(w) !in ps ==> r[Join(w)].sequence == w
    ensures r.Keys == ps.Keys + {Join(w)}
    ensures forall k :: k in ps && k != Join(w) ==> r[k] == ps[k]
    ensures 2 <= |w| <= 5 && PatternsInv(ps) ==> PatternsInv(r)
  {
    var key := Join(w);
    var p := if key in ps then ps[key] else Pattern(key, w, 0, 0.0, 0);
    var occ := p.occurrences + 1;
    ps[key := p.(occurrences := occ, lastSeen := now, confidence := Min(1.0, occ as real * 0.1))]
  }

  function DetectOne(h: seq<string>, ps: map<string, Pattern>, now: int, len: int): map<string, Pattern>
    requires 2 <= len <= 5
  {
    if Repeats(h, len) then Seen(ps, Window(h, len), now) else ps
  }

  /** The key `k` is the id of a repeating trailing window of some length from `len` to 5. */
  predicate Touched(h: seq<string>, len: int, k: string)
  {
    exists l :: len <= l <= 5 && Repeats(h, l) && k == Join(Window(h, l))
  }

  /** The pattern updates for the window lengths `len` to 5. */
  function DetectFrom(h: seq<string>, ps: map<string, Pattern>, now: int, len: int): (r: map<string, Pattern>)
    requires 2 <= len <= 6
    ensures PatternsInv(ps) ==> PatternsInv(r)
    ensures ps.Keys <= r.Keys
    ensures forall k :: k in ps ==> ps[k].occurrences <= r[k].occurrences
    decreases 6 - len
  {
    if len > 5 then ps else DetectFrom(h, DetectOne(h, ps, now, len), now, len + 1)
  }

  /** `detectPatterns` on the history `h`. */
  function Detect(h: seq<string>, ps: map<string, Pattern>, now: int): map<string, Pattern>
  {
    if |h| < 4 then ps else DetectFrom(h, ps, now, 2)
  }

  /** Detection adds or changes only the ids of repeating trailing windows. */
  lemma {:induction false} DetectFromTouchesOnly(h: seq<string>, ps: map<string, Pattern>, now: int, len: int)
    requires 2 <= len <= 6
    ensures forall k :: k in DetectFrom(h, ps, now, len) ==> k in ps || Touched(h, len, k)
    ensures forall k :: k in ps && !Touched(h, len, k) ==> DetectFrom(h, ps, now, len)[k] == ps[k]
    decreases 6 - len
  {
    if len <= 5 {
      var mid := DetectOne(h, ps, now, len);
      var r := DetectFrom(h, mid, now, len + 1);
      assert DetectFrom(h, ps, now, len) == r;
      DetectFromTouchesOnly(h, mid, now, len + 1);
      forall k | k in r
        ensures k in ps || Touched(h, len, k)
      {
        if k !in ps {
          if k in mid {
            assert Repeats(h, len) && k == Join(Window(h, len));
          } else {
            var l :| len + 1 <= l <= 5 && Repeats(h, l) && k == Join(Window(h, l));
          }
        }
      }
      forall k | k in ps && !Touched(h, len, k)
        ensures r[k] == ps[k]
      {
        assert !Touched(h, len + 1, k);
        assert !(Repeats(h, len) && k == Join(Window(h, len)));
        assert mid[k] == ps[k];
      }
    }
  }

  /** A pattern already stamped with `now` stays recorded and stamped. */
  lemma {:induction false} DetectFromKeepsStamp(h: seq<string>, ps: map<string, Pattern>, now: int, len: int, k: string)
    requires 2 <= len <= 6 && k in ps && ps[k].lastSeen == now
    ensures k in DetectFrom(h, ps, now, len) && DetectFrom(h, ps, now, len)[k].lastSeen == now
    decreases 6 - len
  {
    if len <= 5 {
      var mid := DetectOne(h, ps, now, len);
      assert k in mid && mid[k].lastSeen == now;
      DetectFromKeepsStamp(h, mid, now, len + 1, k);
    }
  }

  lemma {:induction false} DetectFromRecords(h: seq<string>, ps: map<string, Pattern>, now: int, len: int, l: int)
    requires 2 <= len <= l <= 5 && Repeats(h, l)
    ensures Join(Window(h, l)) in DetectFrom(h, ps, now, len)
    ensures DetectFrom(h, ps, now, len)[Join(Window(h, l))].lastSeen == now
    decreases 6 - len
  {
    var mid := DetectOne(h, ps, now, len);
    if len < l {
      DetectFromRecords(h, mid, now, len + 1, l);
    } else {
      DetectFromKeepsStamp(h, mid, now, len + 1, Join(Window(h, l)));
    }
  }

  /**
   * Pattern detection records, stamped with the current time, every trailing
   * window of length 2 to 5 that the history holds at least twice over and
   * that repeats, and it adds or changes no other pattern.
   */
  lemma DetectRecordsRepeats(h: seq<string>, ps: map<string, Pattern>, now: int, l: int)
    requires Repeats(h, l)
    ensures Join(Window(h, l)) in Detect(h, ps, now)
    ensures Detect(h, ps, now)[Join(Window(h, l))].lastSeen == now
  {
    DetectFromRecords(h, ps, now, 2, l);
  }

  lemma DetectChangesOnlyRepeats(h: seq<string>, ps: map<string, Pattern>, now: int)
    ensures forall k :: k in Detect(h, ps, now) ==> k in ps || Touched(h, 2, k)
    ensures forall k :: k in ps && !Touched(h, 2, k) ==> Detect(h, ps, now)[k] == ps[k]
  {
    if |h| >= 4 {
      DetectFromTouchesOnly(h, ps, now, 2);
    }
  }

  /** `recordActivation`: append, keep the latest 50, look for patterns. */
  function Recorded(s: Net, id: string, now: int): (r: Net)
    ensures |r.recent| == IMin(|s.recent| + 1, HistorySize)
    ensures r.recent == (s.recent + [id])[|s.recent| + 1 - |r.recent|..]
    ensures r.recent[|r.recent| - 1] == id
    ensures r.neurons == s.neurons && r.synapses == s.synapses
    ensures r.patterns == Detect(r.recent, s.patterns, now)
    ensures Inv(s) ==> Inv(r)
  {
    var h := Keep(s.recent + [id], HistorySize);
    s.(recent := h, patterns := Detect(h, s.patterns, now))
  }

  // ------------------------------------------------------------ activation

  /** Whether adding `intensity` makes the inactive neuron `n` fire. */
  predicate Fires(n: Neuron, intensity: real)
  {
    !n.isActive && Min(1.0, n.activation + intensity) >= FiringThreshold
  }

  /** The first step of `activate`: the activation rises by `intensity`, capped at 1. */
  function Excited(s: Net, id: string, intensity: real): (r: Net)
    requires id in s.neurons
    ensures forall now :: Cascade(s.neurons, r.neurons, now)
    ensures InactiveOf(r.neurons) == InactiveOf(s.neurons)
    ensures r.synapses == s.synapses && r.recent == s.recent && r.patterns == s.patterns
    ensures Inv(s) ==> Inv(r)
  {
    s.(neurons := s.neurons[id := s.neurons[id].(activation := Min(1.0, s.neurons[id].activation + intensity))])
  }

  /**
   * How one neuron may change while activation spreads at time `now`: only
   * its activation and firing data move, an active neuron stays active, and
   * a neuron that became active fired exactly once, at `now`.
   */
  predicate FiredAtMostOnce(m: Neuron, n: Neuron, now: int)
  {
    && n.id == m.id && n.kind == m.kind && n.bias == m.bias && n.created == m.created && n.name == m.name
    && (m.isActive ==> n.isActive)
    && if !m.isActive && n.isActive then n.fireCount == m.fireCount + 1 && n.lastFired == now
       else n.fireCount == m.fireCount && n.lastFired == m.lastFired
  }

  predicate Cascade(a: map<string, Neuron>, b: map<string, Neuron>, now: int)
  {
    a.Keys == b.Keys && forall k :: k in a ==> FiredAtMostOnce(a[k], b[k], now)
  }

  function InactiveOf(ns: map<string, Neuron>): set<string>
  {
    set k | k in ns && !ns[k].isActive
  }

  /** `fire`'s first step: the neuron becomes active and counts one more firing, at `now`. */
  function MarkedFired(ns: map<string, Neuron>, id: string, now: int): (r: map<string, Neuron>)
    requires id in ns && !ns[id].isActive
    ensures Cascade(ns, r, now) && r[id].isActive
    ensures InactiveOf(r) < InactiveOf(ns)
    ensures NeuronsInv(ns) ==> NeuronsInv(r)
  {
    assert id in InactiveOf(ns);
    ns[id := ns[id].(isActive := true, lastFired := now, fireCount := ns[id].fireCount + 1)]
  }

  lemma CascadeTransitive(a: map<string, Neuron>, b: map<string, Neuron>, c: map<string, Neuron>, now: int)
    requires Cascade(a, b, now) && Cascade(b, c, now)
    ensures Cascade(a, c, now)
    ensures InactiveOf(c) <= InactiveOf(b) <= InactiveOf(a)
  {
  }

  // ------------------------------------------------------------------ decay

  function DecayedNeuron(n: Neuron): (m: Neuron)
    ensures m.activation <= n.activation
    ensures 0.0 <= n.activation ==> 0.0 <= m.activation
    ensures m.isActive ==> n.isActive
    ensures m.isActive && 0.0 < n.activation ==> FiringThreshold <= m.activation
    ensures m == n.(activation := m.activation, isActive := m.isActive)
  {
    if n.activation > 0.0 then
      var a := Max(0.0, n.activation - DecayRate);
      n.(activation := a, isActive := if a < FiringThreshold then false else n.isActive)
    else n
  }

  function DecayedSynapse(syn: Synapse, now: int): (r: Synapse)
    ensures 0.0 <= syn.weight ==> 0.0 <= r.weight <= syn.weight
    ensures now - syn.lastActivated <= Day ==> r == syn
    ensures r == syn.(weight := r.weight)
  {
    if now - syn.lastActivated > Day then syn.(weight := Max(0.0, syn.weight - SynapseDecay)) else syn
  }

  predicate NonNegative(ss: Synapses)
  {
    forall f, t :: f in ss && t in ss[f] ==> 0.0 <= ss[f][t].weight
  }

  function DecayedLinks(m: map<string, Synapse>, now: int): map<string, Synapse>
  {
    map t | t in m :: DecayedSynapse(m[t], now)
  }

  /**
   * `applyDecay`: every positive activation drops by 0.01 (not below 0) and
   * a neuron left below the threshold is no longer active; every synapse
   * idle for more than a day loses 0.001 of weight (not below 0).
   */
  function Decayed(s: Net, now: int): (r: Net)
    ensures r.neurons.Keys == s.neurons.Keys && r.synapses.Keys == s.synapses.Keys
    ensures forall f :: f in s.synapses ==> r.synapses[f].Keys == s.synapses[f].Keys
    ensures Keeps(s.synapses, r.synapses)
    ensures NonNegative(s.synapses) ==> NonNegative(r.synapses) && NoWeaker(r.synapses, s.synapses)
    ensures InactiveOf(s.neurons) <= InactiveOf(r.neurons)
    ensures r.recent == s.recent && r.patterns == s.patterns
    ensures Inv(s) ==> Inv(r)
  {
    s.(neurons := map k | k in s.neurons :: DecayedNeuron(s.neurons[k]),
       synapses := map f | f in s.synapses :: DecayedLinks(s.synapses[f], now))
  }

  /** Decay never makes a neuron fire and never strengthens a link (it inverts Hebbian growth). */
  lemma DecayUndoesNoFiring(s: Net, now: int)
    ensures forall k :: k in s.neurons ==> Decayed(s, now).neurons[k].fireCount == s.neurons[k].fireCount
    ensures forall k :: k in s.neurons && !s.neurons[k].isActive ==> !Decayed(s, now).neurons[k].isActive
  {
  }

  // ------------------------------------------------------------ association

  /** `associate`: create both concepts, both links, and raise both weights by `strength` (capped at 1). */
  function Associated(s: Net, c1: string, c2: string, strength: real, now: int): (r: Net)
    ensures r.neurons == Linkless(s, c1, c2, now).neurons
    ensures r.recent == s.recent && r.patterns == s.patterns
    ensures Linked(r.synapses, c1, c2)
    ensures Inv(s) ==> Inv(r)
  {
    var m := Linkless(s, c1, c2, now);
    m.(synapses := LinkedBoth(m.synapses, c1, c2, strength))
  }

  /** The synapse half of `associate`: both links created if need be, then both raised. */
  function LinkedBoth(m: Synapses, c1: string, c2: string, strength: real): (r: Synapses)
    ensures Linked(r, c1, c2)
    ensures SynapsesInv(m) ==> SynapsesInv(r)
  {
    var ss := WithSynapse(WithSynapse(m, c1, c2), c2, c1);
    Raised(Raised(ss, c1, c2, strength), c2, c1, strength)
  }

  /** The existing link `from -> to` gains `strength`, capped at 1; nothing else changes. */
  function Raised(ss: Synapses, from: string, to: string, strength: real): (r: Synapses)
    requires from in ss && to in ss[from]
    ensures r.Keys == ss.Keys && forall f :: f in ss ==> r[f].Keys == ss[f].Keys
    ensures r[from][to] == ss[from][to].(weight := Min(1.0, ss[from][to].weight + strength))
    ensures forall f, t :: f in ss && t in ss[f] && !(f == from && t == to) ==> r[f][t] == ss[f][t]
    ensures SynapsesInv(ss) ==> SynapsesInv(r)
  {
    var a := ss[from][to];
    ss[from := ss[from][to := a.(weight := Min(1.0, a.weight + strength))]]
  }

  /** The two concept neurons of `associate`, before any link is touched. */
  function Linkless(s: Net, c1: string, c2: string, now: int): (r: Net)
    ensures c2 in r.neurons
    ensures |s.neurons| + 1 < MaxNeurons ==> c1 in r.neurons
    ensures r.recent == s.recent && r.patterns == s.patterns
    ensures Inv(s) ==> Inv(r)
  {
    WithNeuron(WithNeuron(s, c1, "concept", c1, now), c2, "concept", c2, now)
  }

  /**
   * `associate` of two different concepts raises each of the two links by
   * `strength`, capped at 1, starting from its old weight or the initial one.
   */
  lemma AssociateRaisesBoth(m: Synapses, c1: string, c2: string, strength: real)
    requires c1 != c2
    ensures LinkedBoth(m, c1, c2, strength)[c1][c2].weight == Min(1.0, LinkWeight(m, c1, c2) + strength)
    ensures LinkedBoth(m, c1, c2, strength)[c2][c1].weight == Min(1.0, LinkWeight(m, c2, c1) + strength)
  {
    var s1 := WithSynapse(m, c1, c2);
    var ss := WithSynapse(s1, c2, c1);
    var r1 := Raised(ss, c1, c2, strength);
    var r := Raised(r1, c2, c1, strength);
    assert LinkedBoth(m, c1, c2, strength) == r;
    WithSynapseWeight(m, c1, c2, c1, c2);
    WithSynapseWeight(m, c1, c2, c2, c1);
    WithSynapseWeight(s1, c2, c1, c1, c2);
    WithSynapseWeight(s1, c2, c1, c2, c1);
    RaisedWeight(ss, c1, c2, strength, c1, c2);
    RaisedWeight(ss, c1, c2, strength, c2, c1);
    RaisedWeight(r1, c2, c1, strength, c1, c2);
    RaisedWeight(r1, c2, c1, strength, c2, c1);
  }

  /** Creating a missing link gives it the weight an absent link already reads as. */
  lemma WithSynapseWeight(ss: Synapses, from: string, to: string, f: string, t: string)
    ensures LinkWeight(WithSynapse(ss, from, to), f, t) == LinkWeight(ss, f, t)
  {
  }

  lemma RaisedWeight(ss: Synapses, from: string, to: string, strength: real, f: string, t: string)
    requires from in ss && to in ss[from]
    ensures LinkWeight(Raised(ss, from, to, strength), f, t)
         == if f == from && t == to then Min(1.0, LinkWeight(ss, f, t) + strength) else LinkWeight(ss, f, t)
  {
  }


  /** `associate` of a concept with itself finds one synapse and raises it twice. */
  lemma AssociateSelfRaisesTwice(m: Synapses, c: string, strength: real)
    ensures LinkedBoth(m, c, c, strength)[c][c].weight == Min(1.0, Min(1.0, LinkWeight(m, c, c) + strength) + strength)
  {
    var ss := WithSynapse(WithSynapse(m, c, c), c, c);
    var r1 := Raised(ss, c, c, strength);
    assert LinkedBoth(m, c, c, strength) == Raised(r1, c, c, strength);
  }

  /** The link `concept -> t` is reported by `getAssociations`. */
  predicate Strong(s: Net, concept: string, t: string)
  {
    concept in s.synapses && t in s.synapses[concept]
    && s.synapses[concept][t].weight > AssociationThreshold && t in s.neurons
  }

  function StrengthOf(a: Association): real { a.strength }

  predicate DistinctConcepts(xs: seq<Association>)
  {
    forall i, j :: 0 <= i < j < |xs| ==> xs[i].concept != xs[j].concept
  }

  /** Inserting an association for a new concept keeps the concepts distinct. */
  lemma InsertKeepsDistinct(xs: seq<Association>, a: Association)
    requires DistinctConcepts(xs) && forall i :: 0 <= i < |xs| ==> xs[i].concept != a.concept
    ensures DistinctConcepts(InsertDescending(xs, a, StrengthOf))
  {
    var p := InsertPos(xs, a, StrengthOf);
    var r := InsertDescending(xs, a, StrengthOf);
    forall i, j | 0 <= i < j < |r|
      ensures r[i].concept != r[j].concept
    {
      InsertedAtIndex(xs, a, StrengthOf, i);
      InsertedAtIndex(xs, a, StrengthOf, j);
      if i != p && j != p {
        DistinctAt(xs, if i < p then i else i - 1, if j < p then j else j - 1);
      }
    }
  }

  lemma DistinctAt(xs: seq<Association>, i: int, j: int)
    requires DistinctConcepts(xs) && 0 <= i < j < |xs|
    ensures xs[i].concept != xs[j].concept
  {
  }


  // ------------------------------------------------------------- prediction

  /** The pattern's second-to-last entry is `last`, so its last entry is a candidate prediction. */
  predicate PredictsFrom(p: Pattern, last: string)
  {
    |p.sequence| >= 2 && p.sequence[|p.sequence| - 2] == last
  }

  function Last(xs: seq<string>): string
    requires |xs| > 0
  {
    xs[|xs| - 1]
  }

  // ----------------------------------------------------------------- status

  /** Only links stronger than this are listed among the strongest connections. */
  const StrongestThreshold: real := 0.7

  /** `getStatus`'s report. */
  datatype NeuralStatus = NeuralStatus(
    neuronCount: nat, synapseCount: nat, patternCount: nat, activeNeurons: nat, strongestConnections: seq<string>)

  /** How a strong connection is written in the report. */
  function Arrow(from: string, to: string): string
  {
    from + " -> " + to
  }

  /** The active neurons among those in `keys`. */
  function ActiveCount(ns: map<string, Neuron>, keys: set<string>): nat
  {
    |set k | k in keys && k in ns && ns[k].isActive|
  }

  lemma ActiveCountStep(ns: map<string, Neuron>, keys: set<string>, k: string)
    requires k !in keys
    ensures ActiveCount(ns, keys + {k}) == ActiveCount(ns, keys) + (if k in ns && ns[k].isActive then 1 else 0)
  {
    var before := set j | j in keys && j in ns && ns[j].isActive;
    var after := set j | j in keys + {k} && j in ns && ns[j].isActive;
    if k in ns && ns[k].isActive {
      assert after == before + {k};
    } else {
      assert after == before;
    }
  }

  /** Every neuron is either counted as active or listed as inactive. */
  lemma ActiveCountSplits(ns: map<string, Neuron>)
    ensures ActiveCount(ns, ns.Keys) + |InactiveOf(ns)| == |ns|
  {
    var active := set k | k in ns.Keys && k in ns && ns[k].isActive;
    assert ns.Keys == active + InactiveOf(ns);
    assert active !! InactiveOf(ns);
  }

  /** Firing an inactive neuron adds exactly one to the active count. */
  lemma FiringCountsOne(ns: map<string, Neuron>, id: string, now: int)
    requires id in ns && !ns[id].isActive
    ensures ActiveCount(MarkedFired(ns, id, now), ns.Keys) == ActiveCount(ns, ns.Keys) + 1
  {
    var r := MarkedFired(ns, id, now);
    var before := set k | k in ns.Keys && k in ns && ns[k].isActive;
    var after := set k | k in ns.Keys && k in r && r[k].isActive;
    assert after == before + {id};
  }

  /** Decay never raises the active count. */
  lemma DecayCountsNoMore(s: Net, now: int)
    ensures ActiveCount(Decayed(s, now).neurons, s.neurons.Keys) <= ActiveCount(s.neurons, s.neurons.Keys)
  {
    var d := Decayed(s, now).neurons;
    DecayUndoesNoFiring(s, now);
    var before := set k | k in s.neurons.Keys && k in s.neurons && s.neurons[k].isActive;
    var after := set k | k in s.neurons.Keys && k in d && d[k].isActive;
    assert after <= before;
    SubsetCard(after, before);
  }

  /** The links leaving the neurons in `keys`, as (from, to) pairs. */
  function LinksFrom(ss: Synapses, keys: set<string>): set<(string, string)>
  {
    set f, t | f in keys && f in ss && t in ss[f] :: (f, t)
  }

  lemma {:induction false} PairsCard(f: string, ts: set<string>)
    ensures |set t | t in ts :: (f, t)| == |ts|
    decreases |ts|
  {
    if ts != {} {
      var t :| t in ts;
      PairsCard(f, ts - {t});
      assert (set u | u in ts :: (f, u)) == (set u | u in ts - {t} :: (f, u)) + {(f, t)};
    }
  }

  /** Counting the links of one more source adds the size of its row. */
  lemma LinkCountStep(ss: Synapses, keys: set<string>, f: string)
    requires f !in keys && f in ss
    ensures |LinksFrom(ss, keys + {f})| == |LinksFrom(ss, keys)| + |ss[f]|
  {
    var row := set t | t in ss[f].Keys :: (f, t);
    var before := LinksFrom(ss, keys);
    var after := LinksFrom(ss, keys + {f});
    PairsCard(f, ss[f].Keys);
    forall p | p in after
      ensures p in before || p in row
    {
      assert p.0 in keys + {f} && p.0 in ss && p.1 in ss[p.0];
    }
    forall p | p in row
      ensures p in after && p !in before
    {
      assert p.0 == f && p.1 in ss[f];
    }
    assert after == before + row;
  }

  /** `getOrCreateSynapse` adds one to the synapse count exactly when the link is new. */
  lemma WithSynapseCount(ss: Synapses, from: string, to: string)
    ensures var r := WithSynapse(ss, from, to);
      |LinksFrom(r, r.Keys)| == |LinksFrom(ss, ss.Keys)| + (if from in ss && to in ss[from] then 0 else 1)
  {
    var r := WithSynapse(ss, from, to);
    if !(from in ss && to in ss[from]) {
      var before := LinksFrom(ss, ss.Keys);
      var after := LinksFrom(r, r.Keys);
      forall p | p in before
        ensures p in after
      {
        assert p.0 in ss && p.1 in ss[p.0];
      }
      forall p | p in after
        ensures p in before || p == (from, to)
      {
        assert p.0 in r && p.1 in r[p.0];
      }
      assert (from, to) !in before;
      assert after == before + {(from, to)};
    }
  }

  /** Decay changes weights only, so the synapse count stays. */
  lemma DecayKeepsLinkCount(s: Net, now: int)
    ensures var d := Decayed(s, now).synapses; LinksFrom(d, d.Keys) == LinksFrom(s.synapses, s.synapses.Keys)
  {
  }

  /** The link `from -> to` exists and is above the report threshold. */
  predicate Reported(ss: Synapses, from: string, to: string)
  {
    from in ss && to in ss[from] && ss[from][to].weight > StrongestThreshold
  }

  /** Decay only weakens links, so it never adds a strongest connection. */
  lemma DecayReportsNoNew(s: Net, now: int, f: string, t: string)
    requires NonNegative(s.synapses)
    ensures Reported(Decayed(s, now).synapses, f, t) ==> Reported(s.synapses, f, t)
  {
  }

  // ------------------------------------------------------------------ class

  class AIChildNeuralNetwork {
    var neurons: map<string, Neuron>
    var synapses: Synapses
    var recent: seq<string>
    var patterns: map<string, Pattern>

    function State(): Net
      reads this
    {
      Net(neurons, synapses, recent, patterns)
    }

    predicate Valid()
      reads this
    {
      Inv(State())
    }

    function Inactive(): set<string>
      reads this
    {
      InactiveOf(neurons)
    }

    constructor ()
      ensures State() == Net(map[], map[], [], map[]) && Valid()
    {
      neurons := map[];
      synapses := map[];
      recent := [];
      patterns := map[];
    }

    method GetOrCreateNeuron(id: string, kind: string, name: string, now: int) returns (n: Neuron)
      modifies this
      ensures State() == WithNeuron(old(State()), id, kind, name, now)
      ensures id in neurons && n == neurons[id]
    {
      if id in neurons {
        n := neurons[id];
        return;
      }
      if |neurons| >= MaxNeurons {
        PruneWeakNeurons(now);
      }
      n := NewNeuron(id, kind, name, now);
      neurons := neurons[id := n];
      synapses := synapses[id := map[]];
    }

    /** The ids `pruneWeakNeurons` removes. */
    method WeakNeurons(now: int) returns (toRemove: set<string>)
      ensures toRemove == set k | k in neurons && IsWeakAsWritten(neurons[k], now)
    {
      toRemove := {};
      var pending := neurons.Keys;
      while pending != {}
        invariant pending <= neurons.Keys
        invariant toRemove == set k | k in neurons && k !in pending && IsWeakAsWritten(neurons[k], now)
        decreases pending
      {
        var k :| k in pending;
        if IsWeakAsWritten(neurons[k], now) {
          toRemove := toRemove + {k};
        }
        pending := pending - {k};
      }
    }

    method PruneWeakNeurons(now: int)
      modifies this
      ensures State() == Pruned(old(State()), now)
    {
      var toRemove := WeakNeurons(now);
      var rest := toRemove;
      while rest != {}
        invariant rest <= toRemove
        invariant neurons == old(neurons) - (toRemove - rest)
        invariant synapses == old(synapses) - (toRemove - rest)
        invariant recent == old(recent) && patterns == old(patterns)
        decreases rest
      {
        var k :| k in rest;
        neurons := neurons - {k};
        synapses := synapses - {k};
        rest := rest - {k};
      }
    }

    method GetOrCreateSynapse(from: string, to: string) returns (syn: Synapse)
      modifies this
      ensures synapses == WithSynapse(old(synapses), from, to)
      ensures neurons == old(neurons) && recent == old(recent) && patterns == old(patterns)
      ensures syn == synapses[from][to]
    {
      if from !in synapses {
        synapses := synapses[from := map[]];
      }
      if to in synapses[from] {
        syn := synapses[from][to];
      } else {
        syn := Synapse(from, to, InitialWeight, 0, 0);
        synapses := synapses[from := synapses[from][to := syn]];
      }
    }

    method StrengthenConnection(from: string, to: string, now: int)
      modifies this
      ensures synapses == StrengthenAt(old(synapses), from, to, now)
      ensures neurons == old(neurons) && recent == old(recent) && patterns == old(patterns)
    {
      var syn := GetOrCreateSynapse(from, to);
      var increase := LearningRate * (1.0 - syn.weight);
      var w := Min(1.0, syn.weight + increase);
      synapses := synapses[from := synapses[from][to := syn.(weight := w, lastActivated := now,
                                                             activationCount := syn.activationCount + 1)]];
    }

    method HebbianLearning(id: string, now: int)
      modifies this
      ensures State() == Hebbian(old(State()), id, now)
    {
      var i := |recent| - 1;
      while i >= 0 && i >= |recent| - HebbianWindow
        invariant -1 <= i < |recent|
        invariant recent == old(recent) && neurons == old(neurons) && patterns == old(patterns)
        invariant HebbianFrom(State(), id, now, i) == Hebbian(old(State()), id, now)
        decreases i + 1
      {
        HebbianStep(id, now, i);
        i := i - 1;
      }
    }

    /** Links the firing neuron `id` both ways with the history entry `i` if that one is another active neuron. */
    method HebbianStep(id: string, now: int, i: int)
      requires 0 <= i < |recent|
      modifies this
      ensures State() == HebbianAt(old(State()), id, now, i)
    {
      var other := recent[i];
      if other != id && other in neurons && neurons[other].isActive {
        StrengthenConnection(id, other, now);
        StrengthenConnection(other, id, now);
      }
    }

    /**
     * Adds `intensity` to the neuron's activation (capped at 1), fires it if
     * that reaches the threshold while it was inactive, and records the
     * activation.  Which neurons the spreading activation reaches depends on
     * the order the links are visited in; the contract says what holds for
     * every order.
     */
    method Activate(id: string, intensity: real, now: int)
      requires Valid()
      modifies this
      ensures Valid()
      ensures Cascade(old(neurons), neurons, now)
      ensures Keeps(old(synapses), synapses) && NoWeaker(old(synapses), synapses)
      ensures id !in old(neurons) ==> State() == old(State())
      ensures id in old(neurons) ==> 0 < |recent| && recent[|recent| - 1] == id
      ensures id in old(neurons) ==>
        (neurons[id].isActive <==> old(neurons[id].isActive) || Fires(old(neurons[id]), intensity))
      ensures id in old(neurons) && !Fires(old(neurons[id]), intensity) ==>
        State() == Recorded(Excited(old(State()), id, intensity), id, now)
      decreases Inactive(), 1
    {
      if id !in neurons {
        return;
      }
      var n := neurons[id];
      neurons := neurons[id := n.(activation := Min(1.0, n.activation + intensity))];
      ghost var excited := State();
      assert excited == Excited(old(State()), id, intensity);
      if neurons[id].activation >= FiringThreshold && !neurons[id].isActive {
        Fire(id, now);
        CascadeTransitive(old(neurons), excited.neurons, neurons, now);
      }
      RecordActivation(id, now);
    }

    /** Marks the neuron as fired, spreads `activation * weight` along each of its links, then learns. */
    method Fire(id: string, now: int)
      requires Valid() && id in neurons && !neurons[id].isActive
      modifies this
      ensures Valid()
      ensures Cascade(old(neurons), neurons, now) && neurons[id].isActive
      ensures Keeps(old(synapses), synapses) && NoWeaker(old(synapses), synapses)
      decreases Inactive(), 0
    {
      var n := neurons[id];
      neurons := neurons[id := n.(isActive := true, lastFired := now, fireCount := n.fireCount + 1)];
      assert neurons == MarkedFired(old(neurons), id, now);
      var targets := if id in synapses then synapses[id].Keys else {};
      var pending := targets;
      while pending != {}
        invariant Valid()
        invariant pending <= targets
        invariant targets != {} ==> id in synapses && targets <= synapses[id].Keys
        invariant Cascade(old(neurons), neurons, now) && neurons[id].isActive
        invariant Inactive() < old(Inactive())
        invariant Keeps(old(synapses), synapses) && NoWeaker(old(synapses), synapses)
        decreases pending
      {
        var t :| t in pending;
        pending := pending - {t};
        var propagated := neurons[id].activation * synapses[id][t].weight;
        ghost var ns := neurons;
        ghost var ss := synapses;
        Activate(t, propagated, now);
        CascadeTransitive(old(neurons), ns, neurons, now);
        GrowthTransitive(old(synapses), ss, synapses);
      }
      ghost var ss := synapses;
      HebbianLearning(id, now);
      GrowthTransitive(old(synapses), ss, synapses);
    }

    method RecordActivation(id: string, now: int)
      modifies this
      ensures State() == Recorded(old(State()), id, now)
    {
      ghost var full := recent + [id];
      recent := recent + [id];
      while |recent| > HistorySize
        invariant |recent| <= |full| && recent == full[|full| - |recent|..]
        invariant |recent| < |full| ==> HistorySize <= |recent|
        invariant neurons == old(neurons) && synapses == old(synapses) && patterns == old(patterns)
      {
        recent := recent[1..];
      }
      assert recent == Keep(full, HistorySize);
      DetectPatterns(now);
    }

    method DetectPatterns(now: int)
      modifies this
      ensures patterns == Detect(recent, old(patterns), now)
      ensures neurons == old(neurons) && synapses == old(synapses) && recent == old(recent)
    {
      if |recent| < 4 {
        return;
      }
      var len := 2;
      while len <= 5
        invariant 2 <= len <= 6
        invariant neurons == old(neurons) && synapses == old(synapses) && recent == old(recent)
        invariant DetectFrom(recent, patterns, now, len) == Detect(recent, old(patterns), now)
      {
        if |recent| >= 2 * len {
          var window := recent[|recent| - len..];
          var count := CountPatternOccurrences(window);
          assert window == Window(recent, len);
          if count >= 2 {
            SeePattern(window, now);
          }
        }
        len := len + 1;
      }
    }

    /** One more sighting of the pattern `window`, created on its first sighting. */
    method SeePattern(window: seq<string>, now: int)
      modifies this
      ensures patterns == Seen(old(patterns), window, now)
      ensures neurons == old(neurons) && synapses == old(synapses) && recent == old(recent)
    {
      var key := Join(window);
      var p := if key in patterns then patterns[key] else Pattern(key, window, 0, 0.0, 0);
      var occ := p.occurrences + 1;
      patterns := patterns[key := p.(occurrences := occ, lastSeen := now,
                                     confidence := Min(1.0, occ as real * 0.1))];
    }

    /** The number of positions, overlapping ones included, where `p` occurs in the history. */
    method CountPatternOccurrences(p: seq<string>) returns (count: int)
      ensures count == Occurrences(recent, p)
    {
      count := 0;
      var i := 0;
      while i <= |recent| - |p|
        invariant 0 <= i && (|p| <= |recent| ==> i <= |recent| - |p| + 1) && (|p| > |recent| ==> i == 0)
        invariant count == CountUpTo(recent, p, i)
        decreases |recent| - |p| + 1 - i
      {
        var matched := true;
        var j := 0;
        while j < |p|
          invariant 0 <= j <= |p|
          invariant recent[i..i + j] == p[..j]
        {
          if recent[i + j] != p[j] {
            matched := false;
            break;
          }
          assert recent[i..i + j + 1] == recent[i..i + j] + [recent[i + j]];
          assert p[..j + 1] == p[..j] + [p[j]];
          j := j + 1;
        }
        assert matched <==> MatchAt(recent, p, i) by {
          if matched {
            assert p[..|p|] == p;
          } else {
            assert recent[i..i + |p|][j] != p[j];
          }
        }
        if matched {
          count := count + 1;
        }
        i := i + 1;
      }
    }

    /**
     * The last entry of the recognised pattern that, among those whose
     * second-to-last entry is the latest activation, is most confident.
     */
    method PredictNext() returns (r: Option<string>)
      ensures |recent| < 2 ==> r == None
      ensures r.Some? ==>
        (2 <= |recent| &&
         exists k :: k in patterns && PredictsFrom(patterns[k], recent[|recent| - 1]) &&
           patterns[k].confidence > 0.0 && r.value == Last(patterns[k].sequence) &&
           forall k' :: k' in patterns && PredictsFrom(patterns[k'], recent[|recent| - 1]) ==>
             patterns[k'].confidence <= patterns[k].confidence)
      ensures r.None? && 2 <= |recent| ==>
        forall k :: k in patterns && PredictsFrom(patterns[k], recent[|recent| - 1]) ==> patterns[k].confidence <= 0.0
    {
      if |recent| < 2 {
        return None;
      }
      var last1 := recent[|recent| - 1];
      r := None;
      var bestConfidence := 0.0;
      ghost var bestKey := "";
      var pending := patterns.Keys;
      while pending != {}
        invariant pending <= patterns.Keys
        invariant 0.0 <= bestConfidence
        invariant r.None? ==> bestConfidence == 0.0
        invariant r.Some? ==>
          (bestKey in patterns && PredictsFrom(patterns[bestKey], last1) &&
           patterns[bestKey].confidence == bestConfidence > 0.0 && r.value == Last(patterns[bestKey].sequence))
        invariant forall k :: k in patterns && k !in pending && PredictsFrom(patterns[k], last1) ==>
          patterns[k].confidence <= bestConfidence
        decreases pending
      {
        var k :| k in pending;
        pending := pending - {k};
        var pattern := patterns[k];
        if |pattern.sequence| >= 2 && pattern.confidence > bestConfidence {
          if pattern.sequence[|pattern.sequence| - 2] == last1 {
            r := Some(pattern.sequence[|pattern.sequence| - 1]);
            bestConfidence := pattern.confidence;
            bestKey := k;
          }
        }
      }
    }

    method ApplyDecay(now: int)
      modifies this
      ensures State() == Decayed(old(State()), now)
    {
      neurons := DecayedNeurons();
      ghost var decayedNeurons := neurons;
      var sources := synapses.Keys;
      while sources != {}
        invariant sources <= old(synapses).Keys && synapses.Keys == old(synapses).Keys
        invariant forall f :: f in synapses ==>
          synapses[f] == if f in sources then old(synapses)[f] else DecayedLinks(old(synapses)[f], now)
        invariant neurons == decayedNeurons && recent == old(recent) && patterns == old(patterns)
        decreases sources
      {
        var f :| f in sources;
        sources := sources - {f};
        var links := DecayedLinksOf(f, now);
        synapses := synapses[f := links];
      }
      assert synapses == map f | f in old(synapses) :: DecayedLinks(old(synapses)[f], now);
    }

    /** Every neuron after one decay step of its activation. */
    method DecayedNeurons() returns (out: map<string, Neuron>)
      ensures out == map k | k in neurons :: DecayedNeuron(neurons[k])
    {
      out := neurons;
      var pending := neurons.Keys;
      while pending != {}
        invariant pending <= neurons.Keys && out.Keys == neurons.Keys
        invariant forall k :: k in out ==> out[k] == if k in pending then neurons[k] else DecayedNeuron(neurons[k])
        decreases pending
      {
        var k :| k in pending;
        pending := pending - {k};
        var neuron := out[k];
        if neuron.activation > 0.0 {
          var a := Max(0.0, neuron.activation - DecayRate);
          out := out[k := neuron.(activation := a, isActive := if a < FiringThreshold then false else neuron.isActive)];
        }
      }
    }

    /** The links out of `f` after one decay step of their weights. */
    method DecayedLinksOf(f: string, now: int) returns (out: map<string, Synapse>)
      requires f in synapses
      ensures out == DecayedLinks(synapses[f], now)
    {
      out := synapses[f];
      var pending := out.Keys;
      while pending != {}
        invariant pending <= synapses[f].Keys && out.Keys == synapses[f].Keys
        invariant forall t :: t in out ==>
          out[t] == if t in pending then synapses[f][t] else DecayedSynapse(synapses[f][t], now)
        decreases pending
      {
        var t :| t in pending;
        pending := pending - {t};
        var syn := out[t];
        var age := now - syn.lastActivated;
        if age > Day {
          out := out[t := syn.(weight := Max(0.0, syn.weight - SynapseDecay))];
        }
      }
    }

    method Associate(c1: string, c2: string, strength: real, now: int)
      modifies this
      ensures State() == Associated(old(State()), c1, c2, strength, now)
    {
      var n1 := GetOrCreateNeuron(c1, "concept", c1, now);
      var n2 := GetOrCreateNeuron(c2, "concept", c2, now);
      assert State() == Linkless(old(State()), c1, c2, now);
      ghost var m := synapses;
      var s1 := GetOrCreateSynapse(c1, c2);
      var s2 := GetOrCreateSynapse(c2, c1);
      assert synapses == WithSynapse(WithSynapse(m, c1, c2), c2, c1);
      // when c1 == c2 the two links are one synapse, raised twice
      RaiseLink(c1, c2, strength);
      RaiseLink(c2, c1, strength);
    }

    method RaiseLink(from: string, to: string, strength: real)
      requires from in synapses && to in synapses[from]
      modifies this
      ensures synapses == Raised(old(synapses), from, to, strength)
      ensures neurons == old(neurons) && recent == old(recent) && patterns == old(patterns)
    {
      var syn := synapses[from][to];
      synapses := synapses[from := synapses[from][to := syn.(weight := Min(1.0, syn.weight + strength))]];
    }

    /** The strong links out of `concept` to existing neurons, strongest first. */
    method GetAssociations(concept: string) returns (res: seq<Association>)
      ensures forall x :: x in res ==>
        (Strong(State(), concept, x.concept) && x.name == neurons[x.concept].name
         && x.strength == synapses[concept][x.concept].weight)
      ensures forall t :: Strong(State(), concept, t) ==> exists x :: x in res && x.concept == t
      ensures DescendingBy(res, StrengthOf) && DistinctConcepts(res)
    {
      res := [];
      if concept !in synapses {
        return;
      }
      var connections := synapses[concept];
      var pending := connections.Keys;
      while pending != {}
        invariant pending <= connections.Keys
        invariant DescendingBy(res, StrengthOf) && DistinctConcepts(res)
        invariant forall x :: x in res ==>
          (Strong(State(), concept, x.concept) && x.concept !in pending
           && x.name == neurons[x.concept].name && x.strength == connections[x.concept].weight)
        invariant forall t :: Strong(State(), concept, t) && t !in pending ==>
          exists x :: x in res && x.concept == t
        decreases pending
      {
        var t :| t in pending;
        pending := pending - {t};
        var syn := connections[t];
        if syn.weight > AssociationThreshold && t in neurons {
          var a := Association(t, neurons[t].name, syn.weight);
          assert forall i :: 0 <= i < |res| ==> res[i] in res;
          InsertKeepsDescending(res, a, StrengthOf);
          InsertKeepsDistinct(res, a);
          res := InsertDescending(res, a, StrengthOf);
        }
      }
    }

    /** `getActiveNeuronCount`: the active neurons, whatever the map's order. */
    method ActiveNeuronCount() returns (n: nat)
      ensures n == ActiveCount(neurons, neurons.Keys)
    {
      var ns := neurons;
      var rest := ns.Keys;
      var done: set<string> := {};
      n := 0;
      while rest != {}
        invariant rest + done == ns.Keys && rest !! done
        invariant n == ActiveCount(ns, done)
        decreases |rest|
      {
        var k :| k in rest;
        ActiveCountStep(ns, done, k);
        if ns[k].isActive {
          n := n + 1;
        }
        rest, done := rest - {k}, done + {k};
      }
    }

    /** `getSynapseCount`: the sizes of all rows added up, which is the number of links. */
    method SynapseCount() returns (n: nat)
      ensures n == |LinksFrom(synapses, synapses.Keys)|
    {
      var ss := synapses;
      var rest := ss.Keys;
      var done: set<string> := {};
      n := 0;
      while rest != {}
        invariant rest + done == ss.Keys && rest !! done
        invariant n == |LinksFrom(ss, done)|
        decreases |rest|
      {
        var f :| f in rest;
        LinkCountStep(ss, done, f);
        n := n + |ss[f]|;
        rest, done := rest - {f}, done + {f};
      }
    }

    /** The reported links of the row of `f`, written as their synapses name them. */
    method ReportedFrom(f: string) returns (r: seq<string>)
      requires f in synapses
      ensures forall t :: Reported(synapses, f, t) ==> Arrow(synapses[f][t].from, synapses[f][t].to) in r
      ensures forall x :: x in r ==>
        exists t :: Reported(synapses, f, t) && x == Arrow(synapses[f][t].from, synapses[f][t].to)
    {
      var row := synapses[f];
      var rest := row.Keys;
      r := [];
      while rest != {}
        invariant rest <= row.Keys
        invariant forall t :: Reported(synapses, f, t) && t !in rest ==> Arrow(row[t].from, row[t].to) in r
        invariant forall x :: x in r ==>
          exists t :: Reported(synapses, f, t) && x == Arrow(row[t].from, row[t].to)
        decreases |rest|
      {
        var t :| t in rest;
        if row[t].weight > StrongestThreshold {
          r := r + [Arrow(row[t].from, row[t].to)];
        }
        rest := rest - {t};
      }
    }

    /** `getStatus`'s list: every link above 0.7, in an order the maps decide. */
    method StrongestConnections() returns (r: seq<string>)
      ensures forall f, t :: Reported(synapses, f, t) ==> Arrow(synapses[f][t].from, synapses[f][t].to) in r
      ensures forall x :: x in r ==>
        exists f, t :: Reported(synapses, f, t) && x == Arrow(synapses[f][t].from, synapses[f][t].to)
    {
      var rest := synapses.Keys;
      r := [];
      while rest != {}
        invariant rest <= synapses.Keys
        invariant forall f, t :: Reported(synapses, f, t) && f !in rest ==>
          Arrow(synapses[f][t].from, synapses[f][t].to) in r
        invariant forall x :: x in r ==>
          exists f, t :: Reported(synapses, f, t) && x == Arrow(synapses[f][t].from, synapses[f][t].to)
        decreases |rest|
      {
        var f :| f in rest;
        var row := ReportedFrom(f);
        r := r + row;
        rest := rest - {f};
      }
    }

    /** `getStatus`: the sizes, the two counts and the strongest connections. */
    method Status() returns (st: NeuralStatus)
      ensures st.neuronCount == |neurons| && st.patternCount == |patterns|
      ensures st.synapseCount == |LinksFrom(synapses, synapses.Keys)|
      ensures st.activeNeurons == ActiveCount(neurons, neurons.Keys)
      ensures forall f, t :: Reported(synapses, f, t) ==>
        Arrow(synapses[f][t].from, synapses[f][t].to) in st.strongestConnections
      ensures forall x :: x in st.strongestConnections ==>
        exists f, t :: Reported(synapses, f, t) && x == Arrow(synapses[f][t].from, synapses[f][t].to)
    {
      var links := SynapseCount();
      var active := ActiveNeuronCount();
      var strongest := StrongestConnections();
      st := NeuralStatus(|neurons|, links, |patterns|, active, strongest);
    }
  }
}
