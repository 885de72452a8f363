// The pattern recognizer: a bounded history of events, a co-occurrence
// matrix over the events that follow one another closely, and the three
// kinds of pattern found in them (events at regular intervals, effects that
// usually follow a cause, and repeated runs of three to five events).
module PatternRecognizer {
  import opened Common

  const MaxHistory := 1000
  /** The analysis runs once the history holds this many events. */
  const MinAnalysed := 10
  /** An event co-occurs with the (at most nine) events recorded just before it. */
  const CoOccurrenceSpan := 10
  const MinTemporalInterval := 60000
  const MinTemporalOccurrences := 3
  const MinCausalCount := 3
  const MinSequenceHistory := 6
  const MinSequenceLength := 3
  const MaxSequenceLength := 5
  const MaxSequencePatterns := 50
  const Arrow := " -> "

  // ------------------------------------------------------------------ data

  /**
   * An event's type and data are only ever read joined as "type:data", so
   * the event keeps that key; the context map it carries is never read.
   */
  datatype Event = Event(key: string, timestamp: int)

  function Key(kind: string, data: string): string { kind + ":" + data }

  /**
   * The float `regularity` of the source is 1 - min(1, sqrt(variance) / avg);
   * here the exact variance is kept instead (see `RegularityTest`).
   */
  datatype TemporalPattern = TemporalPattern(
    eventType: string, averageInterval: int, variance: real,
    occurrences: seq<int>, description: string)

  datatype CausalPattern = CausalPattern(
    cause: string, effect: string, probability: real, avgDelay: int,
    observationCount: int, description: string)

  datatype SequencePattern = SequencePattern(
    sequence: seq<string>, occurrences: int, confidence: real, name: string)

  datatype Prediction = Prediction(prediction: string, confidence: real, reason: string)

  type Matrix = map<string, map<string, int>>

  function TypeOf(t: TemporalPattern): string { t.eventType }
  function CauseEffect(c: CausalPattern): (string, string) { (c.cause, c.effect) }
  function SeqOf(s: SequencePattern): seq<string> { s.sequence }

  predicate TemporalOk(t: TemporalPattern)
  {
    |t.occurrences| >= MinTemporalOccurrences && t.averageInterval > MinTemporalInterval
    && 0.0 <= t.variance && Regular(t.averageInterval, t.variance)
  }

  predicate CausalOk(c: CausalPattern)
  {
    c.observationCount >= MinCausalCount && c.probability > 0.5 && c.avgDelay == 0
  }

  predicate SequenceOk(s: SequencePattern)
  {
    s.occurrences >= 2 && 0.4 <= s.confidence <= 1.0
  }

  predicate MatrixInv(m: Matrix)
  {
    forall a, b :: a in m && b in m[a] ==> m[a][b] >= 1
  }

  // ------------------------------------------------------- keyed lists

  predicate AllOk<T>(xs: seq<T>, ok: T -> bool)
  {
    forall i :: 0 <= i < |xs| ==> ok(xs[i])
  }

  predicate DistinctBy<T, K(==)>(xs: seq<T>, key: T -> K)
  {
    forall i, j :: 0 <= i < j < |xs| ==> key(xs[i]) != key(xs[j])
  }

  /** The first index whose element has key `k`, or -1 when there is none. */
  function IndexBy<T, K(==)>(xs: seq<T>, key: T -> K, k: K): (i: int)
    ensures -1 <= i < |xs|
    ensures 0 <= i ==> key(xs[i]) == k
    ensures forall j :: 0 <= j < |xs| && (i < 0 || j < i) ==> key(xs[j]) != k
    decreases |xs|
  {
    if xs == [] then -1
    else if key(xs[0]) == k then 0
    else
      var j := IndexBy(xs[1..], key, k);
      assert forall j' :: 1 <= j' < |xs| ==> xs[j'] == xs[1..][j' - 1];
      if j < 0 then -1 else j + 1
  }

  /** "Add or update": replaces the first element with the key of `p`, or appends `p`. */
  function UpsertBy<T, K(==)>(xs: seq<T>, key: T -> K, p: T): (r: seq<T>)
    ensures |r| == |xs| + (if IndexBy(xs, key, key(p)) < 0 then 1 else 0)
    ensures DistinctBy(xs, key) ==> DistinctBy(r, key)
    ensures exists i :: 0 <= i < |r| && r[i] == p
    ensures forall j :: 0 <= j < |xs| && key(xs[j]) != key(p) ==> r[j] == xs[j]
  {
    var i := IndexBy(xs, key, key(p));
    if 0 <= i then
      assert xs[i := p][i] == p;
      xs[i := p]
    else
      assert (xs + [p])[|xs|] == p;
      xs + [p]
  }

  /** Every candidate carries the key it is the candidate of. */
  ghost predicate WellKeyed<T, K(!new)>(key: T -> K, cand: K -> Option<T>)
  {
    forall k :: cand(k).Some? ==> key(cand(k).value) == k
  }

  function MergeOne<T, K(==)>(xs: seq<T>, key: T -> K, c: Option<T>): seq<T>
  {
    if c.Some? then UpsertBy(xs, key, c.value) else xs
  }

  /**
   * `cur` is `xs` after the candidates of the keys in `done` were added or
   * updated, in any order: an element whose key has a candidate is replaced
   * by it in place, the others are untouched, and each key new to the list
   * is appended once.
   */
  ghost predicate MergedBy<T, K(!new)>(xs: seq<T>, cur: seq<T>, key: T -> K, cand: K -> Option<T>, done: set<K>)
  {
    |xs| <= |cur| && DistinctBy(cur, key)
    && (forall i :: 0 <= i < |xs| ==>
          cur[i] == if key(xs[i]) in done && cand(key(xs[i])).Some? then cand(key(xs[i])).value else xs[i])
    && (forall i :: |xs| <= i < |cur| ==>
          key(cur[i]) in done && cand(key(cur[i])) == Some(cur[i])
          && forall j :: 0 <= j < |xs| ==> key(xs[j]) != key(cur[i]))
    && (forall k :: k in done && cand(k).Some? ==> exists i :: 0 <= i < |cur| && key(cur[i]) == k)
  }

  lemma MergedStart<T, K(!new)>(xs: seq<T>, key: T -> K, cand: K -> Option<T>)
    requires DistinctBy(xs, key)
    ensures MergedBy(xs, xs, key, cand, {})
  {
  }

  /** Processing one more key keeps the merge relation. */
  lemma MergedStep<T, K(!new)>(xs: seq<T>, cur: seq<T>, key: T -> K, cand: K -> Option<T>, done: set<K>, k: K)
    requires DistinctBy(xs, key) && WellKeyed(key, cand)
    requires MergedBy(xs, cur, key, cand, done) && k !in done
    ensures MergedBy(xs, MergeOne(cur, key, cand(k)), key, cand, done + {k})
  {
    var done' := done + {k};
    assert forall i :: 0 <= i < |xs| ==> key(cur[i]) == key(xs[i]);
    if cand(k).Some? {
      var p := cand(k).value;
      var i := IndexBy(cur, key, k);
      var r := MergeOne(cur, key, cand(k));
      if 0 <= i {
        assert i < |xs|;
        assert r == cur[i := p];
        forall j | 0 <= j < |xs|
          ensures r[j] == if key(xs[j]) in done' && cand(key(xs[j])).Some? then cand(key(xs[j])).value else xs[j]
        {
          if j == i {
            assert key(xs[j]) == k;
          } else {
            assert key(xs[j]) != k;
          }
        }
      } else {
        assert r == cur + [p];
        forall k' | k' in done' && cand(k').Some?
          ensures exists j :: 0 <= j < |r| && key(r[j]) == k'
        {
          if k' == k {
            assert key(r[|cur|]) == k';
          } else {
            var j :| 0 <= j < |cur| && key(cur[j]) == k';
            assert r[j] == cur[j];
          }
        }
      }
    }
  }

  /** Every element after a merge is an old element or a candidate. */
  lemma MergedKeeps<T, K(!new)>(xs: seq<T>, cur: seq<T>, key: T -> K, cand: K -> Option<T>, done: set<K>, ok: T -> bool)
    requires MergedBy(xs, cur, key, cand, done)
    requires AllOk(xs, ok)
    requires forall k :: cand(k).Some? ==> ok(cand(k).value)
    ensures AllOk(cur, ok)
  {
    forall i | 0 <= i < |cur|
      ensures ok(cur[i])
    {
      if i < |xs| {
        assert cand(key(xs[i])).Some? ==> ok(cand(key(xs[i])).value);
      } else {
        assert cand(key(cur[i])).Some? ==> ok(cand(key(cur[i])).value);
      }
    }
  }

  // ---------------------------------------------------- history, matrix

  /** The number of events with key `k` at indices `lo` to `hi - 1`. */
  function CountIn(h: seq<Event>, k: string, lo: nat, hi: nat): (n: nat)
    requires lo <= hi <= |h|
    ensures n <= hi - lo
    decreases hi
  {
    if hi == lo then 0 else CountIn(h, k, lo, hi - 1) + (if h[hi - 1].key == k then 1 else 0)
  }

  /** The number of events with key `k`. */
  function CountKey(h: seq<Event>, k: string): nat
  {
    CountIn(h, k, 0, |h|)
  }

  function Get(m: Matrix, a: string, b: string): int
  {
    if a in m && b in m[a] then m[a][b] else 0
  }

  /** `computeIfAbsent(a)` followed by `merge(b, 1, Integer::sum)`. */
  function Bump(m: Matrix, a: string, b: string): (r: Matrix)
    ensures Get(r, a, b) == Get(m, a, b) + 1
    ensures forall x, y :: x != a || y != b ==> Get(r, x, y) == Get(m, x, y)
    ensures r.Keys == m.Keys + {a}
    ensures MatrixInv(m) ==> MatrixInv(r)
  {
    var row := if a in m then m[a] else map[];
    m[a := row[b := Get(m, a, b) + 1]]
  }

  /** Counts `key` as following each event at indices `lo` to `i - 1`. */
  function CoOccurFrom(m: Matrix, h: seq<Event>, key: string, lo: nat, i: nat): Matrix
    requires lo <= i <= |h|
    decreases i
  {
    if i == lo then m else Bump(CoOccurFrom(m, h, key, lo, i - 1), h[i - 1].key, key)
  }

  /** The first index of the co-occurrence window of the last event of `h`. */
  function WindowStart(h: seq<Event>): nat
  {
    IMax(0, |h| - CoOccurrenceSpan)
  }

  /** `updateCoOccurrences`: the last event of `h` follows each of the events just before it. */
  function CoOccurred(m: Matrix, h: seq<Event>, key: string): Matrix
  {
    if |h| == 0 then m else CoOccurFrom(m, h, key, WindowStart(h), |h| - 1)
  }

  lemma {:induction false} CoOccurFromCounts(m: Matrix, h: seq<Event>, key: string, lo: nat, i: nat, a: string, b: string)
    requires lo <= i <= |h|
    ensures Get(CoOccurFrom(m, h, key, lo, i), a, b) == Get(m, a, b) + (if b == key then CountIn(h, a, lo, i) else 0)
    decreases i
  {
    if i > lo {
      CoOccurFromCounts(m, h, key, lo, i - 1, a, b);
    }
  }

  lemma {:induction false} CoOccurFromInv(m: Matrix, h: seq<Event>, key: string, lo: nat, i: nat)
    requires lo <= i <= |h| && MatrixInv(m)
    ensures MatrixInv(CoOccurFrom(m, h, key, lo, i))
    decreases i
  {
    if i > lo {
      CoOccurFromInv(m, h, key, lo, i - 1);
    }
  }

  /**
   * Recording the last event of `h` adds one to the count of (prev, key) for
   * every occurrence of prev among the at most nine events before it, and
   * changes no other count.
   */
  lemma CoOccurredCounts(m: Matrix, h: seq<Event>, key: string, a: string, b: string)
    requires |h| >= 1
    ensures WindowStart(h) <= |h| - 1 && |h| - 1 - WindowStart(h) <= CoOccurrenceSpan - 1
    ensures Get(CoOccurred(m, h, key), a, b)
         == Get(m, a, b) + (if b == key then CountIn(h, a, WindowStart(h), |h| - 1) else 0)
    ensures MatrixInv(m) ==> MatrixInv(CoOccurred(m, h, key))
  {
    CoOccurFromCounts(m, h, key, WindowStart(h), |h| - 1, a, b);
    if MatrixInv(m) {
      CoOccurFromInv(m, h, key, WindowStart(h), |h| - 1);
    }
  }

  // ------------------------------------------------------------ temporal

  /** The timestamps of the first `n` events that have key `k`, in history order. */
  function TimesUpTo(h: seq<Event>, k: string, n: nat): (ts: seq<int>)
    requires n <= |h|
    ensures |ts| == CountIn(h, k, 0, n)
  {
    if n == 0 then []
    else TimesUpTo(h, k, n - 1) + (if h[n - 1].key == k then [h[n - 1].timestamp] else [])
  }

  function TimesOf(h: seq<Event>, k: string): seq<int>
  {
    TimesUpTo(h, k, |h|)
  }

  function KeysUpTo(h: seq<Event>, n: nat): set<string>
    requires n <= |h|
  {
    set i | 0 <= i < n :: h[i].key
  }

  lemma KeysUpToStep(h: seq<Event>, n: nat)
    requires n < |h|
    ensures KeysUpTo(h, n + 1) == KeysUpTo(h, n) + {h[n].key}
  {
    assert h[n].key in KeysUpTo(h, n + 1);
  }

  /** Adding event `n` to its key's group extends the grouping of the first `n` events to `n + 1`. */
  lemma GroupStep(h: seq<Event>, times: map<string, seq<int>>, n: nat)
    requires n < |h|
    requires times.Keys == KeysUpTo(h, n)
    requires forall k :: k in times ==> times[k] == TimesUpTo(h, k, n)
    ensures var e := h[n];
            var t := times[e.key := (if e.key in times then times[e.key] else []) + [e.timestamp]];
            t.Keys == KeysUpTo(h, n + 1) && forall k :: k in t ==> t[k] == TimesUpTo(h, k, n + 1)
  {
    var e := h[n];
    if e.key !in times {
      TimesUpToAbsent(h, e.key, n);
    }
    KeysUpToStep(h, n);
  }

  function KeysOf(h: seq<Event>): set<string>
  {
    KeysUpTo(h, |h|)
  }

  function Intervals(times: seq<int>): seq<int>
    requires |times| >= 1
  {
    seq(|times| - 1, i requires 0 <= i < |times| - 1 => times[i + 1] - times[i])
  }

  function SumInts(xs: seq<int>): int
  {
    if xs == [] then 0 else SumInts(xs[..|xs| - 1]) + xs[|xs| - 1]
  }

  /** The sum of the squared deviations of `xs` from `avg`. */
  function SquaredDeviation(xs: seq<int>, avg: int): (r: real)
    ensures 0.0 <= r
  {
    if xs == [] then 0.0
    else
      var d := (xs[|xs| - 1] - avg) as real;
      SquaredDeviation(xs[..|xs| - 1], avg) + d * d
  }

  /** The standard deviation is below half the mean, squared out. */
  predicate Regular(avg: int, variance: real)
  {
    4.0 * variance < (avg * avg) as real
  }

  function DescribeInterval(ms: int): string
  {
    if ms < 60000 then "less than a minute"
    else if ms < 3600000 then NatToString(ms / 60000) + " minutes"
    else if ms < 86400000 then NatToString(ms / 3600000) + " hours"
    else NatToString(ms / 86400000) + " days"
  }

  /** The mean interval between consecutive timestamps, truncated as `long` division does. */
  function AvgInterval(times: seq<int>): int
    requires |times| >= 2
  {
    JDiv(SumInts(Intervals(times)), |times| - 1)
  }

  /** The population variance of the intervals around their truncated mean. */
  function IntervalVariance(times: seq<int>): real
    requires |times| >= 2
  {
    SquaredDeviation(Intervals(times), AvgInterval(times)) / ((|times| - 1) as real)
  }

  /**
   * The temporal pattern the timestamps `times` of key `k` make: at least
   * three of them, whose intervals average (integer division) more than a
   * minute with a standard deviation below half that average.
   */
  function TemporalOf(k: string, times: seq<int>): (r: Option<TemporalPattern>)
    ensures r.Some? ==> TemporalOk(r.value) && r.value.eventType == k && r.value.occurrences == times
    ensures |times| < MinTemporalOccurrences ==> r.None?
    ensures |times| >= MinTemporalOccurrences ==>
      (r.Some? <==> Regular(AvgInterval(times), IntervalVariance(times)) && AvgInterval(times) > MinTemporalInterval)
    ensures r.Some? ==>
      r.value.averageInterval == AvgInterval(times) && r.value.variance == IntervalVariance(times)
      && r.value.description == DescribeInterval(AvgInterval(times))
  {
    if |times| < MinTemporalOccurrences then None
    else
      var avg := AvgInterval(times);
      var variance := IntervalVariance(times);
      if Regular(avg, variance) && avg > MinTemporalInterval then
        Some(TemporalPattern(k, avg, variance, times, DescribeInterval(avg)))
      else None
  }

  /**
   * Irregular timing still registers: events two minutes apart up to ten
   * milliseconds of jitter average 120005 ms with variance 25.
   */
  lemma JitteredTimesRegister(k: string)
    ensures TemporalOf(k, [0, 120000, 240010]).Some?
    ensures TemporalOf(k, [0, 120000, 240010]).value.averageInterval == 120005
    ensures TemporalOf(k, [0, 120000, 240010]).value.variance == 25.0
  {
    var times := [0, 120000, 240010];
    assert Intervals(times) == [120000, 120010];
    assert SumInts([120000, 120010]) == 240010 by {
      assert [120000, 120010][..1] == [120000];
      assert [120000][..0] == [];
    }
    assert AvgInterval(times) == 120005;
    assert SquaredDeviation([120000, 120010], 120005) == 50.0 by {
      assert [120000, 120010][..1] == [120000];
      assert [120000][..0] == [];
    }
  }

  function TemporalCand(h: seq<Event>, k: string): Option<TemporalPattern>
  {
    TemporalOf(k, TimesOf(h, k))
  }

  function TemporalCands(h: seq<Event>): string -> Option<TemporalPattern>
  {
    k => TemporalCand(h, k)
  }

  lemma {:induction false} TimesUpToAbsent(h: seq<Event>, k: string, n: nat)
    requires n <= |h| && k !in KeysUpTo(h, n)
    ensures TimesUpTo(h, k, n) == []
    decreases n
  {
    if n > 0 {
      assert h[n - 1].key in KeysUpTo(h, n);
      assert KeysUpTo(h, n - 1) <= KeysUpTo(h, n);
      TimesUpToAbsent(h, k, n - 1);
    }
  }

  /** A key that never occurs in the history has no temporal pattern. */
  lemma TemporalCandAbsent(h: seq<Event>, k: string)
    requires k !in KeysOf(h)
    ensures TemporalCand(h, k).None?
  {
    TimesUpToAbsent(h, k, |h|);
  }

  lemma TemporalCandsWellKeyed(h: seq<Event>)
    ensures WellKeyed(TypeOf, TemporalCands(h))
    ensures forall k :: TemporalCands(h)(k).Some? ==> TemporalOk(TemporalCands(h)(k).value)
  {
  }

  /**
   * The regularity test of the source, 1 - min(1, sd / avg) > 0.5, is
   * `Regular` whenever the average is positive and `sd` is the square root
   * of the variance.
   */
  lemma RegularityTest(avg: int, variance: real, sd: real)
    requires avg > 0 && 0.0 <= sd && sd * sd == variance
    ensures 1.0 - Min(1.0, sd / (avg as real)) > 0.5 <==> Regular(avg, variance)
  {
    DivTimes(sd, avg as real);
    RatioTest(avg, variance, sd, sd / (avg as real));
  }

  lemma RatioTest(avg: int, variance: real, sd: real, ratio: real)
    requires avg > 0 && 0.0 <= sd && sd * sd == variance
    requires ratio * (avg as real) == sd
    ensures 1.0 - Min(1.0, ratio) > 0.5 <==> Regular(avg, variance)
  {
    var a := avg as real;
    var h := a / 2.0;
    CastSquare(avg);
    HalfSquared(a);
    ScaleLess(ratio, 0.5, a);
    SquareLess(sd, h);
    assert 0.5 * a == h;
    assert ratio < 0.5 <==> sd < h;
    assert 1.0 - Min(1.0, ratio) > 0.5 <==> ratio < 0.5;
    assert Regular(avg, variance) <==> 4.0 * variance < a * a;
    assert 4.0 * variance < a * a <==> sd * sd < h * h;
  }

  lemma {:induction false} SumConstant(xs: seq<int>, d: int)
    requires forall i :: 0 <= i < |xs| ==> xs[i] == d
    ensures SumInts(xs) == |xs| * d
    ensures SquaredDeviation(xs, d) == 0.0
    decreases |xs|
  {
    if xs != [] {
      SumConstant(xs[..|xs| - 1], d);
    }
  }

  lemma JDivMultiple(n: int, d: int)
    requires n > 0
    ensures JDiv(n * d, n) == d
  {
    if d >= 0 {
      MulDivCancel(n, d);
    } else {
      MulDivCancel(n, -d);
      assert n * d <= 0 && -(n * d) == n * (-d);
    }
  }

  /**
   * Events exactly `d` apart form a temporal pattern with that average and
   * no variance precisely when `d` is more than a minute; in particular
   * events exactly one minute apart never do.
   */
  lemma EvenlySpaced(k: string, times: seq<int>, d: int)
    requires |times| >= MinTemporalOccurrences
    requires forall i :: 0 <= i < |times| - 1 ==> times[i + 1] - times[i] == d
    ensures TemporalOf(k, times).Some? <==> d > MinTemporalInterval
    ensures TemporalOf(k, times).Some? ==>
              TemporalOf(k, times).value.averageInterval == d && TemporalOf(k, times).value.variance == 0.0
  {
    var iv := Intervals(times);
    SumConstant(iv, d);
    JDivMultiple(|iv|, d);
    if d > MinTemporalInterval {
      assert (d * d) as real > 0.0 by {
        assert d * d > 0;
      }
    }
  }

  // -------------------------------------------------------------- causal

  function CausalDescription(cause: string, effect: string, probability: real): string
  {
    // `(int)(probability * 100)` truncates; the probability is positive here.
    "When '" + cause + "' happens, '" + effect + "' follows ("
      + IntToString((probability * 100.0).Floor) + "% of the time)"
  }

  /**
   * The causal pattern of the pair (cause, effect): at least three
   * co-occurrences, and more of them than half the occurrences of the cause
   * still in the history.
   */
  function CausalCand(h: seq<Event>, m: Matrix, k: (string, string)): (r: Option<CausalPattern>)
    ensures r.Some? ==> CausalOk(r.value) && CauseEffect(r.value) == k
    ensures r.Some? ==> r.value.observationCount == Get(m, k.0, k.1)
    ensures r.Some? ==> CountKey(h, k.0) > 0
    ensures r.Some? ==> r.value.probability == Get(m, k.0, k.1) as real / CountKey(h, k.0) as real
  {
    var count := Get(m, k.0, k.1);
    if count < MinCausalCount then None
    else
      var causeCount := CountKey(h, k.0);
      var probability := if causeCount > 0 then count as real / causeCount as real else 0.0;
      if probability > 0.5 then
        Some(CausalPattern(k.0, k.1, probability, 0, count, CausalDescription(k.0, k.1, probability)))
      else None
  }

  /** A ratio of counts is above one half exactly when twice the numerator exceeds the denominator. */
  lemma AboveHalf(count: int, total: int)
    requires total > 0
    ensures count as real / total as real > 0.5 <==> 2 * count > total
  {
    var t := total as real;
    DivTimes(count as real, t);
    ScaleLess(0.5, count as real / t, t);
  }

  /**
   * A pair becomes a causal pattern exactly when it co-occurred at least three
   * times and more often than half the occurrences of its cause.
   */
  lemma CausalCandRegisters(h: seq<Event>, m: Matrix, k: (string, string))
    ensures CausalCand(h, m, k).Some?
        <==> (Get(m, k.0, k.1) >= MinCausalCount && CountKey(h, k.0) > 0 && 2 * Get(m, k.0, k.1) > CountKey(h, k.0))
  {
    if CountKey(h, k.0) > 0 {
      AboveHalf(Get(m, k.0, k.1), CountKey(h, k.0));
    }
  }

  function CausalCands(h: seq<Event>, m: Matrix): ((string, string)) -> Option<CausalPattern>
  {
    k => CausalCand(h, m, k)
  }

  function PairsOf(m: Matrix, causes: set<string>): set<(string, string)>
  {
    set c, e | c in causes && c in m && e in m[c] :: (c, e)
  }

  lemma CausalCandsWellKeyed(h: seq<Event>, m: Matrix)
    ensures WellKeyed(CauseEffect, CausalCands(h, m))
    ensures forall k :: CausalCands(h, m)(k).Some? ==> CausalOk(CausalCands(h, m)(k).value)
  {
  }

  /** A pair outside the matrix has no causal pattern. */
  lemma CausalCandAbsent(h: seq<Event>, m: Matrix, k: (string, string))
    requires k !in PairsOf(m, m.Keys)
    ensures CausalCand(h, m, k).None?
  {
  }

  /**
   * The matrix counts every later event in the window, and is never trimmed
   * with the history, so the "probability" can exceed one: after A, B, B, B
   * the pair (A, B) has count 3 against one occurrence of A.
   */
  lemma ProbabilityAboveOne()
    ensures var a := Event("t:A", 0);
            var h := [a, Event("t:B", 1), Event("t:B", 2), Event("t:B", 3)];
            var m := CoOccurred(CoOccurred(CoOccurred(map[], [a, h[1]], "t:B"), [a, h[1], h[2]], "t:B"), h, "t:B");
            CausalCand(h, m, ("t:A", "t:B")).Some?
            && CausalCand(h, m, ("t:A", "t:B")).value.probability == 3.0
  {
    var a := Event("t:A", 0);
    var h := [a, Event("t:B", 1), Event("t:B", 2), Event("t:B", 3)];
    ThreeCoOccurrences(a, h);
    assert CountIn(h, "t:A", 0, 4) == 1;
    var m := CoOccurred(CoOccurred(CoOccurred(map[], [a, h[1]], "t:B"), [a, h[1], h[2]], "t:B"), h, "t:B");
    CausalCandRatio(h, m, ("t:A", "t:B"));
  }

  lemma CausalCandRatio(h: seq<Event>, m: Matrix, k: (string, string))
    requires Get(m, k.0, k.1) == 3 && CountKey(h, k.0) == 1
    ensures CausalCand(h, m, k).Some? && CausalCand(h, m, k).value.probability == 3.0
  {
  }

  /** After A, B, B, B the matrix holds 3 for (A, B), one for each window the A is still in. */
  lemma ThreeCoOccurrences(a: Event, h: seq<Event>)
    requires a == Event("t:A", 0) && h == [a, Event("t:B", 1), Event("t:B", 2), Event("t:B", 3)]
    ensures Get(CoOccurred(CoOccurred(CoOccurred(map[], [a, h[1]], "t:B"), [a, h[1], h[2]], "t:B"), h, "t:B"), "t:A", "t:B") == 3
  {
    var h1 := [a, h[1]];
    var h2 := [a, h[1], h[2]];
    var m1 := CoOccurred(map[], h1, "t:B");
    var m2 := CoOccurred(m1, h2, "t:B");
    CoOccurredCounts(map[], h1, "t:B", "t:A", "t:B");
    assert CountIn(h1, "t:A", 0, 1) == 1;
    CoOccurredCounts(m1, h2, "t:B", "t:A", "t:B");
    assert CountIn(h2, "t:A", 0, 2) == 1;
    CoOccurredCounts(m2, h, "t:B", "t:A", "t:B");
    assert CountIn(h, "t:A", 0, 3) == 1;
  }



  // ------------------------------------------------------------ sequence

  /** The keys of the `len` events starting at `i`. */
  function Window(h: seq<Event>, i: nat, len: nat): seq<string>
    requires i + len <= |h|
  {
    seq(len, j requires 0 <= j < len => h[i + j].key)
  }

  function WindowString(h: seq<Event>, i: nat, len: nat): string
    requires i + len <= |h|
  {
    JoinWith(Window(h, i, len), Arrow)
  }

  /** How often each window string occurs among the windows starting below `n`. */
  function WindowCounts(h: seq<Event>, len: nat, n: nat): map<string, int>
    requires n + len <= |h| + 1
  {
    if n == 0 then map[]
    else
      var m := WindowCounts(h, len, n - 1);
      var w := WindowString(h, n - 1, len);
      m[w := (if w in m then m[w] else 0) + 1]
  }

  /** Every window is counted, and every count is that of some window and at most the number of windows. */
  lemma {:induction false} WindowCountsMeaning(h: seq<Event>, len: nat, n: nat)
    requires n + len <= |h| + 1
    ensures forall i :: 0 <= i < n ==> WindowString(h, i, len) in WindowCounts(h, len, n)
    ensures forall w :: w in WindowCounts(h, len, n) ==>
              1 <= WindowCounts(h, len, n)[w] <= n && exists i :: 0 <= i < n && WindowString(h, i, len) == w
  {
    if n > 0 {
      WindowCountsMeaning(h, len, n - 1);
    }
  }

  function Counts(h: seq<Event>, len: nat): map<string, int>
  {
    if len <= |h| then WindowCounts(h, len, |h| - len + 1) else map[]
  }

  function SequenceName(now: int): string { "Sequence_" + IntToString(now) }

  function SequenceFor(joined: string, count: int, now: int): SequencePattern
  {
    SequencePattern(SplitLiteral(joined, Arrow), count, Confidence(count), SequenceName(now))
  }

  /** The sequences of the window strings of length `len` seen at least twice. */
  function Offers(h: seq<Event>, len: nat): set<seq<string>>
  {
    OffersAmong(Counts(h, len), Counts(h, len).Keys)
  }

  /** The sequences of the window strings in `done` counted at least twice. */
  function OffersAmong(counts: map<string, int>, done: set<string>): set<seq<string>>
  {
    set w | w in done && w in counts && counts[w] >= 2 :: SplitLiteral(w, Arrow)
  }

  lemma OffersAmongStep(counts: map<string, int>, done: set<string>, w: string)
    requires w in counts
    ensures OffersAmong(counts, done + {w})
         == OffersAmong(counts, done) + (if counts[w] >= 2 then {SplitLiteral(w, Arrow)} else {})
  {
  }

  function AllOffers(h: seq<Event>): set<seq<string>>
  {
    Offers(h, 3) + Offers(h, 4) + Offers(h, 5)
  }

  /** `v` is the count of a window string of `done`, seen at least twice, that splits into `s`. */
  ghost predicate CountOfSplit(counts: map<string, int>, done: set<string>, s: seq<string>, v: int)
  {
    exists w :: w in done && w in counts && counts[w] >= 2 && SplitLiteral(w, Arrow) == s && v == counts[w]
  }

  /**
   * `m` gives every sequence offered by the window strings `done` the count
   * of one window string that splits into it.  Which one, when several
   * split alike, depends on the order the hash map is walked.
   */
  ghost predicate CountsOffered(counts: map<string, int>, done: set<string>, m: map<seq<string>, int>)
  {
    m.Keys == OffersAmong(counts, done) && forall s :: s in m ==> CountOfSplit(counts, done, s, m[s])
  }

  /** `v` is the count of a window of length 3 to 5, seen at least twice, that splits into `s`. */
  ghost predicate WindowCount(h: seq<Event>, s: seq<string>, v: int)
  {
    exists len :: 3 <= len <= 5 && CountOfSplit(Counts(h, len), Counts(h, len).Keys, s, v)
  }

  /**
   * The counts an analysis hands to the sequence patterns: `last` holds
   * the count each offered sequence received last and `first` the count it
   * received first; each is the count of a window that splits into it.
   */
  ghost predicate OfferMaps(h: seq<Event>, last: map<seq<string>, int>, first: map<seq<string>, int>)
  {
    && last.Keys == AllOffers(h) && first.Keys == AllOffers(h)
    && (forall s :: s in last ==> WindowCount(h, s, last[s]))
    && (forall s :: s in first ==> WindowCount(h, s, first[s]))
  }

  /** Every count a length offers is at least two. */
  lemma CountsOfferedAtLeastTwo(counts: map<string, int>, done: set<string>, m: map<seq<string>, int>)
    requires CountsOffered(counts, done, m)
    ensures forall s :: s in m ==> m[s] >= 2
  {
    forall s | s in m ensures m[s] >= 2 {
      var w :| w in done && w in counts && counts[w] >= 2 && SplitLiteral(w, Arrow) == s && m[s] == counts[w];
    }
  }

  /** The sequences one length offers. */
  lemma OfferedKeys(h: seq<Event>, len: int, m: map<seq<string>, int>)
    requires 3 <= len <= 5 && CountsOffered(Counts(h, len), Counts(h, len).Keys, m)
    ensures m.Keys == Offers(h, len)
  {
  }

  /** A count one length offers for `s` is a window count of `s`. */
  lemma OfferedFromLength(h: seq<Event>, len: int, m: map<seq<string>, int>, s: seq<string>, v: int)
    requires 3 <= len <= 5 && CountsOffered(Counts(h, len), Counts(h, len).Keys, m) && s in m && v == m[s]
    ensures WindowCount(h, s, v)
  {
    assert CountOfSplit(Counts(h, len), Counts(h, len).Keys, s, v);
  }

  /** The sequences the lengths from 3 up to `n` exclusive offer. */
  function OffersBelow(h: seq<Event>, n: int): set<seq<string>>
    decreases n
  {
    if n <= 3 then {} else OffersBelow(h, n - 1) + Offers(h, n - 1)
  }

  /**
   * The counts handed out by the lengths from 3 up to `n` exclusive: both
   * maps key the sequences offered, and every count is a window count of
   * at least two.
   */
  ghost predicate OffersSoFar(h: seq<Event>, n: int, last: map<seq<string>, int>, first: map<seq<string>, int>)
  {
    && last.Keys == OffersBelow(h, n) && first.Keys == OffersBelow(h, n)
    && (forall s :: s in last ==> WindowCount(h, s, last[s]) && last[s] >= 2)
    && (forall s :: s in first ==> WindowCount(h, s, first[s]) && first[s] >= 2)
  }

  /** One more length's counts override `last` and are overridden by `first`. */
  lemma OffersExtend(h: seq<Event>, len: int, last: map<seq<string>, int>, first: map<seq<string>, int>,
                     m: map<seq<string>, int>, mf: map<seq<string>, int>)
    requires 3 <= len <= 5 && OffersSoFar(h, len, last, first)
    requires CountsOffered(Counts(h, len), Counts(h, len).Keys, m)
    requires CountsOffered(Counts(h, len), Counts(h, len).Keys, mf)
    ensures OffersSoFar(h, len + 1, last + m, mf + first)
  {
    OfferedKeys(h, len, m);
    OfferedKeys(h, len, mf);
    WindowCountsUnion(h, len, last, m);
    WindowCountsUnion(h, len, mf, first);
    UnionKeys(last, m, OffersBelow(h, len), Offers(h, len));
    UnionKeys(mf, first, Offers(h, len), OffersBelow(h, len));
    assert OffersBelow(h, len + 1) == OffersBelow(h, len) + Offers(h, len);
  }

  lemma UnionKeys<K, V>(a: map<K, V>, b: map<K, V>, ka: set<K>, kb: set<K>)
    requires a.Keys == ka && b.Keys == kb
    ensures (a + b).Keys == ka + kb && (a + b).Keys == kb + ka
  {
  }

  /**
   * A union of window counts of at least two, one side from length `len`,
   * holds window counts of at least two.
   */
  lemma WindowCountsUnion(h: seq<Event>, len: int, a: map<seq<string>, int>, b: map<seq<string>, int>)
    requires 3 <= len <= 5
    requires (forall s :: s in a ==> WindowCount(h, s, a[s]) && a[s] >= 2) ||
             CountsOffered(Counts(h, len), Counts(h, len).Keys, a)
    requires (forall s :: s in b ==> WindowCount(h, s, b[s]) && b[s] >= 2) ||
             CountsOffered(Counts(h, len), Counts(h, len).Keys, b)
    ensures forall s :: s in a + b ==> WindowCount(h, s, (a + b)[s]) && (a + b)[s] >= 2
  {
    forall s | s in a + b ensures WindowCount(h, s, (a + b)[s]) && (a + b)[s] >= 2 {
      if s in b {
        WindowCountOf(h, len, b, s);
      } else {
        WindowCountOf(h, len, a, s);
      }
    }
  }

  lemma WindowCountOf(h: seq<Event>, len: int, a: map<seq<string>, int>, s: seq<string>)
    requires 3 <= len <= 5 && s in a
    requires (forall s :: s in a ==> WindowCount(h, s, a[s]) && a[s] >= 2) ||
             CountsOffered(Counts(h, len), Counts(h, len).Keys, a)
    ensures WindowCount(h, s, a[s]) && a[s] >= 2
  {
    if !(forall s :: s in a ==> WindowCount(h, s, a[s]) && a[s] >= 2) {
      CountsOfferedAtLeastTwo(Counts(h, len), Counts(h, len).Keys, a);
      OfferedFromLength(h, len, a, s, a[s]);
    }
  }

  /**
   * When a window string seen at least twice is the only one of length 3
   * to 5 that splits into its sequence, that sequence's count, first and
   * last, is the number of times that window was seen.
   */
  lemma OfferedCountExact(h: seq<Event>, last: map<seq<string>, int>, first: map<seq<string>, int>, len: int, w: string)
    requires OfferMaps(h, last, first)
    requires 3 <= len <= 5 && w in Counts(h, len) && Counts(h, len)[w] >= 2
    requires forall n, v :: 3 <= n <= 5 && v in Counts(h, n) && SplitLiteral(v, Arrow) == SplitLiteral(w, Arrow) ==>
               n == len && v == w
    ensures SplitLiteral(w, Arrow) in last && last[SplitLiteral(w, Arrow)] == Counts(h, len)[w]
    ensures SplitLiteral(w, Arrow) in first && first[SplitLiteral(w, Arrow)] == Counts(h, len)[w]
  {
    var s := SplitLiteral(w, Arrow);
    assert s in Offers(h, len);
    var n :| 3 <= n <= 5 && CountOfSplit(Counts(h, n), Counts(h, n).Keys, s, last[s]);
    var v :| v in Counts(h, n) && Counts(h, n)[v] >= 2 && SplitLiteral(v, Arrow) == s && last[s] == Counts(h, n)[v];
    var n' :| 3 <= n' <= 5 && CountOfSplit(Counts(h, n'), Counts(h, n').Keys, s, first[s]);
    var v' :| v' in Counts(h, n') && Counts(h, n')[v'] >= 2 && SplitLiteral(v', Arrow) == s && first[s] == Counts(h, n')[v'];
  }

  /** The confidence a sequence pattern seen `count` times is created with. */
  function Confidence(count: int): real
  {
    Min(1.0, count as real * 0.2)
  }

  /** "Add if new": an existing equal sequence only takes the new count; a new one is added below the cap. */
  function Offered(xs: seq<SequencePattern>, p: SequencePattern): seq<SequencePattern>
  {
    var i := IndexBy(xs, SeqOf, p.sequence);
    if 0 <= i then xs[i := xs[i].(occurrences := p.occurrences)]
    else if |xs| < MaxSequencePatterns then xs + [p]
    else xs
  }

  /** `first` after offering `s` with count `c`: a first count is never replaced. */
  function FirstWith(first: map<seq<string>, int>, s: seq<string>, c: int): map<seq<string>, int>
  {
    if s in first then first else first[s := c]
  }

  /**
   * `cur` is `xs` after the sequences in `last` were offered, in any order:
   * old patterns keep everything but their count, which changes only when
   * their sequence was offered; every pattern whose sequence was offered
   * holds the count offered last; new patterns have new sequences, the
   * confidence of the count they were first offered with and the name of
   * the time of the analysis; every offered sequence is present unless the
   * list is full.
   */
  ghost predicate Evolved(xs: seq<SequencePattern>, cur: seq<SequencePattern>,
                          last: map<seq<string>, int>, first: map<seq<string>, int>, now: int)
  {
    |xs| <= |cur| <= IMax(|xs|, MaxSequencePatterns)
    && DistinctBy(cur, SeqOf)
    && last.Keys == first.Keys
    && OldKept(xs, cur, last)
    && CountsHeld(cur, last)
    && NewEntries(xs, cur, first, now)
    && OffersPresent(cur, last)
  }

  /** The old patterns stay in place and change only their count, and only when offered. */
  ghost predicate OldKept(xs: seq<SequencePattern>, cur: seq<SequencePattern>, last: map<seq<string>, int>)
    requires |xs| <= |cur|
  {
    (forall i :: 0 <= i < |xs| ==> cur[i] == xs[i].(occurrences := cur[i].occurrences))
    && (forall i :: 0 <= i < |xs| && xs[i].sequence !in last ==> cur[i] == xs[i])
  }

  /** Every pattern whose sequence was offered holds the count offered last. */
  ghost predicate CountsHeld(cur: seq<SequencePattern>, last: map<seq<string>, int>)
  {
    forall i :: 0 <= i < |cur| && cur[i].sequence in last ==> cur[i].occurrences == last[cur[i].sequence]
  }

  /** The appended patterns have new sequences, their first count's confidence and the analysis time's name. */
  ghost predicate NewEntries(xs: seq<SequencePattern>, cur: seq<SequencePattern>, first: map<seq<string>, int>, now: int)
  {
    forall i :: |xs| <= i < |cur| ==>
      cur[i].sequence in first && cur[i].confidence == Confidence(first[cur[i].sequence])
      && cur[i].name == SequenceName(now)
      && forall j :: 0 <= j < |xs| ==> xs[j].sequence != cur[i].sequence
  }

  /** Every offered sequence is present unless the list is full. */
  ghost predicate OffersPresent(cur: seq<SequencePattern>, last: map<seq<string>, int>)
  {
    forall s :: s in last ==> |cur| >= MaxSequencePatterns || exists i :: 0 <= i < |cur| && cur[i].sequence == s
  }

  /** What `findSequencePatterns` does to the list `xs`, for the counts some walk of the hash maps hands it. */
  ghost predicate SequencesEvolved(xs: seq<SequencePattern>, cur: seq<SequencePattern>, h: seq<Event>, now: int)
  {
    exists last, first :: OfferMaps(h, last, first) && Evolved(xs, cur, last, first, now)
  }

  /** The counts of all three lengths are what `SequencesEvolved` asks for. */
  lemma SequencesEvolvedFrom(xs: seq<SequencePattern>, cur: seq<SequencePattern>, h: seq<Event>,
                             last: map<seq<string>, int>, first: map<seq<string>, int>, now: int)
    requires OffersSoFar(h, 6, last, first)
    requires Evolved(xs, cur, last, first, now)
    requires |xs| <= MaxSequencePatterns && AllOk(xs, SequenceOk)
    ensures SequencesEvolved(xs, cur, h, now)
    ensures |cur| <= MaxSequencePatterns && AllOk(cur, SequenceOk)
  {
    assert OffersBelow(h, 6) == AllOffers(h) by {
      assert OffersBelow(h, 4) == {} + Offers(h, 3);
    }
    EvolvedKeeps(xs, cur, last, first, now);
    assert OfferMaps(h, last, first);
  }

  lemma EvolvedStart(xs: seq<SequencePattern>, now: int)
    requires DistinctBy(xs, SeqOf)
    ensures Evolved(xs, xs, map[], map[], now)
  {
  }

  /** Offering one more sequence keeps the relation. */
  lemma EvolvedStep(xs: seq<SequencePattern>, cur: seq<SequencePattern>, last: map<seq<string>, int>,
                    first: map<seq<string>, int>, now: int, p: SequencePattern)
    requires Evolved(xs, cur, last, first, now)
    requires p.confidence == Confidence(p.occurrences) && p.name == SequenceName(now)
    ensures Evolved(xs, Offered(cur, p), last[p.sequence := p.occurrences], FirstWith(first, p.sequence, p.occurrences), now)
  {
    var i := IndexBy(cur, SeqOf, p.sequence);
    if 0 <= i {
      EvolvedFound(xs, cur, last, first, now, p, i);
    } else if |cur| < MaxSequencePatterns {
      EvolvedAppended(xs, cur, last, first, now, p);
    } else {
      EvolvedFull(xs, cur, last, first, now, p);
    }
  }

  lemma EvolvedFound(xs: seq<SequencePattern>, cur: seq<SequencePattern>, last: map<seq<string>, int>,
                     first: map<seq<string>, int>, now: int, p: SequencePattern, i: nat)
    requires Evolved(xs, cur, last, first, now)
    requires i < |cur| && cur[i].sequence == p.sequence
    ensures Evolved(xs, cur[i := cur[i].(occurrences := p.occurrences)], last[p.sequence := p.occurrences],
                    FirstWith(first, p.sequence, p.occurrences), now)
  {
    var l := last[p.sequence := p.occurrences];
    var f := FirstWith(first, p.sequence, p.occurrences);
    var r := cur[i := cur[i].(occurrences := p.occurrences)];
    assert forall j :: 0 <= j < |r| ==> r[j].sequence == cur[j].sequence;
    assert forall t :: t in first ==> t in f && f[t] == first[t];
    forall s | s in l ensures |r| >= MaxSequencePatterns || exists j :: 0 <= j < |r| && r[j].sequence == s {
      if s == p.sequence {
        assert r[i].sequence == s;
      } else if |r| < MaxSequencePatterns {
        var j :| 0 <= j < |cur| && cur[j].sequence == s;
        assert r[j].sequence == s;
      }
    }
    forall j | 0 <= j < |r| && r[j].sequence in l ensures r[j].occurrences == l[r[j].sequence] {
      if j != i {
        assert cur[j].sequence != p.sequence;
      }
    }
  }

  lemma EvolvedAppended(xs: seq<SequencePattern>, cur: seq<SequencePattern>, last: map<seq<string>, int>,
                        first: map<seq<string>, int>, now: int, p: SequencePattern)
    requires Evolved(xs, cur, last, first, now)
    requires p.confidence == Confidence(p.occurrences) && p.name == SequenceName(now)
    requires |cur| < MaxSequencePatterns && forall j :: 0 <= j < |cur| ==> cur[j].sequence != p.sequence
    ensures Evolved(xs, cur + [p], last[p.sequence := p.occurrences], FirstWith(first, p.sequence, p.occurrences), now)
  {
    assert p.sequence !in last;
    assert FirstWith(first, p.sequence, p.occurrences) == first[p.sequence := p.occurrences];
    PrefixSequences(xs, cur, p.sequence);
    AppendedPrefix(xs, cur, last, p);
    AppendedPresent(cur, last, p);
    AppendedCounts(cur, last, p);
    AppendedEntries(xs, cur, first, now, p);
  }

  /** A sequence missing from `cur` is missing from the old patterns it starts with. */
  lemma PrefixSequences(xs: seq<SequencePattern>, cur: seq<SequencePattern>, s: seq<string>)
    requires |xs| <= |cur|
    requires forall i :: 0 <= i < |xs| ==> cur[i].sequence == xs[i].sequence
    requires forall j :: 0 <= j < |cur| ==> cur[j].sequence != s
    ensures forall j :: 0 <= j < |xs| ==> xs[j].sequence != s
  {
    forall j | 0 <= j < |xs| ensures xs[j].sequence != s {
      assert cur[j].sequence == xs[j].sequence;
    }
  }

  /** Appending `p` with a new sequence keeps the list distinct and its old patterns where they were. */
  lemma AppendedPrefix(xs: seq<SequencePattern>, cur: seq<SequencePattern>, last: map<seq<string>, int>,
                       p: SequencePattern)
    requires |xs| <= |cur| && DistinctBy(cur, SeqOf) && OldKept(xs, cur, last)
    requires forall j :: 0 <= j < |cur| ==> cur[j].sequence != p.sequence
    ensures DistinctBy(cur + [p], SeqOf) && OldKept(xs, cur + [p], last[p.sequence := p.occurrences])
  {
    var r := cur + [p];
    assert forall j :: 0 <= j < |cur| ==> r[j] == cur[j];
    assert forall j :: 0 <= j < |cur| ==> SeqOf(r[j]) != SeqOf(r[|cur|]);
  }

  /** Appending `p` keeps every offered sequence present, `p`'s own included. */
  lemma AppendedPresent(cur: seq<SequencePattern>, last: map<seq<string>, int>, p: SequencePattern)
    requires |cur| < MaxSequencePatterns && OffersPresent(cur, last)
    ensures OffersPresent(cur + [p], last[p.sequence := p.occurrences])
  {
    var r, l := cur + [p], last[p.sequence := p.occurrences];
    forall s | s in l ensures exists j :: 0 <= j < |r| && r[j].sequence == s {
      if s == p.sequence {
        assert r[|cur|].sequence == s;
      } else {
        var j :| 0 <= j < |cur| && cur[j].sequence == s;
        assert r[j].sequence == s;
      }
    }
  }

  /** Appending `p` with a new sequence keeps every held count the one offered last. */
  lemma AppendedCounts(cur: seq<SequencePattern>, last: map<seq<string>, int>, p: SequencePattern)
    requires CountsHeld(cur, last)
    requires forall j :: 0 <= j < |cur| ==> cur[j].sequence != p.sequence
    ensures CountsHeld(cur + [p], last[p.sequence := p.occurrences])
  {
    var r, l := cur + [p], last[p.sequence := p.occurrences];
    forall i | 0 <= i < |r| && r[i].sequence in l ensures r[i].occurrences == l[r[i].sequence] {
      if i < |cur| {
        assert r[i] == cur[i];
      }
    }
  }

  /** Appending `p` with a new sequence keeps the new entries' first counts, confidences and names. */
  lemma AppendedEntries(xs: seq<SequencePattern>, cur: seq<SequencePattern>, first: map<seq<string>, int>,
                        now: int, p: SequencePattern)
    requires |xs| <= |cur| && NewEntries(xs, cur, first, now)
    requires p.confidence == Confidence(p.occurrences) && p.name == SequenceName(now)
    requires p.sequence !in first
    requires forall j :: 0 <= j < |xs| ==> xs[j].sequence != p.sequence
    ensures NewEntries(xs, cur + [p], first[p.sequence := p.occurrences], now)
  {
    var r, f := cur + [p], first[p.sequence := p.occurrences];
    forall i | |xs| <= i < |r|
      ensures r[i].sequence in f && r[i].confidence == Confidence(f[r[i].sequence])
      ensures r[i].name == SequenceName(now)
      ensures forall j :: 0 <= j < |xs| ==> xs[j].sequence != r[i].sequence
    {
      if i < |cur| {
        assert r[i] == cur[i];
        assert r[i].sequence != p.sequence;
      }
    }
  }

  lemma EvolvedFull(xs: seq<SequencePattern>, cur: seq<SequencePattern>, last: map<seq<string>, int>,
                    first: map<seq<string>, int>, now: int, p: SequencePattern)
    requires Evolved(xs, cur, last, first, now)
    requires |cur| >= MaxSequencePatterns && forall j :: 0 <= j < |cur| ==> cur[j].sequence != p.sequence
    ensures Evolved(xs, cur, last[p.sequence := p.occurrences], FirstWith(first, p.sequence, p.occurrences), now)
  {
    var f := FirstWith(first, p.sequence, p.occurrences);
    assert forall t :: t in first ==> t in f && f[t] == first[t];
  }

  /** One window string offered to the list, if it was counted at least twice. */
  function OfferedIf(xs: seq<SequencePattern>, counts: map<string, int>, w: string, now: int): seq<SequencePattern>
    requires w in counts
  {
    if counts[w] >= 2 then Offered(xs, SequenceFor(w, counts[w], now)) else xs
  }

  /** The window strings of `order`, offered one after another. */
  function OfferedAll(xs: seq<SequencePattern>, counts: map<string, int>, order: seq<string>, now: int): seq<SequencePattern>
    requires forall w :: w in order ==> w in counts
  {
    if order == [] then xs
    else OfferedIf(OfferedAll(xs, counts, order[..|order| - 1], now), counts, order[|order| - 1], now)
  }

  /** The count each sequence received last when `order` was offered. */
  function LastCounts(counts: map<string, int>, order: seq<string>): map<seq<string>, int>
    requires forall w :: w in order ==> w in counts
  {
    if order == [] then map[]
    else
      var m := LastCounts(counts, order[..|order| - 1]);
      var w := order[|order| - 1];
      if counts[w] >= 2 then m[SplitLiteral(w, Arrow) := counts[w]] else m
  }

  /** The count each sequence received first when `order` was offered. */
  function FirstCounts(counts: map<string, int>, order: seq<string>): map<seq<string>, int>
    requires forall w :: w in order ==> w in counts
  {
    if order == [] then map[]
    else
      var m := FirstCounts(counts, order[..|order| - 1]);
      var w := order[|order| - 1];
      if counts[w] >= 2 then FirstWith(m, SplitLiteral(w, Arrow), counts[w]) else m
  }

  /**
   * Offering the window strings `order`, which are exactly `done`, hands
   * out counts of those windows and keeps the relation.
   */
  lemma {:induction false} OfferedAllEvolved(start: seq<SequencePattern>, xs: seq<SequencePattern>,
                                             last: map<seq<string>, int>, first: map<seq<string>, int>,
                                             counts: map<string, int>, order: seq<string>, done: set<string>, now: int)
    requires forall w :: w in order ==> w in counts
    requires forall w :: w in done <==> w in order
    requires Evolved(start, xs, last, first, now)
    ensures CountsOffered(counts, done, LastCounts(counts, order))
    ensures CountsOffered(counts, done, FirstCounts(counts, order))
    ensures Evolved(start, OfferedAll(xs, counts, order, now), last + LastCounts(counts, order),
                    FirstCounts(counts, order) + first, now)
    decreases |order|
  {
    if order == [] {
      UnionEmpty(last);
      UnionEmpty(first);
    } else {
      var front := order[..|order| - 1];
      var w := order[|order| - 1];
      var before := set v | v in front;
      assert forall v :: v in done <==> v in before || v == w;
      OfferedAllEvolved(start, xs, last, first, counts, front, before, now);
      OfferStep(start, OfferedAll(xs, counts, front, now), last, first, counts, before, done,
                LastCounts(counts, front), FirstCounts(counts, front), w, now);
    }
  }

  /** Offering one more window string keeps the counts and the relation. */
  lemma OfferStep(start: seq<SequencePattern>, list: seq<SequencePattern>,
                  last: map<seq<string>, int>, first: map<seq<string>, int>,
                  counts: map<string, int>, done: set<string>, done': set<string>,
                  m: map<seq<string>, int>, mf: map<seq<string>, int>, w: string, now: int)
    requires w in counts && done' == done + {w}
    requires CountsOffered(counts, done, m) && CountsOffered(counts, done, mf)
    requires Evolved(start, list, last + m, mf + first, now)
    ensures var q := SplitLiteral(w, Arrow);
            var m' := if counts[w] >= 2 then m[q := counts[w]] else m;
            var mf' := if counts[w] >= 2 then FirstWith(mf, q, counts[w]) else mf;
            CountsOffered(counts, done', m') && CountsOffered(counts, done', mf')
            && Evolved(start, OfferedIf(list, counts, w, now), last + m', mf' + first, now)
  {
    OffersAmongStep(counts, done, w);
    if counts[w] >= 2 {
      var q, c := SplitLiteral(w, Arrow), counts[w];
      CountsOfferedStep(counts, done, m, w);
      CountsOfferedFirst(counts, done, mf, w);
      UnionUpdate(last, m, q, c);
      FirstWithUnion(mf, first, q, c);
      EvolvedStep(start, list, last + m, mf + first, now, SequenceFor(w, c, now));
    }
  }

  lemma UnionEmpty<K, V>(a: map<K, V>)
    ensures a + map[] == a && map[] + a == a
  {
  }

  lemma UnionUpdate<K, V>(a: map<K, V>, b: map<K, V>, k: K, v: V)
    ensures (a + b)[k := v] == a + b[k := v]
  {
  }

  lemma FirstWithUnion(mf: map<seq<string>, int>, first: map<seq<string>, int>, k: seq<string>, v: int)
    ensures FirstWith(mf + first, k, v) == FirstWith(mf, k, v) + first
  {
  }

  /** One window string seen at least twice adds its sequence with its count. */
  lemma CountsOfferedStep(counts: map<string, int>, done: set<string>, m: map<seq<string>, int>, w: string)
    requires w in counts && counts[w] >= 2 && CountsOffered(counts, done, m)
    ensures CountsOffered(counts, done + {w}, m[SplitLiteral(w, Arrow) := counts[w]])
  {
    OffersAmongStep(counts, done, w);
    var m' := m[SplitLiteral(w, Arrow) := counts[w]];
    forall s | s in m' ensures CountOfSplit(counts, done + {w}, s, m'[s]) {
      if s != SplitLiteral(w, Arrow) {
        var v :| v in done && v in counts && counts[v] >= 2 && SplitLiteral(v, Arrow) == s && m[s] == counts[v];
        assert v in done + {w};
      }
    }
  }

  /** One window string seen at least twice adds its sequence with its count unless it is already there. */
  lemma CountsOfferedFirst(counts: map<string, int>, done: set<string>, m: map<seq<string>, int>, w: string)
    requires w in counts && counts[w] >= 2 && CountsOffered(counts, done, m)
    ensures CountsOffered(counts, done + {w}, FirstWith(m, SplitLiteral(w, Arrow), counts[w]))
  {
    OffersAmongStep(counts, done, w);
    var m' := FirstWith(m, SplitLiteral(w, Arrow), counts[w]);
    forall s | s in m' ensures CountOfSplit(counts, done + {w}, s, m'[s]) {
      if s in m {
        var v :| v in done && v in counts && counts[v] >= 2 && SplitLiteral(v, Arrow) == s && m[s] == counts[v];
        assert v in done + {w};
      }
    }
  }

  /** The patterns that a valid list evolves into are valid. */
  lemma EvolvedKeeps(xs: seq<SequencePattern>, cur: seq<SequencePattern>, last: map<seq<string>, int>,
                     first: map<seq<string>, int>, now: int)
    requires Evolved(xs, cur, last, first, now)
    requires forall s :: s in last ==> last[s] >= 2
    requires forall s :: s in first ==> first[s] >= 2
    requires |xs| <= MaxSequencePatterns && AllOk(xs, SequenceOk)
    ensures |cur| <= MaxSequencePatterns && AllOk(cur, SequenceOk)
  {
    forall i | 0 <= i < |cur| ensures SequenceOk(cur[i]) {
      if i < |xs| {
        if xs[i].sequence !in last {
          assert cur[i] == xs[i];
        }
      } else {
        var c := first[cur[i].sequence];
        assert 0.4 <= Confidence(c) <= 1.0;
      }
    }
  }

  // ---------------------------------------------------------- prediction

  /** `predictNext` looks at the causal patterns whose cause is the event, or ends with ":" and it. */
  predicate Predicts(c: CausalPattern, current: string)
  {
    c.cause == current || EndsWith(c.cause, ":" + current)
  }

  function PredictionOf(c: CausalPattern): Prediction
  {
    Prediction(c.effect, c.probability, "Usually follows " + c.cause)
  }

  /** The predictions of the matching causal patterns, in list order. */
  function Matching(cs: seq<CausalPattern>, current: string): (r: seq<Prediction>)
    ensures |r| <= |cs|
    ensures forall i :: 0 <= i < |cs| && Predicts(cs[i], current) ==> PredictionOf(cs[i]) in r
    ensures forall p :: p in r ==> exists i :: 0 <= i < |cs| && Predicts(cs[i], current) && p == PredictionOf(cs[i])
  {
    if cs == [] then []
    else
      var r := Matching(cs[..|cs| - 1], current) + (if Predicts(cs[|cs| - 1], current) then [PredictionOf(cs[|cs| - 1])] else []);
      assert forall i :: 0 <= i < |cs| - 1 ==> cs[i] == cs[..|cs| - 1][i];
      r
  }

  /** The sort by descending confidence that `predictNext` applies. */
  method SortByConfidence(found: seq<Prediction>) returns (predictions: seq<Prediction>)
    ensures DescendingBy(predictions, ConfidenceOf)
    ensures multiset(predictions) == multiset(found)
  {
    predictions := [];
    for i := 0 to |found|
      invariant DescendingBy(predictions, ConfidenceOf)
      invariant multiset(predictions) == multiset(found[..i])
    {
      InsertKeepsDescending(predictions, found[i], ConfidenceOf);
      predictions := InsertDescending(predictions, found[i], ConfidenceOf);
      assert found[..i + 1] == found[..i] + [found[i]];
    }
    assert found[..|found|] == found;
  }

  function ConfidenceOf(p: Prediction): real { p.confidence }

  // ---------------------------------------------------------------- class

  class AIChildPatternRecognizer {
    var history: seq<Event>
    var temporal: seq<TemporalPattern>
    var causal: seq<CausalPattern>
    var sequences: seq<SequencePattern>
    var matrix: Matrix

    predicate Valid()
      reads this
    {
      |history| <= MaxHistory && MatrixInv(matrix)
      && DistinctBy(temporal, TypeOf) && AllOk(temporal, TemporalOk)
      && DistinctBy(causal, CauseEffect) && AllOk(causal, CausalOk)
      && |sequences| <= MaxSequencePatterns && DistinctBy(sequences, SeqOf) && AllOk(sequences, SequenceOk)
    }

    constructor()
      ensures Valid()
      ensures history == [] && temporal == [] && causal == [] && sequences == [] && matrix == map[]
    {
      history := [];
      temporal := [];
      causal := [];
      sequences := [];
      matrix := map[];
    }

    /**
     * Appends the event, drops the oldest beyond the limit, counts the event
     * as following the ones just before it and, once the history holds ten
     * events, looks for patterns.
     */
    method RecordEvent(kind: string, data: string, now: int)
      requires Valid()
      modifies this
      ensures Valid()
      ensures history == Keep(old(history) + [Event(Key(kind, data), now)], MaxHistory)
      ensures matrix == CoOccurred(old(matrix), history, Key(kind, data))
      ensures |history| < MinAnalysed ==>
                temporal == old(temporal) && causal == old(causal) && sequences == old(sequences)
      ensures |history| >= MinAnalysed ==>
                MergedBy(old(temporal), temporal, TypeOf, TemporalCands(history), KeysOf(history))
                && MergedBy(old(causal), causal, CauseEffect, CausalCands(history, matrix), PairsOf(matrix, matrix.Keys))
                && SequencesEvolved(old(sequences), sequences, history, now)
    {
      var full := history + [Event(Key(kind, data), now)];
      var h := full;
      while |h| > MaxHistory
        invariant |h| >= 1 && h == full[|full| - |h|..]
        invariant |h| >= IMin(|full|, MaxHistory)
        decreases |h|
      {
        h := h[1..];
      }
      assert h == Keep(full, MaxHistory);
      history := h;
      UpdateCoOccurrences(kind, data);
      AnalyzePatterns(now);
    }

    method UpdateCoOccurrences(kind: string, data: string)
      requires Valid() && |history| >= 1
      modifies this
      ensures Valid()
      ensures matrix == CoOccurred(old(matrix), history, Key(kind, data))
      ensures history == old(history) && temporal == old(temporal) && causal == old(causal)
      ensures sequences == old(sequences)
    {
      var key := Key(kind, data);
      var m := matrix;
      var i := IMax(0, |history| - CoOccurrenceSpan);
      while i < |history| - 1
        invariant WindowStart(history) <= i <= |history| - 1
        invariant m == CoOccurFrom(matrix, history, key, WindowStart(history), i)
      {
        var prev := history[i];
        m := Bump(m, prev.key, key);
        i := i + 1;
      }
      CoOccurredCounts(matrix, history, key, "", "");
      matrix := m;
    }

    method AnalyzePatterns(now: int)
      requires Valid()
      modifies this
      ensures Valid()
      ensures history == old(history) && matrix == old(matrix)
      ensures |history| < MinAnalysed ==>
                temporal == old(temporal) && causal == old(causal) && sequences == old(sequences)
      ensures |history| >= MinAnalysed ==>
                MergedBy(old(temporal), temporal, TypeOf, TemporalCands(history), KeysOf(history))
                && MergedBy(old(causal), causal, CauseEffect, CausalCands(history, matrix), PairsOf(matrix, matrix.Keys))
                && SequencesEvolved(old(sequences), sequences, history, now)
    {
      if |history| < MinAnalysed {
        return;
      }
      FindTemporalPatterns();
      FindCausalPatterns();
      FindSequencePatterns(now);
    }

    /** Groups the timestamps of the history by event key. */
    method EventTimes() returns (times: map<string, seq<int>>)
      ensures times.Keys == KeysOf(history)
      ensures forall k :: k in times ==> times[k] == TimesOf(history, k)
    {
      var h := history;
      times := map[];
      for i := 0 to |h|
        invariant times.Keys == KeysUpTo(h, i)
        invariant forall k :: k in times ==> times[k] == TimesUpTo(h, k, i)
      {
        var e := h[i];
        var sofar := if e.key in times then times[e.key] else [];
        GroupStep(h, times, i);
        times := times[e.key := sofar + [e.timestamp]];
      }
    }

    /** The intervals, their truncated average and their variance, as the source computes them. */
    method ComputeTemporal(k: string, times: seq<int>) returns (r: Option<TemporalPattern>)
      ensures r == TemporalOf(k, times)
    {
      if |times| < MinTemporalOccurrences {
        return None;
      }
      var intervals := IntervalsOf(times);
      var sum := SumOf(intervals);
      var avg := JDiv(sum, |intervals|);
      var variance := DeviationOf(intervals, avg);
      variance := variance / (|intervals| as real);
      if Regular(avg, variance) && avg > MinTemporalInterval {
        r := Some(TemporalPattern(k, avg, variance, times, DescribeInterval(avg)));
      } else {
        r := None;
      }
    }

    method IntervalsOf(times: seq<int>) returns (intervals: seq<int>)
      requires |times| >= 1
      ensures intervals == Intervals(times)
    {
      intervals := [];
      for i := 1 to |times|
        invariant |intervals| == i - 1
        invariant forall j :: 0 <= j < i - 1 ==> intervals[j] == times[j + 1] - times[j]
      {
        intervals := intervals + [times[i] - times[i - 1]];
      }
    }

    method SumOf(xs: seq<int>) returns (sum: int)
      ensures sum == SumInts(xs)
    {
      sum := 0;
      for i := 0 to |xs|
        invariant sum == SumInts(xs[..i])
      {
        assert xs[..i + 1][..i] == xs[..i];
        sum := sum + xs[i];
      }
      assert xs[..|xs|] == xs;
    }

    /** `Math.pow(interval - avg, 2)` summed over the intervals. */
    method DeviationOf(xs: seq<int>, avg: int) returns (total: real)
      ensures total == SquaredDeviation(xs, avg)
    {
      total := 0.0;
      for i := 0 to |xs|
        invariant total == SquaredDeviation(xs[..i], avg)
      {
        assert xs[..i + 1][..i] == xs[..i];
        var d := (xs[i] - avg) as real;
        total := total + d * d;
      }
      assert xs[..|xs|] == xs;
    }

    /** The add-or-update loop over the temporal patterns. */
    method UpsertTemporal(list: seq<TemporalPattern>, pattern: TemporalPattern) returns (r: seq<TemporalPattern>)
      ensures r == UpsertBy(list, TypeOf, pattern)
    {
      var found := false;
      r := list;
      var i := 0;
      while i < |r|
        invariant 0 <= i <= |r| && r == list
        invariant forall j :: 0 <= j < i ==> TypeOf(list[j]) != pattern.eventType
      {
        if r[i].eventType == pattern.eventType {
          assert IndexBy(list, TypeOf, pattern.eventType) == i;
          r := r[i := pattern];
          found := true;
          break;
        }
        i := i + 1;
      }
      if !found {
        assert IndexBy(list, TypeOf, pattern.eventType) == -1;
        r := r + [pattern];
      }
    }

    method FindTemporalPatterns()
      requires Valid()
      modifies this
      ensures Valid()
      ensures history == old(history) && matrix == old(matrix)
      ensures causal == old(causal) && sequences == old(sequences)
      ensures MergedBy(old(temporal), temporal, TypeOf, TemporalCands(history), KeysOf(history))
    {
      var list := MergeTemporal();
      TemporalCandsWellKeyed(history);
      MergedKeeps(temporal, list, TypeOf, TemporalCands(history), KeysOf(history), TemporalOk);
      temporal := list;
    }

    /** The loop of `findTemporalPatterns`: one candidate per event key, merged into the list. */
    method MergeTemporal() returns (list: seq<TemporalPattern>)
      requires DistinctBy(temporal, TypeOf)
      ensures MergedBy(temporal, list, TypeOf, TemporalCands(history), KeysOf(history))
    {
      var eventTimes := EventTimes();
      ghost var start := temporal;
      ghost var cands := TemporalCands(history);
      TemporalCandsWellKeyed(history);
      list := temporal;
      var pending := eventTimes.Keys;
      ghost var done: set<string> := {};
      MergedStart(start, TypeOf, cands);
      while pending != {}
        invariant pending <= eventTimes.Keys && done == eventTimes.Keys - pending
        invariant MergedBy(start, list, TypeOf, cands, done)
        decreases |pending|
      {
        var k :| k in pending;
        list := MergeTemporalKey(k, eventTimes[k], list, start, done);
        pending := pending - {k};
        done := done + {k};
      }
    }

    /** One step of that loop: the candidate of key `k`, if any, replaces or joins the patterns. */
    method MergeTemporalKey(k: string, times: seq<int>, list: seq<TemporalPattern>,
                            ghost start: seq<TemporalPattern>, ghost done: set<string>)
      returns (r: seq<TemporalPattern>)
      requires times == TimesOf(history, k) && k !in done && DistinctBy(start, TypeOf)
      requires MergedBy(start, list, TypeOf, TemporalCands(history), done)
      ensures MergedBy(start, r, TypeOf, TemporalCands(history), done + {k})
    {
      TemporalCandsWellKeyed(history);
      var cand := ComputeTemporal(k, times);
      MergedStep(start, list, TypeOf, TemporalCands(history), done, k);
      r := list;
      if cand.Some? {
        r := UpsertTemporal(list, cand.value);
      }
    }

    /** The number of events of the history with key `cause`. */
    method CountCause(cause: string) returns (n: nat)
      ensures n == CountKey(history, cause)
    {
      n := 0;
      for i := 0 to |history|
        invariant n == CountIn(history, cause, 0, i)
      {
        if history[i].key == cause {
          n := n + 1;
        }
      }
    }

    method UpsertCausal(list: seq<CausalPattern>, pattern: CausalPattern) returns (r: seq<CausalPattern>)
      ensures r == UpsertBy(list, CauseEffect, pattern)
    {
      var found := false;
      r := list;
      var i := 0;
      while i < |r|
        invariant 0 <= i <= |r| && r == list
        invariant forall j :: 0 <= j < i ==> CauseEffect(list[j]) != CauseEffect(pattern)
      {
        var existing := r[i];
        if existing.cause == pattern.cause && existing.effect == pattern.effect {
          assert IndexBy(list, CauseEffect, CauseEffect(pattern)) == i;
          r := r[i := pattern];
          found := true;
          break;
        }
        i := i + 1;
      }
      if !found {
        assert IndexBy(list, CauseEffect, CauseEffect(pattern)) == -1;
        r := r + [pattern];
      }
    }

    /** The inner loop of `findCausalPatterns`: every effect recorded after `cause`. */
    method CausalFor(cause: string, list: seq<CausalPattern>, ghost start: seq<CausalPattern>, ghost done: set<(string, string)>)
      returns (r: seq<CausalPattern>, ghost done': set<(string, string)>)
      requires cause in matrix && DistinctBy(start, CauseEffect)
      requires MergedBy(start, list, CauseEffect, CausalCands(history, matrix), done)
      requires forall k :: k in done ==> k.0 != cause
      ensures done' == done + PairsOf(matrix, {cause})
      ensures MergedBy(start, r, CauseEffect, CausalCands(history, matrix), done')
    {
      ghost var cands := CausalCands(history, matrix);
      CausalCandsWellKeyed(history, matrix);
      r := list;
      done' := done;
      var effects := matrix[cause].Keys;
      while effects != {}
        invariant effects <= matrix[cause].Keys
        invariant done' == done + (set e | e in matrix[cause] && e !in effects :: (cause, e))
        invariant MergedBy(start, r, CauseEffect, cands, done')
        decreases |effects|
      {
        var effect :| effect in effects;
        r := MergeCausalPair(cause, effect, r, start, done');
        effects := effects - {effect};
        done' := done' + {(cause, effect)};
      }
      assert PairsOf(matrix, {cause}) == (set e | e in matrix[cause] :: (cause, e));
    }

    /** The body of that inner loop: the pattern of (cause, effect), if it registers, replaces or joins the patterns. */
    method MergeCausalPair(cause: string, effect: string, list: seq<CausalPattern>,
                           ghost start: seq<CausalPattern>, ghost done: set<(string, string)>)
      returns (r: seq<CausalPattern>)
      requires cause in matrix && effect in matrix[cause] && (cause, effect) !in done
      requires DistinctBy(start, CauseEffect)
      requires MergedBy(start, list, CauseEffect, CausalCands(history, matrix), done)
      ensures MergedBy(start, r, CauseEffect, CausalCands(history, matrix), done + {(cause, effect)})
    {
      ghost var cands := CausalCands(history, matrix);
      CausalCandsWellKeyed(history, matrix);
      MergedStep(start, list, CauseEffect, cands, done, (cause, effect));
      r := list;
      var count := matrix[cause][effect];
      if count >= MinCausalCount {
        var causeCount := CountCause(cause);
        var probability := if causeCount > 0 then count as real / causeCount as real else 0.0;
        if probability > 0.5 {
          var pattern := CausalPattern(cause, effect, probability, 0, count,
                                       CausalDescription(cause, effect, probability));
          assert cands((cause, effect)) == Some(pattern);
          r := UpsertCausal(list, pattern);
        }
      }
    }

    method FindCausalPatterns()
      requires Valid()
      modifies this
      ensures Valid()
      ensures history == old(history) && matrix == old(matrix)
      ensures temporal == old(temporal) && sequences == old(sequences)
      ensures MergedBy(old(causal), causal, CauseEffect, CausalCands(history, matrix), PairsOf(matrix, matrix.Keys))
    {
      var list := MergeCausal();
      CausalCandsWellKeyed(history, matrix);
      MergedKeeps(causal, list, CauseEffect, CausalCands(history, matrix), PairsOf(matrix, matrix.Keys), CausalOk);
      causal := list;
    }

    /** The outer loop of `findCausalPatterns`, over the causes of the matrix. */
    method MergeCausal() returns (list: seq<CausalPattern>)
      requires DistinctBy(causal, CauseEffect)
      ensures MergedBy(causal, list, CauseEffect, CausalCands(history, matrix), PairsOf(matrix, matrix.Keys))
    {
      ghost var cands := CausalCands(history, matrix);
      list := causal;
      var causes := matrix.Keys;
      ghost var done: set<(string, string)> := {};
      MergedStart(causal, CauseEffect, cands);
      while causes != {}
        invariant causes <= matrix.Keys
        invariant done == PairsOf(matrix, matrix.Keys - causes)
        invariant MergedBy(causal, list, CauseEffect, cands, done)
        decreases |causes|
      {
        var cause :| cause in causes;
        ghost var before := matrix.Keys - causes;
        list, done := CausalFor(cause, list, causal, done);
        causes := causes - {cause};
        assert PairsOf(matrix, before) + PairsOf(matrix, {cause}) == PairsOf(matrix, matrix.Keys - causes);
      }
    }

    /** The window strings of length `len` and how often each occurs. */
    method CountWindows(len: nat) returns (counts: map<string, int>)
      requires 1 <= len <= |history|
      ensures counts == Counts(history, len)
    {
      var h := history;
      counts := map[];
      var i := 0;
      while i <= |h| - len
        invariant 0 <= i <= |h| - len + 1
        invariant counts == WindowCounts(h, len, i)
      {
        var s := JoinWindow(h, i, len);
        counts := counts[s := (if s in counts then counts[s] else 0) + 1];
        i := i + 1;
      }
    }

    /** The keys of events `i` to `i + len - 1` joined with the arrow. */
    static method JoinWindow(h: seq<Event>, i: nat, len: nat) returns (s: string)
      requires 1 <= len && i + len <= |h|
      ensures s == WindowString(h, i, len)
    {
      ghost var w := Window(h, i, len);
      s := h[i].key;
      for j := 1 to len
        invariant s == JoinWith(w[..j], Arrow)
      {
        var e := h[i + j];
        JoinWithSnoc(w[..j], e.key, Arrow);
        assert w[..j + 1] == w[..j] + [e.key];
        s := s + Arrow + e.key;
      }
      assert w[..len] == w;
    }

    /** The add-if-new loop over the sequence patterns. */
    static method OfferSequence(list: seq<SequencePattern>, pattern: SequencePattern) returns (r: seq<SequencePattern>)
      ensures r == Offered(list, pattern)
    {
      var found := false;
      r := list;
      var i := 0;
      while i < |r|
        invariant 0 <= i <= |r| && r == list
        invariant forall j :: 0 <= j < i ==> SeqOf(list[j]) != pattern.sequence
      {
        if r[i].sequence == pattern.sequence {
          assert IndexBy(list, SeqOf, pattern.sequence) == i;
          r := r[i := r[i].(occurrences := pattern.occurrences)];
          found := true;
          break;
        }
        i := i + 1;
      }
      if !found {
        assert IndexBy(list, SeqOf, pattern.sequence) == -1;
        if |r| < MaxSequencePatterns {
          r := r + [pattern];
        }
      }
    }

    /**
     * Offers every window string of one length that occurs at least twice;
     * `m` and `mf` are the counts this length hands out, last and first.
     */
    method OfferLength(len: nat, list: seq<SequencePattern>, now: int, ghost start: seq<SequencePattern>,
                       ghost last: map<seq<string>, int>, ghost first: map<seq<string>, int>)
      returns (r: seq<SequencePattern>, ghost m: map<seq<string>, int>, ghost mf: map<seq<string>, int>)
      requires 1 <= len <= |history|
      requires Evolved(start, list, last, first, now)
      ensures CountsOffered(Counts(history, len), Counts(history, len).Keys, m)
      ensures CountsOffered(Counts(history, len), Counts(history, len).Keys, mf)
      ensures Evolved(start, r, last + m, mf + first, now)
    {
      var counts := CountWindows(len);
      r := list;
      var pending := counts.Keys;
      ghost var order: seq<string> := [];
      while pending != {}
        invariant pending <= counts.Keys
        invariant forall w :: w in counts ==> (w in order <==> w !in pending)
        invariant forall w :: w in order ==> w in counts
        invariant r == OfferedAll(list, counts, order, now)
        decreases |pending|
      {
        var w :| w in pending;
        r := OfferWindow(w, counts, r, now);
        order := order + [w];
        pending := pending - {w};
      }
      OfferedAllEvolved(start, list, last, first, counts, order, counts.Keys, now);
      m, mf := LastCounts(counts, order), FirstCounts(counts, order);
    }

    /** Offers the window string `w` if it was counted at least twice. */
    static method OfferWindow(w: string, counts: map<string, int>, list: seq<SequencePattern>, now: int)
      returns (r: seq<SequencePattern>)
      requires w in counts
      ensures r == OfferedIf(list, counts, w, now)
    {
      r := list;
      if counts[w] >= 2 {
        var pattern := SequenceFor(w, counts[w], now);
        r := OfferSequence(list, pattern);
      }
    }

    /** The loop over the window lengths 3 to 5, on a copy of the sequence patterns. */
    method OfferAllLengths(now: int) returns (list: seq<SequencePattern>)
      requires Valid() && |history| >= MinSequenceHistory
      ensures SequencesEvolved(sequences, list, history, now)
      ensures |list| <= MaxSequencePatterns && DistinctBy(list, SeqOf) && AllOk(list, SequenceOk)
    {
      list := sequences;
      EvolvedStart(sequences, now);
      ghost var last: map<seq<string>, int> := map[];
      ghost var first: map<seq<string>, int> := map[];
      for len := 3 to 6
        invariant OffersSoFar(history, len, last, first)
        invariant Evolved(sequences, list, last, first, now)
      {
        ghost var m, mf;
        list, m, mf := OfferLength(len, list, now, sequences, last, first);
        OffersExtend(history, len, last, first, m, mf);
        last, first := last + m, mf + first;
      }
      SequencesEvolvedFrom(sequences, list, history, last, first, now);
    }

    method FindSequencePatterns(now: int)
      requires Valid()
      modifies this
      ensures Valid()
      ensures history == old(history) && matrix == old(matrix)
      ensures temporal == old(temporal) && causal == old(causal)
      ensures |history| < MinSequenceHistory ==> sequences == old(sequences)
      ensures |history| >= MinSequenceHistory ==> SequencesEvolved(old(sequences), sequences, history, now)
    {
      if |history| < MinSequenceHistory {
        return;
      }
      var list := OfferAllLengths(now);
      sequences := list;
    }

    /** The predictions the causal patterns make for `current`, most confident first. */
    method PredictNext(current: string) returns (predictions: seq<Prediction>)
      ensures DescendingBy(predictions, ConfidenceOf)
      ensures multiset(predictions) == multiset(Matching(causal, current))
    {
      var found := MatchingCauses(current);
      predictions := SortByConfidence(found);
    }

    /** The predictions of the causal patterns whose cause matches `current`, in list order. */
    method MatchingCauses(current: string) returns (found: seq<Prediction>)
      ensures found == Matching(causal, current)
    {
      var cs := causal;
      found := [];
      for i := 0 to |cs|
        invariant found == Matching(cs[..i], current)
      {
        assert cs[..i + 1][..i] == cs[..i];
        if Predicts(cs[i], current) {
          found := found + [PredictionOf(cs[i])];
        }
      }
      assert cs[..|cs|] == cs;
    }
  }
}
