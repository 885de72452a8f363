// Shared vocabulary for the AI child components: optional values, clamping,
// Java's truncating integer division and the few java.lang.String operations
// the components rely on (ASCII only).
module Common {

  datatype Option<T> = None | Some(value: T)

  function Min(a: real, b: real): real { if a <= b then a else b }
  function Max(a: real, b: real): real { if a >= b then a else b }
  function IMin(a: int, b: int): int { if a <= b then a else b }
  function IMax(a: int, b: int): int { if a >= b then a else b }
  function Abs(a: int): nat { if a < 0 then -a else a }

  /** A list that never holds the same element twice. */
  predicate NoDuplicates<T(==)>(s: seq<T>)
  {
    forall i, j :: 0 <= i < j < |s| ==> s[i] != s[j]
  }

  /** `Map.getOrDefault(k, d)`. */
  function LookupOr<K, V>(m: map<K, V>, k: K, d: V): V
  {
    if k in m then m[k] else d
  }

  /** Java's `long` division: the quotient is truncated toward zero. */
  function JDiv(a: int, b: int): (q: int)
    requires b != 0
    ensures 0 <= a && 0 < b ==> q == a / b
    ensures a <= 0 && 0 < b ==> q == -((-a) / b)
    ensures a * b >= 0 ==> q >= 0
  {
    if 0 <= a && 0 < b then a / b
    else if a < 0 && b < 0 then (-a) / (-b)
    else if 0 <= a then -(a / (-b))
    else -((-a) / b)
  }

  // ---------------------------------------------------------------- decimal

  function DigitChar(d: nat): char
    requires d < 10
  {
    ('0' as int + d) as char
  }

  /** `String.valueOf(n)` for a non-negative `n`. */
  function NatToString(n: nat): (s: string)
    ensures 1 <= |s|
    ensures forall i :: 0 <= i < |s| ==> '0' <= s[i] <= '9'
    ensures n < 10 <==> |s| == 1
    decreases n
  {
    if n < 10 then [DigitChar(n)] else NatToString(n / 10) + [DigitChar(n % 10)]
  }

  /** Distinct numbers are printed differently. */
  lemma {:induction false} NatToStringInjective(n: nat, m: nat)
    requires NatToString(n) == NatToString(m)
    ensures n == m
    decreases n
  {
    if 10 <= n && 10 <= m {
      var s := NatToString(n);
      assert s == NatToString(n / 10) + [DigitChar(n % 10)];
      assert s == NatToString(m / 10) + [DigitChar(m % 10)];
      assert NatToString(n / 10) == s[..|s| - 1] == NatToString(m / 10);
      assert DigitChar(n % 10) == s[|s| - 1] == DigitChar(m % 10);
      NatToStringInjective(n / 10, m / 10);
    }
  }

  // ---------------------------------------------------------------- strings

  /** `Character.toLowerCase` restricted to ASCII. */
  function LowerChar(c: char): char
  {
    if 'A' <= c <= 'Z' then (c as int + 32) as char else c
  }

  function Lower(s: string): (r: string)
    ensures |r| == |s|
    ensures forall i :: 0 <= i < |s| ==> r[i] == LowerChar(s[i])
  {
    seq(|s|, i requires 0 <= i < |s| => LowerChar(s[i]))
  }

  /** The characters of the regular expression class `\s`. */
  predicate IsSpace(c: char)
  {
    c == ' ' || c == '\t' || c == '\n' || c == '\r' || c as int == 11 || c as int == 12
  }

  predicate NoSpace(w: string)
  {
    forall i :: 0 <= i < |w| ==> !IsSpace(w[i])
  }

  /** `String.trim`: drops leading and trailing characters up to U+0020. */
  function Trim(s: string): (r: string)
    ensures |r| <= |s|
    ensures r == [] <==> forall i :: 0 <= i < |s| ==> s[i] <= ' '
    ensures r != [] ==> ' ' < r[0] && ' ' < r[|r| - 1]
    decreases |s|
  {
    if s == [] then []
    else if s[0] <= ' ' then Trim(s[1..])
    else if s[|s| - 1] <= ' ' then Trim(s[..|s| - 1])
    else s
  }

  /** Length of the longest prefix of `s` without whitespace. */
  function TokenLength(s: string): (n: nat)
    ensures n <= |s|
    ensures NoSpace(s[..n])
    ensures n < |s| ==> IsSpace(s[n])
  {
    if s == [] || IsSpace(s[0]) then 0 else 1 + TokenLength(s[1..])
  }

  /** The maximal runs of non-whitespace characters of `s`, in order. */
  function Words(s: string): (ws: seq<string>)
    ensures forall i :: 0 <= i < |ws| ==> |ws[i]| > 0 && NoSpace(ws[i])
    ensures |ws| <= |s|
    decreases |s|
  {
    if s == [] then []
    else if IsSpace(s[0]) then Words(s[1..])
    else
      var n := TokenLength(s);
      [s[..n]] + Words(s[n..])
  }

  /**
   * `s.split("\\s+")`: the runs of non-whitespace; a leading empty token
   * when `s` starts with whitespace; trailing empty tokens removed, so an
   * all-whitespace string gives no token at all; "" gives the single token "".
   */
  function SplitWhitespace(s: string): seq<string>
  {
    if s == [] then [""]
    else if Words(s) == [] then []
    else if IsSpace(s[0]) then [""] + Words(s)
    else Words(s)
  }

  predicate IsAsciiLetter(c: char) { 'a' <= c <= 'z' || 'A' <= c <= 'Z' }

  /** `s.replaceAll("[^a-zA-Z]", "")`. */
  function LettersOnly(s: string): (r: string)
    ensures |r| <= |s|
    ensures forall i :: 0 <= i < |r| ==> IsAsciiLetter(r[i])
  {
    if s == [] then []
    else if IsAsciiLetter(s[0]) then [s[0]] + LettersOnly(s[1..])
    else LettersOnly(s[1..])
  }

  predicate StartsWith(s: string, prefix: string)
  {
    |prefix| <= |s| && s[..|prefix|] == prefix
  }

  predicate EndsWith(s: string, suffix: string)
  {
    |suffix| <= |s| && s[|s| - |suffix|..] == suffix
  }

  predicate OccursAt(s: string, t: string, i: int)
  {
    0 <= i <= |s| - |t| && s[i..i + |t|] == t
  }

  /** A subset is no larger than its superset. */
  lemma SubsetCard<T>(a: set<T>, b: set<T>)
    requires a <= b
    ensures |a| <= |b|
  {
    assert b == a + (b - a);
  }

  /** A suffix no longer than the tail of a concatenation is decided by that tail. */
  lemma EndsWithConcat(x: string, a: string, b: string)
    requires |b| <= |a|
    ensures EndsWith(x + a, b) <==> EndsWith(a, b)
  {
    assert (x + a)[|x + a| - |b|..] == a[|a| - |b|..];
  }

  predicate Contains(s: string, t: string)
  {
    exists i | 0 <= i <= |s| - |t| :: OccursAt(s, t, i)
  }

  /** The last `n` elements of `xs` (all of them when there are fewer). */
  function Keep<T>(xs: seq<T>, n: nat): seq<T>
  {
    if |xs| > n then xs[|xs| - n..] else xs
  }

  /**
   * The elements from index max(0, |xs| - count) on: the last `count`, oldest
   * first, all of them when there are fewer, none for a negative count.
   */
  function Latest<T>(xs: seq<T>, count: int): (r: seq<T>)
    ensures |r| == if count < 0 then 0 else IMin(count, |xs|)
    ensures forall i :: 0 <= i < |r| ==> r[i] == xs[|xs| - |r| + i]
  {
    if count < 0 then [] else xs[IMax(0, |xs| - count)..]
  }

  /** `String.valueOf(n)` for any `long`. */
  function IntToString(n: int): (s: string)
    ensures 1 <= |s|
    ensures n < 0 <==> s[0] == '-'
  {
    if n < 0 then "-" + NatToString(-n) else NatToString(n)
  }

  /** `String.join(sep, parts)`. */
  function JoinWith(parts: seq<string>, sep: string): string
  {
    if |parts| == 0 then ""
    else if |parts| == 1 then parts[0]
    else parts[0] + sep + JoinWith(parts[1..], sep)
  }

  /** Appending one more part appends the separator and that part. */
  lemma {:induction false} JoinWithSnoc(parts: seq<string>, x: string, sep: string)
    requires |parts| > 0
    ensures JoinWith(parts + [x], sep) == JoinWith(parts, sep) + sep + x
    decreases |parts|
  {
    if |parts| == 1 {
      assert parts + [x] == [parts[0], x];
      assert (parts + [x])[1..] == [x];
    } else {
      assert (parts + [x])[1..] == parts[1..] + [x];
      JoinWithSnoc(parts[1..], x, sep);
    }
  }

  /** The first position at or after `from` where `sep` occurs in `s`. */
  function IndexFrom(s: string, sep: string, from: nat): (r: Option<nat>)
    ensures r.Some? ==> from <= r.value && OccursAt(s, sep, r.value)
    ensures r.Some? ==> forall j :: from <= j < r.value ==> !OccursAt(s, sep, j)
    ensures r.None? ==> forall j :: from <= j ==> !OccursAt(s, sep, j)
    decreases |s| - from
  {
    if from + |sep| > |s| then None
    else if OccursAt(s, sep, from) then Some(from)
    else IndexFrom(s, sep, from + 1)
  }

  /** `s.indexOf(sep)`. */
  function IndexOf(s: string, sep: string): Option<nat>
  {
    IndexFrom(s, sep, 0)
  }

  /** The pieces between the successive non-overlapping occurrences of `sep`. */
  function Pieces(s: string, sep: string): (ps: seq<string>)
    requires |sep| > 0
    ensures |ps| >= 1
    decreases |s|
  {
    match IndexOf(s, sep)
    case None => [s]
    case Some(i) => [s[..i]] + Pieces(s[i + |sep|..], sep)
  }

  /** Joining the pieces with the separator gives back the string. */
  lemma {:induction false} PiecesJoin(s: string, sep: string)
    requires |sep| > 0
    ensures JoinWith(Pieces(s, sep), sep) == s
    decreases |s|
  {
    match IndexOf(s, sep)
    case None =>
    case Some(i) =>
      var rest := s[i + |sep|..];
      PiecesJoin(rest, sep);
      PiecesAt(s, sep, i);
      JoinCons(s[..i], Pieces(rest, sep), sep);
  }

  /** At the first occurrence the string splits into the first piece, the separator and the rest. */
  lemma PiecesAt(s: string, sep: string, i: nat)
    requires |sep| > 0 && IndexOf(s, sep) == Some(i)
    ensures i + |sep| <= |s|
    ensures Pieces(s, sep) == [s[..i]] + Pieces(s[i + |sep|..], sep)
    ensures s == s[..i] + sep + s[i + |sep|..]
  {
    SplitAt(s, sep, i);
  }

  lemma SplitAt(s: string, sep: string, i: nat)
    requires OccursAt(s, sep, i)
    ensures s == s[..i] + sep + s[i + |sep|..]
  {
    assert s == s[..i] + s[i..i + |sep|] + s[i + |sep|..];
  }

  lemma JoinCons(p: string, ps: seq<string>, sep: string)
    requires |ps| >= 1
    ensures JoinWith([p] + ps, sep) == p + sep + JoinWith(ps, sep)
  {
    assert ([p] + ps)[1..] == ps;
  }

  function DropTrailingEmpty(ps: seq<string>): (r: seq<string>)
    ensures |r| <= |ps| && r == ps[..|r|]
    ensures r != [] ==> r[|r| - 1] != ""
    ensures forall i :: |r| <= i < |ps| ==> ps[i] == ""
  {
    if ps == [] || ps[|ps| - 1] != "" then ps else DropTrailingEmpty(ps[..|ps| - 1])
  }

  /**
   * `s.split(sep)` for a separator without regular-expression metacharacters:
   * a string without the separator is its own single piece; otherwise the
   * pieces between occurrences, without the trailing empty ones.
   */
  function SplitLiteral(s: string, sep: string): seq<string>
    requires |sep| > 0
  {
    if IndexOf(s, sep).None? then [s] else DropTrailingEmpty(Pieces(s, sep))
  }

  // ------------------------------------------------------- stable ordering

  /** Non-increasing in the weight `w`. */
  predicate DescendingBy<T>(xs: seq<T>, w: T -> real)
  {
    forall i, j :: 0 <= i < j < |xs| ==> w(xs[i]) >= w(xs[j])
  }

  /** The position behind every leading entry weighing at least as much as `a`. */
  function InsertPos<T>(xs: seq<T>, a: T, w: T -> real): (p: nat)
    ensures p <= |xs|
    ensures forall i :: 0 <= i < p ==> w(xs[i]) >= w(a)
    ensures p < |xs| ==> w(xs[p]) < w(a)
  {
    if xs == [] || w(xs[0]) < w(a) then 0 else 1 + InsertPos(xs[1..], a, w)
  }

  /**
   * One step of a stable sort by descending weight: `a`, which comes after
   * the entries of `xs` in the input, goes behind those that weigh as much.
   */
  function InsertDescending<T>(xs: seq<T>, a: T, w: T -> real): (r: seq<T>)
    ensures |r| == |xs| + 1
    ensures multiset(r) == multiset(xs) + multiset{a}
  {
    var p := InsertPos(xs, a, w);
    assert xs == xs[..p] + xs[p..];
    xs[..p] + [a] + xs[p..]
  }

  lemma InsertKeepsDescending<T>(xs: seq<T>, a: T, w: T -> real)
    requires DescendingBy(xs, w)
    ensures DescendingBy(InsertDescending(xs, a, w), w)
  {
    var p := InsertPos(xs, a, w);
    var r := InsertDescending(xs, a, w);
    InsertedAt(xs, a, w);
    forall i, j | 0 <= i < j < |r|
      ensures w(r[i]) >= w(r[j])
    {
      if i == p && j > p {
        assert w(xs[j - 1]) <= w(xs[p]);
      }
    }
  }

  /** Where each entry ends up after the insertion. */
  lemma InsertedAt<T>(xs: seq<T>, a: T, w: T -> real)
    ensures var p := InsertPos(xs, a, w); var r := InsertDescending(xs, a, w);
            forall k :: 0 <= k < |r| ==> r[k] == if k < p then xs[k] else if k == p then a else xs[k - 1]
  {
  }

  /** One entry of the inserted sequence, for callers that only need one index. */
  lemma InsertedAtIndex<T>(xs: seq<T>, a: T, w: T -> real, k: int)
    requires 0 <= k <= |xs|
    ensures var p := InsertPos(xs, a, w);
            InsertDescending(xs, a, w)[k] == if k < p then xs[k] else if k == p then a else xs[k - 1]
  {
    InsertedAt(xs, a, w);
  }

  // ------------------------------------------------------------ arithmetic

  lemma MulNonNeg(x: real, y: real)
    requires 0.0 <= x && 0.0 <= y
    ensures 0.0 <= x * y
  {
  }

  lemma MulPos(x: real, y: real)
    requires 0.0 < x && 0.0 < y
    ensures 0.0 < x * y
  {
  }

  /** Multiplying by a positive number keeps a strict order. */
  lemma ScaleLess(x: real, y: real, a: real)
    requires 0.0 < a
    ensures x < y <==> x * a < y * a
  {
    assert y * a - x * a == (y - x) * a;
    if x < y {
      MulPos(y - x, a);
    } else {
      MulNonNeg(x - y, a);
      assert x * a - y * a == (x - y) * a;
    }
  }

  /** Squaring is strictly monotonic on the non-negative numbers. */
  lemma SquareLess(x: real, y: real)
    requires 0.0 <= x && 0.0 < y
    ensures x < y <==> x * x < y * y
  {
    if x < y {
      MulNonNeg(x, y - x);
      MulPos(y, y - x);
      assert x * y - x * x == x * (y - x);
      assert y * y - x * y == y * (y - x);
    } else {
      MulNonNeg(x, x - y);
      MulNonNeg(y, x - y);
      assert x * x - x * y == x * (x - y);
      assert x * y - y * y == y * (x - y);
    }
  }

  lemma CastSquare(n: int)
    ensures (n * n) as real == (n as real) * (n as real)
  {
  }

  lemma HalfSquared(a: real)
    ensures 4.0 * ((a / 2.0) * (a / 2.0)) == a * a
  {
  }

  lemma DivTimes(x: real, a: real)
    requires a != 0.0
    ensures (x / a) * a == x
  {
  }

  lemma MulDivCancel(n: int, d: int)
    requires n > 0
    ensures (n * d) / n == d
  {
    var q := (n * d) / n;
    var r := (n * d) % n;
    assert n * d == n * q + r && 0 <= r < n;
    assert n * (d - q) == r by {
      assert n * d - n * q == n * (d - q);
    }
    SmallMultiple(n, d - q);
  }

  /** The only multiple of a positive `n` in [0, n) is 0. */
  lemma SmallMultiple(n: int, k: int)
    requires n > 0 && 0 <= n * k < n
    ensures k == 0
  {
    if k >= 1 {
      IntMulNonNeg(n, k - 1);
    } else if k <= -1 {
      IntMulNonNeg(n, -k - 1);
    }
  }

  lemma IntMulNonNeg(x: int, y: int)
    requires 0 <= x && 0 <= y
    ensures 0 <= x * y
  {
  }
}
