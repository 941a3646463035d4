/**
 * Values shared by the trading components: optional values, JavaScript
 * number slots, the buy/sell vocabulary, indicator readings, strategies,
 * JavaScript rounding, and order-preserving filters and counts over lists.
 */
module Common {

  datatype Option<T> = None | Some(value: T)

  /** A slot that JavaScript code reads as a number: a finite number, NaN,
      or absent (undefined, null or a value that is not a number). */
  datatype Number = Num(x: real) | NaN | Absent

  /** `n || 0`: NaN, an absent value and 0 all give 0. */
  function OrZero(n: Number): real
  {
    if n.Num? then n.x else 0.0
  }

  /** `o || d` for an optional number: a missing value and 0 both give `d`. */
  function Or(o: Option<real>, d: real): real
  {
    if o.Some? && o.value != 0.0 then o.value else d
  }

  datatype Side = Buy | Sell

  function Opposite(s: Side): Side
  {
    if s == Buy then Sell else Buy
  }

  /** What one indicator says: 'buy', 'sell', 'neutral', or any other
      (missing or misspelt) signal string. */
  datatype Signal = Directional(side: Side) | Neutral | Unrecognised

  /** How a trade ended. */
  datatype Outcome = Win | Loss

  /** A trading decision: enter on one side, or stay out ('hold'). */
  datatype Decision = Take(side: Side) | Hold

  /** One indicator reading as the feed publishes it, including the learned
      weight, accuracy and trade count once the learning step has run. */
  datatype Indicator = Indicator(
    name: string,
    value: Number,
    signal: Signal,
    confidence: int,
    enabled: bool,
    weight: Option<real>,
    accuracy: Option<real>,
    totalTrades: Option<nat>)

  datatype StrategyParameters = StrategyParameters(stopLoss: Option<real>, takeProfit: Option<real>)

  /** The active trading strategy chosen by the user. */
  datatype Strategy = Strategy(
    name: string,
    minConfidenceThreshold: Option<real>,
    parameters: Option<StrategyParameters>)

  /** The names of the ten indicators the market data feed publishes. */
  const FeedIndicatorNames: seq<string> := [
    "RSI", "MACD", "Bollinger Bands", "ADX", "Stochastic",
    "EMA 50", "SMA 200", "Ichimoku Cloud", "Supertrend", "News Sentiment"]

  function SignalOf(i: Indicator): Signal { i.signal }

  predicate IsEnabled(i: Indicator) { i.enabled }

  /** The sum of the readings' confidences. */
  function SumConfidence(s: seq<Indicator>): int
  {
    if s == [] then 0 else s[0].confidence + SumConfidence(s[1..])
  }

  function Min(a: real, b: real): real { if a <= b then a else b }

  function Max(a: real, b: real): real { if a >= b then a else b }

  /** `Math.round(x)`: the nearest integer, halves rounded up. */
  function Round(x: real): (r: int)
    ensures x - 0.5 < r as real <= x + 0.5
  {
    (x + 0.5).Floor
  }

  /** `parseFloat(x.toFixed(2))` on an exact decimal: round half away from
      zero to two decimals. */
  function RoundTo2(x: real): (r: real)
    ensures -0.005 <= r - x <= 0.005
    ensures (r * 100.0).Floor as real == r * 100.0
    ensures x >= 0.0 ==> r >= 0.0
    ensures x <= 0.0 ==> r <= 0.0
    ensures IsHalf(x * 100.0) && x > 0.0 ==> r * 100.0 == x * 100.0 + 0.5
    ensures IsHalf(x * 100.0) && x < 0.0 ==> r * 100.0 == x * 100.0 - 0.5
  {
    if x >= 0.0 then
      var k := Round(x * 100.0);
      assert (k as real / 100.0) * 100.0 == k as real;
      k as real / 100.0
    else
      var k := Round(-x * 100.0);
      assert -(k as real / 100.0) * 100.0 == -k as real;
      assert (-k as real).Floor == -k;
      -(k as real / 100.0)
  }

  /** `y` lies exactly halfway between two integers. */
  predicate IsHalf(y: real)
  {
    y - y.Floor as real == 0.5
  }

  /** `Math.round(x * 100) / 100`: nearest hundredth, halves rounded up. */
  function RoundHundredths(x: real): (r: real)
    ensures x - 0.005 < r <= x + 0.005
    ensures (r * 100.0).Floor as real == r * 100.0
  {
    var k := Round(x * 100.0);
    assert (k as real / 100.0) * 100.0 == k as real;
    k as real / 100.0
  }

  /** `Math.pow(b, n)` for a natural exponent. */
  function Pow(b: real, n: nat): real
  {
    if n == 0 then 1.0 else b * Pow(b, n - 1)
  }

  lemma {:induction false} PowAtLeastOne(b: real, n: nat)
    requires b >= 1.0
    ensures Pow(b, n) >= 1.0
  {
    if n > 0 {
      PowAtLeastOne(b, n - 1);
    }
  }

  lemma {:induction false} PowMonotone(b: real, m: nat, n: nat)
    requires b >= 1.0 && m <= n
    ensures Pow(b, m) <= Pow(b, n)
  {
    if m < n {
      PowMonotone(b, m, n - 1);
      PowAtLeastOne(b, n - 1);
    }
  }

  lemma {:induction false} PowNonNegative(b: real, n: nat)
    requires b >= 0.0
    ensures Pow(b, n) >= 0.0
  {
    if n > 0 {
      PowNonNegative(b, n - 1);
    }
  }

  /** `s.filter(p)`: the elements satisfying `p`, in their original order. */
  function Filter<T>(s: seq<T>, p: T -> bool): (r: seq<T>)
    ensures |r| <= |s|
    ensures forall i :: 0 <= i < |r| ==> p(r[i])
    ensures forall i :: 0 <= i < |r| ==> r[i] in s
    ensures forall i :: 0 <= i < |s| && p(s[i]) ==> s[i] in r
  {
    if s == [] then []
    else (if p(s[0]) then [s[0]] else []) + Filter(s[1..], p)
  }

  lemma {:induction false} FilterKeepsAll<T>(s: seq<T>, p: T -> bool)
    requires forall i :: 0 <= i < |s| ==> p(s[i])
    ensures Filter(s, p) == s
  {
    if s != [] {
      FilterKeepsAll(s[1..], p);
    }
  }

  lemma {:induction false} FilterAppend<T>(s: seq<T>, t: seq<T>, p: T -> bool)
    ensures Filter(s + t, p) == Filter(s, p) + Filter(t, p)
  {
    if s == [] {
      assert s + t == t;
    } else {
      assert (s + t)[1..] == s[1..] + t;
      FilterAppend(s[1..], t, p);
    }
  }

  lemma FilterSingleton<T>(x: T, p: T -> bool)
    ensures Filter([x], p) == if p(x) then [x] else []
  {
    assert [x][1..] == [];
  }

  /** Dropping the last element takes one off the count of kept elements
      exactly when that element is kept. */
  lemma FilterLastCount<T>(s: seq<T>, p: T -> bool)
    requires s != []
    ensures |Filter(s, p)| == |Filter(s[..|s| - 1], p)| + (if p(s[|s| - 1]) then 1 else 0)
  {
    var init := s[..|s| - 1];
    var x := s[|s| - 1];
    assert s[|s| - 1..] == [x];
    assert s == init + s[|s| - 1..];
    FilterAppend(init, [x], p);
    FilterSingleton(x, p);
  }

  function CountOf<T, K(==)>(s: seq<T>, key: T -> K, k: K): (n: nat)
    ensures n <= |s|
  {
    if s == [] then 0
    else (if key(s[0]) == k then 1 else 0) + CountOf(s[1..], key, k)
  }

  lemma {:induction false} CountOfFilter<T, K>(s: seq<T>, key: T -> K, k: K)
    ensures CountOf(s, key, k) == |Filter(s, x => key(x) == k)|
  {
    if s != [] {
      CountOfFilter(s[1..], key, k);
    }
  }

  /** The sum of the counts of each key in `ks`. */
  function CountEach<T, K(==)>(s: seq<T>, key: T -> K, ks: seq<K>): nat
  {
    if ks == [] then 0 else CountOf(s, key, ks[0]) + CountEach(s, key, ks[1..])
  }

  lemma ProductNonNegative(a: real, b: real)
    requires a >= 0.0 && b >= 0.0
    ensures a * b >= 0.0
  {
  }

  /** Three keys counted one after another. */
  lemma CountEachThree<T, K>(s: seq<T>, key: T -> K, ks: seq<K>)
    requires |ks| == 3
    ensures CountEach(s, key, ks) == CountOf(s, key, ks[0]) + CountOf(s, key, ks[1]) + CountOf(s, key, ks[2])
  {
    var tail := ks[1..];
    var last := tail[1..];
    assert tail[0] == ks[1] && last[0] == ks[2] && last[1..] == [];
    assert CountEach(s, key, last) == CountOf(s, key, ks[2]) + CountEach(s, key, last[1..]);
    assert CountEach(s, key, tail) == CountOf(s, key, ks[1]) + CountEach(s, key, last);
  }

  predicate Distinct<K(==)>(ks: seq<K>)
  {
    forall i, j :: 0 <= i < j < |ks| ==> ks[i] != ks[j]
  }

  lemma {:induction false} CountEachCons<T, K>(x: T, s: seq<T>, key: T -> K, ks: seq<K>)
    requires Distinct(ks)
    ensures CountEach([x] + s, key, ks) == (if key(x) in ks then 1 else 0) + CountEach(s, key, ks)
  {
    if ks != [] {
      assert ([x] + s)[1..] == s;
      assert Distinct(ks[1..]) by {
        forall i, j | 0 <= i < j < |ks[1..]| ensures ks[1..][i] != ks[1..][j] {
          assert ks[1..][i] == ks[i + 1] && ks[1..][j] == ks[j + 1];
        }
      }
      CountEachCons(x, s, key, ks[1..]);
      assert key(x) in ks <==> key(x) == ks[0] || key(x) in ks[1..] by {
        assert ks == [ks[0]] + ks[1..];
      }
    }
  }

  /** Counting each of several distinct keys never counts an element twice:
      the counts add up to at most the length, and exactly to the length
      when every element has one of the keys. */
  lemma {:induction false} CountEachBound<T, K>(s: seq<T>, key: T -> K, ks: seq<K>)
    requires Distinct(ks)
    ensures CountEach(s, key, ks) <= |s|
    ensures (forall i :: 0 <= i < |s| ==> key(s[i]) in ks) ==> CountEach(s, key, ks) == |s|
  {
    if s == [] {
      CountEachEmpty(key, ks);
    } else {
      assert s == [s[0]] + s[1..];
      CountEachCons(s[0], s[1..], key, ks);
      CountEachBound(s[1..], key, ks);
    }
  }

  lemma {:induction false} CountEachEmpty<T, K>(key: T -> K, ks: seq<K>)
    ensures CountEach([], key, ks) == 0
  {
    if ks != [] {
      CountEachEmpty(key, ks[1..]);
    }
  }
}
