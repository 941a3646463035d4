/**
 * The market data provider's learning loop: which readings take part in a
 * simulated trade, the majority decision with 60% agreement, the win
 * probability, the per-indicator win/total records it credits, and the
 * accuracy and weight it derives from them and publishes on each reading.
 *
 * The simulated prices and signals are random and are left out; the
 * readings they produce, and the uniform draw in [0, 100) that decides the
 * simulated trade, are parameters.
 */
module MarketData {
  import opened Common

  const MinLearningConfidence: int := 30
  const MinLearningReadings: nat := 2
  /** Readings with fewer than this many trades keep the neutral accuracy. */
  const MinTradesForAccuracy: nat := 5
  /** Readings with fewer than this many trades have their weight reduced. */
  const MinTradesForFullWeight: nat := 10

  /** `Math.round(Math.max(25, Math.min(95, confidence)))` */
  function ClampConfidence(c: real): (r: int)
    ensures 25 <= r <= 95
    ensures 25.0 <= c <= 95.0 ==> c - 0.5 < r as real <= c + 0.5
    ensures c <= 25.0 ==> r == 25
    ensures c >= 95.0 ==> r == 95
  {
    Round(Max(25.0, Min(95.0, c)))
  }

  /** A published reading: the feed's template with its simulated value,
      signal and clamped confidence. */
  function GeneratedReading(template: Indicator, value: real, signal: Signal, rawConfidence: real): (r: Indicator)
    ensures r.name == template.name && r.enabled == template.enabled
    ensures 25 <= r.confidence <= 95
  {
    template.(value := Num(value), signal := signal, confidence := ClampConfidence(rawConfidence))
  }

  /** Readings that take part in learning: enabled, confidence at least 30. */
  predicate Qualifies(i: Indicator)
  {
    i.enabled && i.confidence >= MinLearningConfidence
  }

  function Qualifying(readings: seq<Indicator>): seq<Indicator>
  {
    Filter(readings, Qualifies)
  }

  /** The simulated trade's direction: the side with more readings, when
      that side also has at least 60% of them. */
  function TradeDecision(q: seq<Indicator>): (d: Decision)
    ensures d == Take(Buy) <==>
      CountOf(q, SignalOf, Directional(Buy)) > CountOf(q, SignalOf, Directional(Sell))
      && 5 * CountOf(q, SignalOf, Directional(Buy)) >= 3 * |q|
    ensures d == Take(Sell) <==>
      CountOf(q, SignalOf, Directional(Sell)) > CountOf(q, SignalOf, Directional(Buy))
      && 5 * CountOf(q, SignalOf, Directional(Sell)) >= 3 * |q|
  {
    var buy := CountOf(q, SignalOf, Directional(Buy));
    var sell := CountOf(q, SignalOf, Directional(Sell));
    if buy > sell && buy as real >= |q| as real * 0.6 then Take(Buy)
    else if sell > buy && sell as real >= |q| as real * 0.6 then Take(Sell)
    else Hold
  }

  function Supporting(q: seq<Indicator>, side: Side): seq<Indicator>
  {
    Filter(q, (i: Indicator) => i.signal == Directional(side))
  }

  /** The mean confidence of the readings that back the decision, 50 if
      there are none. */
  function SupportConfidence(q: seq<Indicator>, side: Side): real
  {
    var s := Supporting(q, side);
    if |s| > 0 then SumConfidence(s) as real / |s| as real else 50.0
  }

  /** `Math.min(85, Math.max(45, avgConfidence * 0.8))` */
  function WinProbability(avgConfidence: real): (p: real)
    ensures 45.0 <= p <= 85.0
    ensures 56.25 <= avgConfidence <= 106.25 ==> p == avgConfidence * 0.8
  {
    Min(85.0, Max(45.0, avgConfidence * 0.8))
  }

  /** The simulated trade wins when the draw falls below the win
      probability. */
  function SimulatedOutcome(q: seq<Indicator>, side: Side, draw: real): (o: Outcome)
    ensures draw < 45.0 ==> o == Win
    ensures draw >= 85.0 ==> o == Loss
  {
    if draw < WinProbability(SupportConfidence(q, side)) then Win else Loss
  }

  /** A reading earns a win when it agreed with a winning trade or
      disagreed with a losing one. */
  predicate Credited(signal: Signal, side: Side, outcome: Outcome)
  {
    (signal == Directional(side) && outcome == Win) || (signal != Directional(side) && outcome == Loss)
  }

  datatype Record = Record(wins: nat, total: nat)

  type Records = map<string, Record>

  predicate WinsWithinTotals(records: Records)
  {
    forall n :: n in records ==> records[n].wins <= records[n].total
  }

  predicate NamesKnown(q: seq<Indicator>, records: Records)
  {
    forall i :: 0 <= i < |q| ==> q[i].name in records
  }

  function CreditOne(records: Records, reading: Indicator, side: Side, outcome: Outcome): Records
    requires reading.name in records
  {
    var perf := records[reading.name];
    records[reading.name := Record(
      if Credited(reading.signal, side, outcome) then perf.wins + 1 else perf.wins,
      perf.total + 1)]
  }

  /** Crediting each reading of `q` in turn. */
  function ApplyCredits(records: Records, q: seq<Indicator>, side: Side, outcome: Outcome): (r: Records)
    requires NamesKnown(q, records)
    ensures r.Keys == records.Keys
  {
    if q == [] then records
    else
      var init := q[..|q| - 1];
      assert NamesKnown(init, records) by {
        forall i | 0 <= i < |init| ensures init[i].name in records {
          assert init[i] == q[i];
        }
      }
      CreditOne(ApplyCredits(records, init, side, outcome), q[|q| - 1], side, outcome)
  }

  /** One learning step: nothing while the robot is inactive, with fewer
      than two qualifying readings or without a decision; otherwise each
      qualifying reading is credited against the simulated trade. */
  function LearnStep(records: Records, isActive: bool, readings: seq<Indicator>, draw: real): Records
    requires NamesKnown(readings, records)
  {
    var q := Qualifying(readings);
    if !isActive || |q| < MinLearningReadings then records
    else
      var d := TradeDecision(q);
      if d == Hold then records
      else
        QualifyingNamesKnown(readings, records);
        ApplyCredits(records, q, d.side, SimulatedOutcome(q, d.side, draw))
  }

  lemma QualifyingNamesKnown(readings: seq<Indicator>, records: Records)
    requires NamesKnown(readings, records)
    ensures NamesKnown(Qualifying(readings), records)
  {
    var q := Qualifying(readings);
    forall i | 0 <= i < |q| ensures q[i].name in records {
      assert q[i] in readings;
    }
  }

  /** `Math.round(accuracy * 100) / 100` of the win rate in percent, 50
      until more than five trades are recorded. */
  function RawAccuracy(perf: Record): real
  {
    if perf.total > MinTradesForAccuracy then perf.wins as real / perf.total as real * 100.0 else 50.0
  }

  function Accuracy(perf: Record): real
  {
    RoundHundredths(RawAccuracy(perf))
  }

  /** 0.5 plus the accuracy fraction, reduced by a fifth below ten trades,
      rounded to hundredths. */
  function Weight(perf: Record): real
  {
    var w := 0.5 + RawAccuracy(perf) / 100.0 * 1.0;
    RoundHundredths(if perf.total < MinTradesForFullWeight then w * 0.8 else w)
  }

  /** The reading as published, with its learned accuracy, weight and trade
      count. */
  function WithPerformance(reading: Indicator, records: Records): (r: Indicator)
    requires reading.name in records
    ensures r.name == reading.name && r.signal == reading.signal && r.confidence == reading.confidence
    ensures r.totalTrades == Some(records[reading.name].total)
  {
    var perf := records[reading.name];
    reading.(accuracy := Some(Accuracy(perf)), weight := Some(Weight(perf)), totalTrades := Some(perf.total))
  }

  /** The win/total record of every indicator, kept across simulation
      ticks. */
  class PerformanceTracker {
    var records: Records

    predicate Valid()
      reads this
    {
      WinsWithinTotals(records)
    }

    constructor ()
      ensures records.Keys == set i | 0 <= i < |FeedIndicatorNames| :: FeedIndicatorNames[i]
      ensures forall n :: n in records ==> records[n] == Record(0, 0)
      ensures Valid()
    {
      records := map i | 0 <= i < |FeedIndicatorNames| :: FeedIndicatorNames[i] := Record(0, 0);
    }

    /** Step 3 of a simulation tick. */
    method Learn(isActive: bool, readings: seq<Indicator>, draw: real)
      requires Valid() && NamesKnown(readings, records)
      modifies this
      ensures records == LearnStep(old(records), isActive, readings, draw)
      ensures Valid()
    {
      if !isActive {
        return;
      }
      var q := Filter(readings, Qualifies);
      if |q| < MinLearningReadings {
        return;
      }
      var decision := TradeDecision(q);
      if decision == Hold {
        return;
      }
      var side := decision.side;
      var outcome := if draw < WinProbability(SupportConfidence(q, side)) then Win else Loss;
      QualifyingNamesKnown(readings, records);
      CreditAll(q, side, outcome);
    }

    /** The records after crediting each reading of `q` in turn. */
    method CreditAll(q: seq<Indicator>, side: Side, outcome: Outcome)
      requires Valid() && NamesKnown(q, records)
      modifies this
      ensures records == ApplyCredits(old(records), q, side, outcome)
      ensures Valid()
    {
      ghost var start := records;
      var i := 0;
      PrefixNamesKnown(q, start, 0);
      while i < |q|
        invariant 0 <= i <= |q|
        invariant NamesKnown(q, start) && NamesKnown(q[..i], start)
        invariant records == ApplyCredits(start, q[..i], side, outcome)
        invariant WinsWithinTotals(records)
      {
        ghost var before := records;
        var reading := q[i];
        var perf := records[reading.name];
        perf := perf.(total := perf.total + 1);
        if (reading.signal == Directional(side) && outcome == Win)
          || (reading.signal != Directional(side) && outcome == Loss) {
          perf := perf.(wins := perf.wins + 1);
        }
        records := records[reading.name := perf];
        assert records == CreditOne(before, reading, side, outcome) by {
          assert perf == CreditOne(before, reading, side, outcome)[reading.name];
        }
        CreditOneKeepsWins(before, reading, side, outcome);
        CreditStep(start, q, i, side, outcome);
        i := i + 1;
        assert NamesKnown(q[..i], start);
      }
      assert q[..i] == q;
    }

    /** Step 4 of a simulation tick: the readings as published. */
    method Publish(readings: seq<Indicator>) returns (published: seq<Indicator>)
      requires NamesKnown(readings, records)
      ensures |published| == |readings|
      ensures forall i :: 0 <= i < |readings| ==> published[i] == WithPerformance(readings[i], records)
    {
      published := [];
      var i := 0;
      while i < |readings|
        invariant 0 <= i <= |readings|
        invariant |published| == i
        invariant forall j :: 0 <= j < i ==> published[j] == WithPerformance(readings[j], records)
      {
        published := published + [WithPerformance(readings[i], records)];
        i := i + 1;
      }
    }
  }

  // ---------------------------------------------------------------------
  // Properties

  lemma PrefixNamesKnown(q: seq<Indicator>, records: Records, i: nat)
    requires NamesKnown(q, records) && i <= |q|
    ensures NamesKnown(q[..i], records)
  {
    forall j | 0 <= j < i ensures q[..i][j].name in records {
      assert q[..i][j] == q[j];
    }
  }

  /** Crediting one more reading of the loop. */
  lemma CreditStep(records: Records, q: seq<Indicator>, i: nat, side: Side, outcome: Outcome)
    requires NamesKnown(q, records) && i < |q|
    ensures NamesKnown(q[..i], records) && NamesKnown(q[..i + 1], records)
    ensures ApplyCredits(records, q[..i + 1], side, outcome)
      == CreditOne(ApplyCredits(records, q[..i], side, outcome), q[i], side, outcome)
  {
    PrefixNamesKnown(q, records, i);
    PrefixNamesKnown(q, records, i + 1);
    assert q[..i + 1][..i] == q[..i];
  }

  lemma CreditOneKeepsWins(records: Records, reading: Indicator, side: Side, outcome: Outcome)
    requires reading.name in records && WinsWithinTotals(records)
    ensures WinsWithinTotals(CreditOne(records, reading, side, outcome))
  {
  }

  /** `wins / total` for at most `total` wins. */
  lemma RatioAtMostOne(wins: nat, total: nat)
    requires 0 < total && wins <= total
    ensures 0.0 <= wins as real / total as real <= 1.0
  {
    var r := wins as real / total as real;
    assert r * total as real == wins as real;
  }

  function HasName(n: string): Indicator -> bool
  {
    (i: Indicator) => i.name == n
  }

  function CreditedAs(n: string, side: Side, outcome: Outcome): Indicator -> bool
  {
    (i: Indicator) => i.name == n && Credited(i.signal, side, outcome)
  }

  /** Each indicator's record gains one trade per qualifying reading under
      its name, and one win per such reading that is credited. */
  lemma {:induction false} ApplyCreditsCounts(records: Records, q: seq<Indicator>, side: Side, outcome: Outcome, n: string)
    requires NamesKnown(q, records) && n in records
    ensures ApplyCredits(records, q, side, outcome)[n]
      == Record(records[n].wins + |Filter(q, CreditedAs(n, side, outcome))|,
                records[n].total + |Filter(q, HasName(n))|)
  {
    if q != [] {
      var init := q[..|q| - 1];
      var x := q[|q| - 1];
      PrefixNamesKnown(q, records, |q| - 1);
      var credited := CreditedAs(n, side, outcome);
      var named := HasName(n);
      ApplyCreditsCounts(records, init, side, outcome, n);
      var before := ApplyCredits(records, init, side, outcome);
      var won := if credited(x) then 1 else 0;
      var seen := if named(x) then 1 else 0;
      assert ApplyCredits(records, q, side, outcome) == CreditOne(before, x, side, outcome);
      CreditOneAt(before, x, side, outcome, n);
      assert ApplyCredits(records, q, side, outcome)[n] == Record(before[n].wins + won, before[n].total + seen);
      FilterLastCount(q, credited);
      FilterLastCount(q, named);
      assert |Filter(q, credited)| == |Filter(init, credited)| + won;
      assert |Filter(q, named)| == |Filter(init, named)| + seen;
    }
  }

  /** Crediting one reading changes only the record under its name. */
  lemma CreditOneAt(records: Records, reading: Indicator, side: Side, outcome: Outcome, n: string)
    requires reading.name in records && n in records
    ensures CreditOne(records, reading, side, outcome)[n]
      == Record(records[n].wins + (if CreditedAs(n, side, outcome)(reading) then 1 else 0),
                records[n].total + (if HasName(n)(reading) then 1 else 0))
  {
  }

  /** Learning never makes a record's wins exceed its total, never lowers a
      total, and never invents or drops an indicator. */
  lemma LearnStepKeepsRecords(records: Records, isActive: bool, readings: seq<Indicator>, draw: real)
    requires NamesKnown(readings, records) && WinsWithinTotals(records)
    ensures var r := LearnStep(records, isActive, readings, draw);
      r.Keys == records.Keys && WinsWithinTotals(r)
      && forall n :: n in records ==> r[n].total >= records[n].total && r[n].wins >= records[n].wins
  {
    var r := LearnStep(records, isActive, readings, draw);
    var q := Qualifying(readings);
    if isActive && |q| >= MinLearningReadings && TradeDecision(q) != Hold {
      QualifyingNamesKnown(readings, records);
      var side := TradeDecision(q).side;
      var outcome := SimulatedOutcome(q, side, draw);
      forall n | n in records
        ensures r[n].wins <= r[n].total && r[n].total >= records[n].total && r[n].wins >= records[n].wins
      {
        ApplyCreditsCounts(records, q, side, outcome, n);
        FilterImplies(q, CreditedAs(n, side, outcome), HasName(n));
      }
    }
  }

  /** Keeping fewer elements: a filter by a stronger predicate is no longer. */
  lemma {:induction false} FilterImplies<T>(s: seq<T>, p: T -> bool, q: T -> bool)
    requires forall x :: p(x) ==> q(x)
    ensures |Filter(s, p)| <= |Filter(s, q)|
  {
    if s != [] {
      FilterImplies(s[1..], p, q);
    }
  }

  /** Nothing is learned while the robot is inactive, from fewer than two
      qualifying readings, or when they reach no 60% majority. */
  lemma NoLearningWithoutTrade(records: Records, isActive: bool, readings: seq<Indicator>, draw: real)
    requires NamesKnown(readings, records)
    requires !isActive || |Qualifying(readings)| < 2 || TradeDecision(Qualifying(readings)) == Hold
    ensures LearnStep(records, isActive, readings, draw) == records
  {
  }

  /** Crediting one qualifying reading: its record always gains one trade,
      and gains one win after a losing trade exactly when the reading did
      not back the trade's side, and after a winning trade exactly when it
      did; every other record is left alone. */
  lemma CreditRule(records: Records, reading: Indicator, side: Side, outcome: Outcome)
    requires reading.name in records
    ensures var r := ApplyCredits(records, [reading], side, outcome);
      var before := records[reading.name];
      && r[reading.name].total == before.total + 1
      && (outcome == Loss && reading.signal != Directional(side) ==> r[reading.name].wins == before.wins + 1)
      && (outcome == Loss && reading.signal == Directional(side) ==> r[reading.name].wins == before.wins)
      && (outcome == Win && reading.signal == Directional(side) ==> r[reading.name].wins == before.wins + 1)
      && (outcome == Win && reading.signal != Directional(side) ==> r[reading.name].wins == before.wins)
      && forall n :: n in records && n != reading.name ==> r[n] == records[n]
  {
    var q := [reading];
    assert q[..|q| - 1] == [];
    assert ApplyCredits(records, q, side, outcome) == CreditOne(records, reading, side, outcome);
  }

  lemma RoundHundredthsBetween(x: real, lo: int, hi: int)
    requires lo as real / 100.0 <= x <= hi as real / 100.0
    ensures lo as real / 100.0 <= RoundHundredths(x) <= hi as real / 100.0
  {
    var k := Round(x * 100.0);
    assert lo as real <= x * 100.0 <= hi as real;
    assert lo <= k <= hi;
  }

  /** The published accuracy is a percentage, 50 until more than five
      trades are recorded. */
  lemma AccuracyRange(perf: Record)
    requires perf.wins <= perf.total
    ensures 0.0 <= Accuracy(perf) <= 100.0
    ensures perf.total <= MinTradesForAccuracy ==> Accuracy(perf) == 50.0
  {
    var a := RawAccuracy(perf);
    if perf.total > MinTradesForAccuracy {
      RatioAtMostOne(perf.wins, perf.total);
    }
    RoundHundredthsBetween(a, 0, 10000);
    if perf.total <= MinTradesForAccuracy {
      assert Round(50.0 * 100.0) == 5000;
    }
  }

  /** The published weight lies between 0.4 and 1.5; a reading with five
      trades or fewer weighs 0.8, and one with ten or more at least 0.5. */
  lemma WeightRange(perf: Record)
    requires perf.wins <= perf.total
    ensures 0.4 <= Weight(perf) <= 1.5
    ensures perf.total <= MinTradesForAccuracy ==> Weight(perf) == 0.8
    ensures perf.total >= MinTradesForFullWeight ==> Weight(perf) >= 0.5
  {
    var a := RawAccuracy(perf);
    if perf.total > MinTradesForAccuracy {
      RatioAtMostOne(perf.wins, perf.total);
    }
    var w := 0.5 + a / 100.0 * 1.0;
    assert 0.5 <= w <= 1.5;
    if perf.total < MinTradesForFullWeight {
      RoundHundredthsBetween(w * 0.8, 40, 120);
    } else {
      RoundHundredthsBetween(w, 50, 150);
    }
    if perf.total <= MinTradesForAccuracy {
      assert Round(0.8 * 100.0) == 80;
    }
  }
}
