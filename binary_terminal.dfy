/**
 * The binary-options terminal: the automatic entry rule that turns the
 * enabled indicator readings and the user's entry configuration into a
 * CALL or PUT order, the stake and expiration computations it uses, and the
 * swap between the active contract and the last result on contract updates.
 */
module BinaryTerminal {
  import opened Common

  /** Any stake type other than 'percentage' behaves as a fixed stake. */
  datatype StakeType = Fixed | Percentage

  datatype MartingaleConfig = MartingaleConfig(enabled: bool, multiplier: real, maxLevels: int)

  datatype EntryConfig = EntryConfig(
    stakeAmount: real,
    stakeType: StakeType,
    expiration: string,
    minConfidence: real,
    martingale: MartingaleConfig)

  const DefaultEntryConfig: EntryConfig :=
    EntryConfig(10.0, Fixed, "1m", 75.0, MartingaleConfig(false, 2.2, 3))

  /** The broker's minimum stake. */
  const MinimumStake: real := 0.35

  datatype ContractType = Call | Put

  /** The `buyContract` call the entry rule makes. */
  datatype Order = Order(symbol: string, stake: real, expirationMinutes: int, contractType: ContractType)

  // ---------------------------------------------------------------------
  // Direction

  function Enabled(indicators: seq<Indicator>): seq<Indicator>
  {
    Filter(indicators, IsEnabled)
  }

  function AverageConfidence(enabled: seq<Indicator>): real
    requires |enabled| > 0
  {
    SumConfidence(enabled) as real / |enabled| as real
  }

  /** CALL when buys outnumber sells, PUT when sells outnumber buys, once
      the average confidence reaches the configured minimum. */
  function Direction(enabled: seq<Indicator>, minConfidence: real): (r: Option<ContractType>)
    requires |enabled| > 0
    ensures r.Some? ==> AverageConfidence(enabled) >= minConfidence
    ensures r == Some(Call) <==>
      (AverageConfidence(enabled) >= minConfidence
       && CountOf(enabled, SignalOf, Directional(Buy)) > CountOf(enabled, SignalOf, Directional(Sell)))
    ensures r == Some(Put) <==>
      (AverageConfidence(enabled) >= minConfidence
       && CountOf(enabled, SignalOf, Directional(Sell)) > CountOf(enabled, SignalOf, Directional(Buy)))
  {
    var buy := CountOf(enabled, SignalOf, Directional(Buy));
    var sell := CountOf(enabled, SignalOf, Directional(Sell));
    if AverageConfidence(enabled) >= minConfidence then
      if buy > sell then Some(Call) else if sell > buy then Some(Put) else None
    else None
  }

  // ---------------------------------------------------------------------
  // Stake

  /** The stake before rounding: the configured amount, or a percentage of
      a known positive balance with the broker's minimum as a floor, or the
      minimum itself when the balance is unknown or not positive. */
  function RawStake(config: EntryConfig, balance: Option<real>): real
  {
    if config.stakeType == Percentage then
      if balance.Some? && balance.value > 0.0 then Max(balance.value * config.stakeAmount / 100.0, MinimumStake)
      else MinimumStake
    else config.stakeAmount
  }

  /** `parseFloat(stake.toFixed(2))` */
  function Stake(config: EntryConfig, balance: Option<real>): (r: real)
    ensures -0.005 <= r - RawStake(config, balance) <= 0.005
  {
    RoundTo2(RawStake(config, balance))
  }

  lemma RoundTo2AtLeast(x: real, k: int)
    requires 0 <= k && x >= k as real / 100.0
    ensures RoundTo2(x) >= k as real / 100.0
  {
    assert x * 100.0 >= k as real;
    assert Round(x * 100.0) >= k;
  }

  /** The stake is a whole number of cents. A percentage stake is that
      share of a positive balance, floored at the broker's minimum, to
      within half a cent, and exactly the minimum without a positive
      balance; a fixed stake is the configured amount to within half a
      cent. */
  lemma StakeRule(config: EntryConfig, balance: Option<real>)
    ensures (Stake(config, balance) * 100.0).Floor as real == Stake(config, balance) * 100.0
    ensures config.stakeType == Percentage ==> Stake(config, balance) >= MinimumStake
    ensures config.stakeType == Percentage && balance.Some? && balance.value > 0.0 ==>
      -0.005 <= Stake(config, balance) - Max(balance.value * config.stakeAmount / 100.0, MinimumStake) <= 0.005
    ensures config.stakeType == Percentage && !(balance.Some? && balance.value > 0.0) ==>
      Stake(config, balance) == MinimumStake
    ensures config.stakeType == Fixed ==> -0.005 <= Stake(config, balance) - config.stakeAmount <= 0.005
  {
    var raw := RawStake(config, balance);
    assert Stake(config, balance) == RoundTo2(raw);
    if config.stakeType == Percentage {
      if balance.Some? && balance.value > 0.0 {
        assert raw == Max(balance.value * config.stakeAmount / 100.0, MinimumStake);
        RoundTo2AtLeast(raw, 35);
      } else {
        assert raw == MinimumStake;
        assert Round(MinimumStake * 100.0) == 35;
      }
    }
  }

  // ---------------------------------------------------------------------
  // Expiration: `parseInt(expiration.replace('m', ''))`

  /** The position of the first occurrence of `c` in `s`. */
  function IndexOf(s: string, c: char): (i: nat)
    requires c in s
    ensures i < |s| && s[i] == c && c !in s[..i]
  {
    if s[0] == c then 0
    else
      var j := IndexOf(s[1..], c);
      assert s[..j + 1] == [s[0]] + s[1..][..j];
      j + 1
  }

  /** `s.replace(c, '')`: drops the first occurrence of `c` only. */
  function RemoveFirst(s: string, c: char): (r: string)
    ensures |r| == if c in s then |s| - 1 else |s|
  {
    if s == [] then []
    else if s[0] == c then s[1..]
    else [s[0]] + RemoveFirst(s[1..], c)
  }

  /** Without `c` the text is unchanged; otherwise exactly the character
      at the first position holding `c` is gone. */
  lemma {:induction false} RemoveFirstSpec(s: string, c: char)
    ensures c !in s ==> RemoveFirst(s, c) == s
    ensures c in s ==> RemoveFirst(s, c) == s[..IndexOf(s, c)] + s[IndexOf(s, c) + 1..]
  {
    if s != [] && s[0] != c {
      RemoveFirstSpec(s[1..], c);
      assert c in s ==> c in s[1..];
      assert c in s[1..] ==> s[..IndexOf(s, c)] == [s[0]] + s[1..][..IndexOf(s[1..], c)];
      assert s[1..] == s[1..][0..];
      if c in s {
        assert s[IndexOf(s, c) + 1..] == s[1..][IndexOf(s[1..], c) + 1..];
      } else {
        assert s == [s[0]] + s[1..];
      }
    }
  }

  /** The white space `parseInt` skips: the ASCII white space characters,
      the no-break space, the byte-order mark and the line and paragraph
      separators. */
  predicate IsWhiteSpace(c: char)
  {
    c == ' ' || c == '\t' || c == '\n' || c == '\r' || c == '\U{B}' || c == '\U{C}'
    || c == '\U{A0}' || c == '\U{FEFF}' || c == '\U{2028}' || c == '\U{2029}'
  }

  /** `trimStart`: the leading white space dropped. */
  function TrimStart(s: string): (r: string)
    ensures |r| <= |s|
    ensures r != [] ==> !IsWhiteSpace(r[0])
  {
    if s != [] && IsWhiteSpace(s[0]) then TrimStart(s[1..]) else s
  }

  /** What remains is a suffix of the text, everything dropped before it
      is white space, and it does not itself start with white space. */
  lemma {:induction false} TrimStartSpec(s: string)
    ensures var r := TrimStart(s);
      && |r| <= |s| && r == s[|s| - |r|..]
      && (forall i :: 0 <= i < |s| - |r| ==> IsWhiteSpace(s[i]))
      && (r != [] ==> !IsWhiteSpace(r[0]))
  {
    if s != [] && IsWhiteSpace(s[0]) {
      TrimStartSpec(s[1..]);
      var r := TrimStart(s);
      assert forall i :: 1 <= i < |s| - |r| ==> s[i] == s[1..][i - 1];
    }
  }

  predicate IsDigit(c: char, radix: nat)
  {
    ('0' <= c <= '9') || (radix == 16 && (('a' <= c <= 'f') || ('A' <= c <= 'F')))
  }

  function DigitValue(c: char): nat
  {
    if '0' <= c <= '9' then c as nat - '0' as nat
    else if 'a' <= c <= 'f' then c as nat - 'a' as nat + 10
    else if 'A' <= c <= 'F' then c as nat - 'A' as nat + 10
    else 0
  }

  /** The length of the longest prefix of digits. */
  function DigitPrefix(s: string, radix: nat): (n: nat)
    ensures n <= |s|
    ensures forall i :: 0 <= i < n ==> IsDigit(s[i], radix)
    ensures n < |s| ==> !IsDigit(s[n], radix)
  {
    if s != [] && IsDigit(s[0], radix) then 1 + DigitPrefix(s[1..], radix) else 0
  }

  /** The value of a string of digits, most significant first. */
  function DigitsValue(s: string, radix: nat): nat
  {
    if s == [] then 0 else DigitsValue(s[..|s| - 1], radix) * radix + DigitValue(s[|s| - 1])
  }

  /** The digits after the sign: hexadecimal after a `0x`/`0X` prefix,
      decimal otherwise; the longest run of digits counts, and none gives
      NaN (`None`). */
  function ParseUnsigned(u: string): Option<nat>
  {
    var hex := |u| >= 2 && u[0] == '0' && (u[1] == 'x' || u[1] == 'X');
    var radix: nat := if hex then 16 else 10;
    var body := if hex then u[2..] else u;
    var n := DigitPrefix(body, radix);
    if n == 0 then None else Some(DigitsValue(body[..n], radix))
  }

  /** JavaScript's `parseInt` without a radix: leading white space, an
      optional sign, then the unsigned part. */
  function ParseInt(s: string): (r: Option<int>)
    ensures r.Some? ==> TrimStart(s) != []
    ensures r.Some? && r.value < 0 ==> TrimStart(s)[0] == '-'
  {
    var t := TrimStart(s);
    var negative := t != [] && t[0] == '-';
    var unsigned := if t != [] && (t[0] == '-' || t[0] == '+') then t[1..] else t;
    var v := ParseUnsigned(unsigned);
    if v.None? then None else Some(if negative then -(v.value as int) else v.value)
  }

  function ParseExpiration(expiration: string): Option<int>
  {
    ParseInt(RemoveFirst(expiration, 'm'))
  }

  /** A usable expiration is a number of minutes above zero. */
  function ExpirationMinutes(expiration: string): (r: Option<int>)
    ensures r.Some? ==> r.value > 0
    ensures r.Some? <==> ParseExpiration(expiration).Some? && ParseExpiration(expiration).value > 0
  {
    var p := ParseExpiration(expiration);
    if p.Some? && p.value > 0 then p else None
  }

  /** The decimal numeral of `n`. */
  function Numeral(n: nat): (s: string)
    ensures |s| > 0
    ensures forall i :: 0 <= i < |s| ==> '0' <= s[i] <= '9'
  {
    var d := ['0' + (n % 10) as char];
    if n < 10 then d else Numeral(n / 10) + d
  }

  lemma {:induction false} NumeralValue(n: nat)
    ensures DigitsValue(Numeral(n), 10) == n
  {
    var s := Numeral(n);
    if n >= 10 {
      NumeralValue(n / 10);
      assert s[..|s| - 1] == Numeral(n / 10);
    }
  }

  lemma {:induction false} RemoveFirstAppended(s: string, c: char)
    requires c !in s
    ensures RemoveFirst(s + [c], c) == s
  {
    if s != [] {
      assert (s + [c])[1..] == s[1..] + [c];
      RemoveFirstAppended(s[1..], c);
    }
  }

  lemma {:induction false} DigitPrefixAll(s: string, radix: nat)
    requires forall i :: 0 <= i < |s| ==> IsDigit(s[i], radix)
    ensures DigitPrefix(s, radix) == |s|
  {
    if s != [] {
      DigitPrefixAll(s[1..], radix);
    }
  }

  /** A non-empty run of decimal digits parses to its value. */
  lemma ParseDecimal(s: string)
    requires |s| > 0 && forall i :: 0 <= i < |s| ==> '0' <= s[i] <= '9'
    ensures ParseInt(s) == Some(DigitsValue(s, 10))
  {
    assert !IsWhiteSpace(s[0]);
    assert TrimStart(s) == s;
    assert s[0] != '-' && s[0] != '+';
    assert ParseUnsigned(s) == Some(DigitsValue(s, 10)) by {
      assert !(|s| >= 2 && (s[1] == 'x' || s[1] == 'X'));
      DigitPrefixAll(s, 10);
      assert s[..|s|] == s;
    }
  }

  /** Decimal digits worth more than zero, followed by "m", read back as
      that many minutes. */
  lemma DigitsExpiration(s: string)
    requires |s| > 0 && forall i :: 0 <= i < |s| ==> '0' <= s[i] <= '9'
    requires DigitsValue(s, 10) > 0
    ensures ExpirationMinutes(s + "m") == Some(DigitsValue(s, 10))
  {
    assert 'm' !in s by {
      forall i | 0 <= i < |s| ensures s[i] != 'm' {
      }
    }
    RemoveFirstAppended(s, 'm');
    ParseDecimal(s);
  }

  /** An expiration written as a positive number of minutes followed by
      "m" reads back as that number. */
  lemma ExpirationRoundTrip(n: nat)
    requires n > 0
    ensures ExpirationMinutes(Numeral(n) + "m") == Some(n)
  {
    NumeralValue(n);
    DigitsExpiration(Numeral(n));
  }

  lemma ExpirationExamples()
    ensures ExpirationMinutes("1m") == Some(1)
    ensures ExpirationMinutes("15m") == Some(15)
  {
    var one, fifteen := "1", "15";
    assert DigitsValue(one, 10) == 1;
    DigitsExpiration(one);
    assert one + "m" == "1m";
    assert fifteen[..1] == one;
    assert DigitsValue(fifteen, 10) == 15;
    DigitsExpiration(fifteen);
    assert fifteen + "m" == "15m";
  }

  /** "m" has no digits, and "0m" and "-2m" are not positive. */
  lemma RejectedExpirations()
    ensures ExpirationMinutes("m") == None
    ensures ExpirationMinutes("0m") == None
    ensures ExpirationMinutes("-2m") == None
  {
    assert RemoveFirst("m", 'm') == "";
    assert ParseInt("") == None;
    assert RemoveFirst("0m", 'm') == "0";
    ParseDecimal("0");
    NegativeExpiration();
  }

  lemma NegativeExpiration()
    ensures ParseExpiration("-2m") == Some(-2)
  {
    assert RemoveFirst("-2m", 'm') == "-2";
    var t := "-2";
    assert !IsWhiteSpace(t[0]);
    assert TrimStart(t) == t;
    assert t[1..] == "2";
    assert ParseUnsigned("2") == Some(2) by {
      DigitPrefixAll("2", 10);
      assert "2"[..1] == "2";
      assert DigitsValue("2", 10) == DigitsValue("", 10) * 10 + 2;
    }
  }

  // ---------------------------------------------------------------------
  // The entry rule

  /** The order the entry effect places, if any. */
  function EntryOrder(isActive: bool, hasActiveContract: bool, brokerConnected: bool, indicators: seq<Indicator>,
                      config: EntryConfig, balance: Option<real>, symbol: string): (o: Option<Order>)
    ensures o.Some? ==> isActive && !hasActiveContract && brokerConnected
    ensures o.Some? ==> o.value.symbol == symbol && o.value.stake == Stake(config, balance) && o.value.stake > 0.0
  {
    if !isActive || hasActiveContract || !brokerConnected then None
    else
      var enabled := Enabled(indicators);
      if |enabled| == 0 then None
      else
        var direction := Direction(enabled, config.minConfidence);
        if direction.None? then None
        else
          var stake := Stake(config, balance);
          var minutes := ExpirationMinutes(config.expiration);
          if stake <= 0.0 || minutes.None? then None
          else Some(Order(symbol, stake, minutes.value, direction.value))
  }

  /** An order is placed exactly when the robot is on, no contract is
      active, the broker is connected, some indicator is enabled, the
      enabled readings' average confidence reaches the minimum, one side
      has strictly more signals, the rounded stake is positive and the
      expiration is a positive number of minutes; it buys CALL when buys
      lead and PUT when sells lead. */
  lemma EntryRule(isActive: bool, hasActiveContract: bool, brokerConnected: bool, indicators: seq<Indicator>,
                  config: EntryConfig, balance: Option<real>, symbol: string)
    ensures var o := EntryOrder(isActive, hasActiveContract, brokerConnected, indicators, config, balance, symbol);
      var enabled := Enabled(indicators);
      var buy := CountOf(enabled, SignalOf, Directional(Buy));
      var sell := CountOf(enabled, SignalOf, Directional(Sell));
      && (o.Some? <==>
            isActive && !hasActiveContract && brokerConnected && |enabled| > 0
            && AverageConfidence(enabled) >= config.minConfidence && buy != sell
            && Stake(config, balance) > 0.0 && ExpirationMinutes(config.expiration).Some?)
      && (o.Some? ==>
            && o.value == Order(symbol, Stake(config, balance), ExpirationMinutes(config.expiration).value,
                                if buy > sell then Call else Put)
            && o.value.expirationMinutes > 0)
  {
  }

  /** A contract as the broker's updates describe it. */
  datatype Contract = Contract(contractId: int, isOpen: bool, profit: real)

  /** The terminal page's trading state. */
  class Terminal {
    var activeContract: Option<Contract>
    var lastTradeResult: Option<Contract>

    predicate Valid()
      reads this
    {
      !(activeContract.Some? && lastTradeResult.Some?)
    }

    constructor ()
      ensures activeContract == None && lastTradeResult == None
      ensures Valid()
    {
      activeContract := None;
      lastTradeResult := None;
    }

    /** A contract update: a closed contract becomes the last result and
        clears the active one; an open one becomes active and clears the
        last result. */
    method HandleTradeUpdate(contract: Contract)
      modifies this
      ensures !contract.isOpen ==> lastTradeResult == Some(contract) && activeContract == None
      ensures contract.isOpen ==> activeContract == Some(contract) && lastTradeResult == None
      ensures Valid()
    {
      if !contract.isOpen {
        lastTradeResult := Some(contract);
        activeContract := None;
      } else {
        activeContract := Some(contract);
        lastTradeResult := None;
      }
    }
  }
}
