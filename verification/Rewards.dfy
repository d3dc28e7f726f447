/** The reward calculator: basis points of a payment, rolled between two bounds and capped. */
module Rewards {
  import opened Common

  datatype Rule = Rule(name: string, minBps: int, maxBps: int, minAmount: int, cap: int, active: bool)

  datatype Calculation = Calculation(eligible: bool, bps: int, reward: int)

  /** CreateRule's validation. */
  function CreateRule(rule: Rule): (r: Result<Rule>)
    ensures r.Ok? <==> rule.name != "" && 0 <= rule.minBps <= rule.maxBps <= 10000 && rule.cap > 0
  {
    if rule.name == "" then Err(InvalidInput)
    else if rule.minBps < 0 then Err(InvalidInput)
    else if rule.maxBps < rule.minBps then Err(InvalidInput)
    else if rule.maxBps > 10000 then Err(InvalidInput)
    else if rule.cap <= 0 then Err(InvalidInput)
    else Ok(rule)
  }

  predicate Accepted(rule: Rule) {
    CreateRule(rule).Ok?
  }

  /** The rolled rate, held between the bounds. */
  function Rate(rule: Rule, roll: int): int {
    var low := if roll < rule.minBps then rule.minBps else roll;
    if low > rule.maxBps then rule.maxBps else low
  }

  /** CalculateReward; roll is whatever the roll function returned. */
  function Calculate(amount: int, rule: Rule, roll: int): Calculation {
    if !rule.active || amount <= 0 || amount < rule.minAmount then Calculation(false, 0, 0)
    else
      var bps := Rate(rule, roll);
      var share := TruncDiv(WrapInt64(amount * bps), 10000);
      var reward := if share > rule.cap then rule.cap else share;
      if reward <= 0 then Calculation(false, bps, 0) else Calculation(true, bps, reward)
  }

  const SAFE_AMOUNT := MAX_INT64 / 10000

  lemma ProductBound(a: int, b: int, c: int)
    requires 0 <= a && 0 <= b <= c
    ensures 0 <= a * b <= a * c
  {
  }

  /** The multiplication fits int64 for every accepted rule and every roll exactly when the amount is at most the
      largest int64 divided by ten thousand. */
  lemma FitsIff(amount: int)
    requires amount > 0
    ensures (forall rule, roll | Accepted(rule) :: IsInt64(amount * Rate(rule, roll))) <==> amount <= SAFE_AMOUNT
  {
    if amount <= SAFE_AMOUNT {
      forall rule, roll | Accepted(rule) ensures IsInt64(amount * Rate(rule, roll)) {
        ProductBound(amount, Rate(rule, roll), 10000);
      }
    } else {
      var full := Rule("full", 10000, 10000, 0, 1, true);
      assert Accepted(full) && Rate(full, 0) == 10000;
      assert !IsInt64(amount * Rate(full, 0));
    }
  }

  /** Beyond the bound the product can come out negative and the reward is refused. */
  lemma WrapsToNothing()
    ensures var full := Rule("full", 10000, 10000, 0, 1000, true);
            Accepted(full) && !Calculate(SAFE_AMOUNT + 1, full, 10000).eligible
  {
  }

  /** The exact share, rounded down. */
  function Share(amount: int, rule: Rule, roll: int): int {
    amount * Rate(rule, roll) / 10000
  }

  /** For accepted rules and amounts in range: who is paid, and exactly how much. The rate lies between the bounds,
      and a reward is positive, at most the cap, at most the largest rate's share, and never more than the payment. */
  lemma RewardIs(amount: int, rule: Rule, roll: int)
    requires Accepted(rule) && amount <= SAFE_AMOUNT
    ensures var c := Calculate(amount, rule, roll);
            && (c.eligible <==> rule.active && amount > 0 && amount >= rule.minAmount && amount * Rate(rule, roll) >= 10000)
            && rule.minBps <= Rate(rule, roll) <= rule.maxBps
            && (c.eligible ==>
                  && c.bps == Rate(rule, roll)
                  && c.reward == (if Share(amount, rule, roll) <= rule.cap then Share(amount, rule, roll) else rule.cap)
                  && 0 < c.reward <= rule.cap
                  && c.reward <= amount * rule.maxBps / 10000 <= amount)
            && (!c.eligible ==> c.reward == 0)
  {
    if amount > 0 {
      ProductBound(amount, Rate(rule, roll), rule.maxBps);
      ProductBound(amount, rule.maxBps, 10000);
    }
  }

  lemma ShareMonotone(a: int, b: int, rate: int)
    requires a <= b && 0 <= rate
    ensures a * rate / 10000 <= b * rate / 10000
  {
    ProductBound(rate, 0, b - a);
    assert b * rate == a * rate + rate * (b - a);
  }

  /** With the same roll, a larger payment never earns less. */
  lemma RewardMonotone(a: int, b: int, rule: Rule, roll: int)
    requires Accepted(rule) && a <= b <= SAFE_AMOUNT
    ensures Calculate(a, rule, roll).reward <= Calculate(b, rule, roll).reward
  {
    RewardIs(a, rule, roll);
    RewardIs(b, rule, roll);
    ShareMonotone(a, b, Rate(rule, roll));
  }

  // ---- Splitting a payment ----

  function Total(parts: seq<int>): int {
    if parts == [] then 0 else Total(parts[..|parts| - 1]) + parts[|parts| - 1]
  }

  function TotalReward(parts: seq<int>, rule: Rule, roll: int): int {
    if parts == [] then 0
    else TotalReward(parts[..|parts| - 1], rule, roll) + Calculate(parts[|parts| - 1], rule, roll).reward
  }

  lemma SharesAdd(a: int, b: int, rate: int)
    requires a >= 0 && b >= 0 && rate >= 0
    ensures 0 <= a * rate / 10000 && 0 <= b * rate / 10000
    ensures a * rate / 10000 + b * rate / 10000 <= (a + b) * rate / 10000
  {
  }

  lemma {:induction false} PartsEarnAtMost(parts: seq<int>, rule: Rule, roll: int)
    requires Accepted(rule) && (forall p | p in parts :: p > 0) && Total(parts) <= SAFE_AMOUNT
    ensures 0 <= TotalReward(parts, rule, roll) <= Share(Total(parts), rule, roll)
    ensures Total(parts) >= 0 && (forall p | p in parts :: p <= Total(parts))
    ensures !Calculate(Total(parts), rule, roll).eligible && Share(Total(parts), rule, roll) > 0 ==> TotalReward(parts, rule, roll) == 0
  {
    hide Calculate;
    if parts != [] {
      var init, p := parts[..|parts| - 1], parts[|parts| - 1];
      assert p in parts;
      assert forall x | x in init :: x in parts;
      PartsEarnAtMost(init, rule, roll);
      RewardIs(p, rule, roll);
      RewardIs(Total(init), rule, roll);
      RewardIs(Total(parts), rule, roll);
      SharesAdd(Total(init), p, Rate(rule, roll));
      assert parts == init + [p];
    }
  }

  predicate Splits(parts: seq<int>, total: int) {
    (forall p | p in parts :: p > 0) && Total(parts) == total
  }

  /** The parts are paid more than the whole. */
  predicate Gains(parts: seq<int>, rule: Rule, roll: int) {
    TotalReward(parts, rule, roll) > Calculate(Total(parts), rule, roll).reward
  }

  /** A payment whose exact share is within the cap is never worth splitting; beyond it, a split that gains beats the cap. */
  lemma GainBeatsCap(parts: seq<int>, rule: Rule, roll: int)
    requires Accepted(rule) && Splits(parts, Total(parts)) && Total(parts) <= SAFE_AMOUNT
    ensures Share(Total(parts), rule, roll) <= rule.cap ==> !Gains(parts, rule, roll)
    ensures Gains(parts, rule, roll) <==> TotalReward(parts, rule, roll) > rule.cap
  {
    hide Calculate;
    PartsEarnAtMost(parts, rule, roll);
    RewardIs(Total(parts), rule, roll);
  }

  /** The least payment that earns a reward of f, for f up to the cap. */
  function Least(rule: Rule, roll: int, f: int): int
    requires Rate(rule, roll) > 0
  {
    var exact := (10000 * f + Rate(rule, roll) - 1) / Rate(rule, roll);
    if exact < rule.minAmount then rule.minAmount else exact
  }

  lemma CeilingIff(amount: int, rate: int, f: int)
    requires rate > 0
    ensures amount * rate / 10000 >= f <==> amount >= (10000 * f + rate - 1) / rate
  {
    var c := (10000 * f + rate - 1) / rate;
    assert c * rate >= 10000 * f > (c - 1) * rate by {
      assert c * rate + (10000 * f + rate - 1) % rate == 10000 * f + rate - 1;
    }
    if amount >= c {
      ProductBound(rate, 0, amount - c);
      assert amount * rate == c * rate + rate * (amount - c);
    } else {
      ProductBound(rate, 0, c - 1 - amount);
      assert (c - 1) * rate == amount * rate + rate * (c - 1 - amount);
    }
  }

  lemma LeastIsPositive(rule: Rule, roll: int, f: int)
    requires Rate(rule, roll) > 0 && f > 0
    ensures Least(rule, roll, f) > 0
  {
    CeilingIff(0, Rate(rule, roll), f);
  }

  /** A payment earns at least f exactly from that amount on. */
  lemma EarnsIff(amount: int, rule: Rule, roll: int, f: int)
    requires Accepted(rule) && rule.active && amount <= SAFE_AMOUNT && 1 <= f <= rule.cap && Rate(rule, roll) > 0
    ensures Calculate(amount, rule, roll).reward >= f <==> amount >= Least(rule, roll, f)
  {
    hide Calculate;
    RewardIs(amount, rule, roll);
    CeilingIff(amount, Rate(rule, roll), f);
    LeastIsPositive(rule, roll, f);
  }

  /** Two parts that earn f and what is missing to more than the cap. */
  predicate Halves(total: int, rule: Rule, roll: int, f: int)
    requires Rate(rule, roll) > 0
  {
    1 <= f <= rule.cap && Least(rule, roll, f) + Least(rule, roll, rule.cap + 1 - f) <= total
  }

  /** Whatever the number of parts, parts that beat the cap leave room for two that do. */
  lemma {:induction false} TwoPartsSuffice(parts: seq<int>, rule: Rule, roll: int) returns (f: int)
    requires Accepted(rule) && rule.active && Rate(rule, roll) > 0 && (forall p | p in parts :: p > 0) && Total(parts) <= SAFE_AMOUNT
    requires TotalReward(parts, rule, roll) > rule.cap
    ensures Halves(Total(parts), rule, roll, f)
  {
    hide Calculate, Least, Share;
    var init, p := parts[..|parts| - 1], parts[|parts| - 1];
    assert p in parts;
    assert forall x | x in init :: x in parts;
    PartsEarnAtMost(init, rule, roll);
    if TotalReward(init, rule, roll) > rule.cap {
      f := TwoPartsSuffice(init, rule, roll);
    } else {
      var g := Calculate(p, rule, roll).reward;
      f := rule.cap + 1 - g;
      RewardIs(p, rule, roll);
      EarnsIff(p, rule, roll, g);
      TogetherEarn(init, rule, roll);
      EarnsIff(Total(init), rule, roll, f);
    }
  }

  /** What parts within the cap earn together, their sum earns at once. */
  lemma TogetherEarn(parts: seq<int>, rule: Rule, roll: int)
    requires Accepted(rule) && (forall p | p in parts :: p > 0) && Total(parts) <= SAFE_AMOUNT
    requires TotalReward(parts, rule, roll) <= rule.cap
    ensures Calculate(Total(parts), rule, roll).reward >= TotalReward(parts, rule, roll)
  {
    hide Calculate;
    PartsEarnAtMost(parts, rule, roll);
    RewardIs(Total(parts), rule, roll);
  }

  lemma {:induction false} NothingEarned(parts: seq<int>, rule: Rule, roll: int)
    requires Accepted(rule) && (!rule.active || Rate(rule, roll) == 0)
    ensures TotalReward(parts, rule, roll) == 0
  {
    if parts != [] {
      NothingEarned(parts[..|parts| - 1], rule, roll);
    }
  }

  /** Exactly when some split of a payment is paid more than the payment: the rule pays at all, and the payment is large
      enough for two parts that together earn one more than the cap. */
  lemma SomeSplitGainsIff(total: int, rule: Rule, roll: int)
    requires Accepted(rule) && 0 < total <= SAFE_AMOUNT
    ensures (exists parts :: Splits(parts, total) && Gains(parts, rule, roll))
       <==> rule.active && Rate(rule, roll) > 0 && exists f :: Halves(total, rule, roll, f)
  {
    hide Calculate, Least, Gains;
    if parts :| Splits(parts, total) && Gains(parts, rule, roll) {
      GainBeatsCap(parts, rule, roll);
      if !rule.active || Rate(rule, roll) == 0 {
        NothingEarned(parts, rule, roll);
      }
      var f := TwoPartsSuffice(parts, rule, roll);
      assert Halves(total, rule, roll, f);
    }
    if rule.active && Rate(rule, roll) > 0 {
      if f :| Halves(total, rule, roll, f) {
        SplitInTwo(total, rule, roll, f);
      }
    }
  }

  /** The split that gains. */
  lemma SplitInTwo(total: int, rule: Rule, roll: int, f: int)
    requires Accepted(rule) && rule.active && 0 < total <= SAFE_AMOUNT && Rate(rule, roll) > 0 && Halves(total, rule, roll, f)
    ensures var parts := [Least(rule, roll, f), total - Least(rule, roll, f)]; Splits(parts, total) && Gains(parts, rule, roll)
  {
    hide Calculate, Least;
    var a := Least(rule, roll, f);
    var parts := [a, total - a];
    LeastIsPositive(rule, roll, f);
    LeastIsPositive(rule, roll, rule.cap + 1 - f);
    EarnsIff(a, rule, roll, f);
    EarnsIff(total - a, rule, roll, rule.cap + 1 - f);
    RewardIs(total, rule, roll);
    assert parts[..1] == [a] && [a][..0] == [];
    assert Total(parts) == Total([a]) + (total - a) && Total([a]) == a;
    assert TotalReward([a], rule, roll) == TotalReward([], rule, roll) + Calculate(a, rule, roll).reward;
  }
}
