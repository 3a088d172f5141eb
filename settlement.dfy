/**
 * The prize-distribution engine of settlement.ts: three payout formulas
 * (equal share at the maximum hit count, tiered weights, fixed table) and the
 * dispatcher that picks one by name.
 *
 * Every amount is an integer number of minor units (10^-6 of the settlement
 * currency), the `bigint` values the source computes with.  The conversions
 * `toMinor`/`fromMinor` are the boundary of the model: inputs arrive already
 * in minor units and results are reported in minor units.
 */
module Settlement {
  import opened Wrappers

  /** One entry of `hitsByUser`: a user's (best) hit count in the draw. */
  datatype UserHits = UserHits(userId: int, wallet: string, hits: int)

  /** One prize, `amount` in minor units. */
  datatype Payout = Payout(userId: int, wallet: string, amount: int, hits: int)

  datatype FormulaName = EqualShare | Tiered | Fixed

  type Positive = n: int | n > 0 witness 1

  /** An exact fraction standing for the floating-point `prizePoolPct`. */
  datatype Ratio = Ratio(num: nat, den: Positive)

  /**
   * The formula parameters; an absent field is `None` and takes the default
   * the formula applies with `??`.  Weight and prize tables are keyed by hit
   * count.
   */
  datatype Params = Params(
    prizePoolPct: Option<Ratio>,
    weights: Option<map<nat, int>>,
    minHits: Option<int>,
    fixed: Option<map<nat, int>>)

  /** `totalBank` is in minor units. */
  datatype SettlementInput = SettlementInput(
    drawId: string,
    totalBank: nat,
    maxHitsInDraw: int,
    hitsByUser: seq<UserHits>)

  datatype SettlementResult = SettlementResult(
    formulaName: FormulaName,
    formulaVersion: string,
    formulaParams: Params,
    prizePool: int,
    payouts: seq<Payout>,
    leftover: int,
    maxHitsInDraw: int)

  datatype Error = InvalidParams(formula: FormulaName) | UnknownFormula(name: string)

  const FormulaVersion: string := "1.0.0"
  const DefaultPrizePoolPct: Ratio := Ratio(90, 100)
  const DefaultWeights: map<nat, int> := map[15 := 70, 14 := 20, 13 := 10]

  const EqualShareKey: string := "MAX_HITS_EQUAL_SHARE"
  const TieredKey: string := "TIERED_WEIGHTS"
  const FixedKey: string := "FIXED_TABLE"

  function Key(f: FormulaName): string {
    match f
    case EqualShare => EqualShareKey
    case Tiered => TieredKey
    case Fixed => FixedKey
  }

  // ---------------------------------------------------------------------------
  // Pool, winner groups and payout lists
  // ---------------------------------------------------------------------------

  /**
   * `toMinor(totalBank * prizePoolPct)` for a bank already in minor units:
   * `Math.round` of the exact product, halves rounded up.
   */
  function PrizePool(bank: nat, pct: Ratio): (pool: nat)
    ensures 2 * bank * pct.num - pct.den < 2 * pct.den * pool <= 2 * bank * pct.num + pct.den
  {
    (2 * bank * pct.num + pct.den) / (2 * pct.den)
  }

  /** A percentage of at most 100% never makes a pool larger than the bank. */
  lemma PrizePoolWithinBank(bank: nat, pct: Ratio)
    requires pct.num <= pct.den
    ensures PrizePool(bank, pct) <= bank
  {
    var pool, n, d := PrizePool(bank, pct), pct.num, pct.den;
    MulMono(2 * bank, n, d);
    if pool > bank {
      MulMono(2 * d, bank + 1, pool);
      MulDist(2 * d, bank, 1);
      assert false;
    }
  }

  function Pct(params: Params): Ratio {
    params.prizePoolPct.GetOr(DefaultPrizePoolPct)
  }

  /** `hitsByUser.filter(u => u.hits === h)`: the winners at level `h`, in input order. */
  function Winners(users: seq<UserHits>, h: int): seq<UserHits> {
    if users == [] then []
    else (if users[0].hits == h then [users[0]] else []) + Winners(users[1..], h)
  }

  /** The winners at `h` are exactly the entries with `h` hits. */
  lemma {:induction false} WinnersSpec(users: seq<UserHits>, h: int)
    ensures |Winners(users, h)| <= |users|
    ensures forall u :: u in Winners(users, h) <==> u in users && u.hits == h
  {
    if users != [] {
      WinnersSpec(users[1..], h);
      assert users == [users[0]] + users[1..];
    }
  }

  // Arithmetic facts kept apart so that the solver sees only a few products at once.

  lemma MulMono(a: int, b: int, c: int)
    requires a >= 0 && b <= c
    ensures a * b <= a * c
  {
  }

  lemma MulDist(a: int, b: int, c: int)
    ensures a * (b + c) == a * b + a * c
  {
  }

  lemma MulAssoc(a: int, b: int, c: int)
    ensures a * (b * c) == a * b * c
  {
  }

  lemma FloorSplit(pool: int, n: int)
    requires pool >= 0 && n > 0
    ensures 0 <= pool - (pool / n) * n < n
    ensures pool / n >= 0
  {
  }

  /** One payout of `amount` at level `hits` for each member of `group`, in order. */
  function PayoutsFor(group: seq<UserHits>, hits: int, amount: int): seq<Payout> {
    if group == [] then []
    else
      var w := group[|group| - 1];
      PayoutsFor(group[..|group| - 1], hits, amount) + [Payout(w.userId, w.wallet, amount, hits)]
  }

  lemma {:induction false} PayoutsForSpec(group: seq<UserHits>, hits: int, amount: int)
    ensures |PayoutsFor(group, hits, amount)| == |group|
    ensures forall i :: 0 <= i < |group| ==>
      PayoutsFor(group, hits, amount)[i] == Payout(group[i].userId, group[i].wallet, amount, hits)
  {
    if group != [] {
      var init := group[..|group| - 1];
      PayoutsForSpec(init, hits, amount);
      forall i | 0 <= i < |group| - 1 ensures group[i] == init[i] { }
    }
  }

  /** The sum of the amounts of a payout list. */
  function Sum(ps: seq<Payout>): int {
    if ps == [] then 0 else ps[0].amount + Sum(ps[1..])
  }

  /** The payouts of a list that were made at level `h`. */
  function AtLevel(ps: seq<Payout>, h: int): seq<Payout> {
    if ps == [] then []
    else (if ps[0].hits == h then [ps[0]] else []) + AtLevel(ps[1..], h)
  }

  lemma {:induction false} SumAppend(a: seq<Payout>, b: seq<Payout>)
    ensures Sum(a + b) == Sum(a) + Sum(b)
  {
    if a == [] {
      assert a + b == b;
    } else {
      assert (a + b)[0] == a[0];
      assert (a + b)[1..] == a[1..] + b;
      SumAppend(a[1..], b);
    }
  }

  lemma {:induction false} SumUniform(group: seq<UserHits>, hits: int, amount: int)
    ensures Sum(PayoutsFor(group, hits, amount)) == amount * |group|
  {
    if group != [] {
      var init, w := group[..|group| - 1], group[|group| - 1];
      var p := Payout(w.userId, w.wallet, amount, hits);
      SumAppend(PayoutsFor(init, hits, amount), [p]);
      assert Sum([p]) == amount;
      SumUniform(init, hits, amount);
      MulDist(amount, |group| - 1, 1);
    }
  }

  lemma {:induction false} AtLevelAppend(a: seq<Payout>, b: seq<Payout>, h: int)
    ensures AtLevel(a + b, h) == AtLevel(a, h) + AtLevel(b, h)
  {
    if a == [] {
      assert a + b == b;
    } else {
      var head := if a[0].hits == h then [a[0]] else [];
      assert (a + b)[0] == a[0];
      assert (a + b)[1..] == a[1..] + b;
      assert AtLevel(a + b, h) == head + AtLevel(a[1..] + b, h);
      AtLevelAppend(a[1..], b, h);
      assert head + (AtLevel(a[1..], h) + AtLevel(b, h)) == (head + AtLevel(a[1..], h)) + AtLevel(b, h);
    }
  }

  lemma {:induction false} AtLevelUniform(group: seq<UserHits>, hits: int, amount: int, h: int)
    ensures AtLevel(PayoutsFor(group, hits, amount), h) == if h == hits then PayoutsFor(group, hits, amount) else []
  {
    if group != [] {
      var init, w := group[..|group| - 1], group[|group| - 1];
      var p := Payout(w.userId, w.wallet, amount, hits);
      AtLevelAppend(PayoutsFor(init, hits, amount), [p], h);
      assert AtLevel([p], h) == if h == hits then [p] else [];
      AtLevelUniform(init, hits, amount, h);
    }
  }

  /** Appending one level's payouts adds to the payouts at that level only. */
  lemma AtLevelExtend(init: seq<Payout>, group: seq<UserHits>, k: int, amount: int, h: int)
    ensures AtLevel(init + PayoutsFor(group, k, amount), h)
         == if h == k then AtLevel(init, h) + PayoutsFor(group, k, amount) else AtLevel(init, h)
  {
    var tail := PayoutsFor(group, k, amount);
    AtLevelAppend(init, tail, h);
    AtLevelUniform(group, k, amount, h);
    if h != k {
      assert AtLevel(init, h) + [] == AtLevel(init, h);
    }
  }

  /** A payout always shows up among the payouts of its own level. */
  lemma {:induction false} InAtLevel(ps: seq<Payout>, p: Payout)
    requires p in ps
    ensures p in AtLevel(ps, p.hits)
  {
    if ps[0] != p {
      InAtLevel(ps[1..], p);
    }
  }

  lemma PayoutsForGrow(group: seq<UserHits>, j: nat, hits: int, amount: int)
    requires j < |group|
    ensures PayoutsFor(group[..j + 1], hits, amount)
         == PayoutsFor(group[..j], hits, amount) + [Payout(group[j].userId, group[j].wallet, amount, hits)]
  {
    assert group[..j + 1][..j] == group[..j];
  }

  // ---------------------------------------------------------------------------
  // MAX_HITS_EQUAL_SHARE (settlement.ts:43-80)
  // ---------------------------------------------------------------------------

  /**
   * The pool is split with floor division among the users whose hits equal
   * `maxHitsInDraw`; with no such user nothing is paid and the whole pool is
   * left over.
   */
  function MaxHitsEqualShare(input: SettlementInput, params: Params): (r: SettlementResult)
    ensures r.formulaName == EqualShare && r.maxHitsInDraw == input.maxHitsInDraw
    ensures r.prizePool == PrizePool(input.totalBank, Pct(params))
    ensures var winners := Winners(input.hitsByUser, input.maxHitsInDraw);
      && |r.payouts| == |winners|
      && (winners == [] ==> r.payouts == [] && r.leftover == r.prizePool)
      && (forall i :: 0 <= i < |winners| ==>
            r.payouts[i] == Payout(winners[i].userId, winners[i].wallet, r.prizePool / |winners|, input.maxHitsInDraw))
      && (winners != [] ==>
            Sum(r.payouts) + r.leftover == r.prizePool && 0 <= r.leftover < |winners|)
  {
    var pool := PrizePool(input.totalBank, Pct(params));
    var winners := Winners(input.hitsByUser, input.maxHitsInDraw);
    if |winners| == 0 then
      SettlementResult(EqualShare, FormulaVersion, params, pool, [], pool, input.maxHitsInDraw)
    else
      var share := pool / |winners|;
      var payouts := PayoutsFor(winners, input.maxHitsInDraw, share);
      var distributed := share * |winners|;
      SumUniform(winners, input.maxHitsInDraw, share);
      PayoutsForSpec(winners, input.maxHitsInDraw, share);
      FloorSplit(pool, |winners|);
      SettlementResult(EqualShare, FormulaVersion, params, pool, payouts, pool - distributed, input.maxHitsInDraw)
  }

  // ---------------------------------------------------------------------------
  // TIERED_WEIGHTS (settlement.ts:82-134)
  // ---------------------------------------------------------------------------

  function Weights(params: Params): map<nat, int> {
    params.weights.GetOr(DefaultWeights)
  }

  /** `weights[h] ?? 0` and `weights[h] || 0`. */
  function WeightAt(w: map<nat, int>, h: nat): int {
    if h in w then w[h] else 0
  }

  /** The smallest key of a non-empty table (`Math.min(...keys)`). */
  ghost function MinKey(keys: set<nat>): (m: nat)
    requires keys != {}
    ensures m in keys && forall k :: k in keys ==> m <= k
  {
    var x :| x in keys;
    if keys == {x} then x
    else
      var m := MinKey(keys - {x});
      assert forall k :: k in keys ==> k == x || k in keys - {x};
      if x < m then x else m
  }

  /**
   * `params.minHits ?? Math.min(...keys)`; `None` stands for the `Infinity`
   * that `Math.min()` gives for an empty table, which no level reaches.
   */
  ghost function ResolvedMinHits(params: Params): Option<int> {
    match params.minHits
    case Some(m) => Some(m)
    case None =>
      var keys := Weights(params).Keys;
      if keys == {} then None else Some(MinKey(keys))
  }

  /** The keys of `w` from `lo` to `hi`, ascending. */
  function KeysBetween(w: map<nat, int>, lo: nat, hi: int): (ls: seq<nat>)
    decreases hi - lo
  {
    if lo > hi then [] else (if lo in w then [lo] else []) + KeysBetween(w, lo + 1, hi)
  }

  /**
   * The eligible levels, in the order `Object.keys` lists integer keys
   * (ascending): keys of `w` with `minHits <= h <= maxHits`.
   */
  function Levels(w: map<nat, int>, minHits: Option<int>, maxHits: int): seq<nat> {
    match minHits
    case None => []
    case Some(m) => KeysBetween(w, if m < 0 then 0 else m, maxHits)
  }

  predicate Increasing(ls: seq<nat>) {
    forall i, j :: 0 <= i < j < |ls| ==> ls[i] < ls[j]
  }

  lemma {:induction false} KeysBetweenSpec(w: map<nat, int>, lo: nat, hi: int)
    ensures forall h :: h in KeysBetween(w, lo, hi) <==> h in w && lo <= h <= hi
    ensures Increasing(KeysBetween(w, lo, hi))
    decreases hi - lo
  {
    if lo <= hi {
      KeysBetweenSpec(w, lo + 1, hi);
      var rest := KeysBetween(w, lo + 1, hi);
      var head: seq<nat> := if lo in w then [lo] else [];
      assert KeysBetween(w, lo, hi) == head + rest;
      forall i, j | 0 <= i < j < |head + rest|
        ensures (head + rest)[i] < (head + rest)[j]
      {
        if i >= |head| {
          assert (head + rest)[i] == rest[i - |head|];
        } else {
          assert (head + rest)[j] in rest;
        }
      }
    }
  }

  /** A level is eligible exactly when it is a weight key between `minHits` and `maxHits`. */
  lemma LevelsSpec(w: map<nat, int>, minHits: Option<int>, maxHits: int)
    ensures forall h: nat :: h in Levels(w, minHits, maxHits) <==>
      h in w && minHits.Some? && minHits.value <= h <= maxHits
    ensures Increasing(Levels(w, minHits, maxHits))
  {
    if minHits.Some? {
      var m := minHits.value;
      KeysBetweenSpec(w, if m < 0 then 0 else m, maxHits);
    }
  }

  /** `levels.reduce((s, h) => s + weights[h] * winnersByLevel[h].length, 0)`. */
  function TotalWeight(w: map<nat, int>, levels: seq<nat>, users: seq<UserHits>): int {
    if levels == [] then 0
    else
      var h := levels[|levels| - 1];
      TotalWeight(w, levels[..|levels| - 1], users) + WeightAt(w, h) * |Winners(users, h)|
  }

  /** The payouts of the level loop: every winner at level `h` gets `unit * weight[h]`. */
  function TieredPayouts(w: map<nat, int>, levels: seq<nat>, users: seq<UserHits>, unit: int): seq<Payout> {
    if levels == [] then []
    else
      var h := levels[|levels| - 1];
      TieredPayouts(w, levels[..|levels| - 1], users, unit) + PayoutsFor(Winners(users, h), h, unit * WeightAt(w, h))
  }

  /** The `distributedMinor` accumulator of the level loop. */
  function TieredDistributed(w: map<nat, int>, levels: seq<nat>, users: seq<UserHits>, unit: int): int {
    if levels == [] then 0
    else
      var h := levels[|levels| - 1];
      TieredDistributed(w, levels[..|levels| - 1], users, unit) + unit * WeightAt(w, h) * |Winners(users, h)|
  }

  ghost function TieredLevels(input: SettlementInput, params: Params): seq<nat> {
    Levels(Weights(params), ResolvedMinHits(params), input.maxHitsInDraw)
  }

  ghost function TieredTotalWeight(input: SettlementInput, params: Params): int {
    TotalWeight(Weights(params), TieredLevels(input, params), input.hitsByUser)
  }

  /** What `tieredWeights` returns, or the error it throws. */
  ghost function TieredWeightsResult(input: SettlementInput, params: Params): Result<SettlementResult, Error> {
    if ResolvedMinHits(params) == Some(0) then Failure(InvalidParams(Tiered))
    else
      var w := Weights(params);
      var pool := PrizePool(input.totalBank, Pct(params));
      var levels := TieredLevels(input, params);
      var totalWeight := TieredTotalWeight(input, params);
      if totalWeight <= 0 then
        Success(SettlementResult(Tiered, FormulaVersion, params, pool, [], pool, input.maxHitsInDraw))
      else
        var unit := pool / totalWeight;
        var distributed := TieredDistributed(w, levels, input.hitsByUser, unit);
        var leftover := pool - distributed;
        Success(SettlementResult(Tiered, FormulaVersion, params, pool,
          TieredPayouts(w, levels, input.hitsByUser, unit),
          if leftover < 0 then 0 else leftover, input.maxHitsInDraw))
  }

  lemma {:induction false} TieredPayoutsSum(w: map<nat, int>, levels: seq<nat>, users: seq<UserHits>, unit: int)
    ensures Sum(TieredPayouts(w, levels, users, unit)) == TieredDistributed(w, levels, users, unit)
  {
    if levels != [] {
      var init, h := levels[..|levels| - 1], levels[|levels| - 1];
      var g, share := Winners(users, h), unit * WeightAt(w, h);
      var prev := TieredPayouts(w, init, users, unit);
      assert TieredPayouts(w, levels, users, unit) == prev + PayoutsFor(g, h, share);
      assert TieredDistributed(w, levels, users, unit) == TieredDistributed(w, init, users, unit) + share * |g|;
      TieredPayoutsSum(w, init, users, unit);
      SumAppend(prev, PayoutsFor(g, h, share));
      SumUniform(g, h, share);
    }
  }

  lemma {:induction false} TieredDistributedTotal(w: map<nat, int>, levels: seq<nat>, users: seq<UserHits>, unit: int)
    ensures TieredDistributed(w, levels, users, unit) == unit * TotalWeight(w, levels, users)
  {
    if levels != [] {
      var init, h := levels[..|levels| - 1], levels[|levels| - 1];
      var g := Winners(users, h);
      TieredDistributedTotal(w, init, users, unit);
      MulDist(unit, TotalWeight(w, init, users), WeightAt(w, h) * |g|);
      MulAssoc(unit, WeightAt(w, h), |g|);
    }
  }

  /** The level loop's payouts sum to its accumulator, which is `unit * totalWeight`. */
  lemma TieredSums(w: map<nat, int>, levels: seq<nat>, users: seq<UserHits>, unit: int)
    ensures Sum(TieredPayouts(w, levels, users, unit)) == TieredDistributed(w, levels, users, unit)
    ensures TieredDistributed(w, levels, users, unit) == unit * TotalWeight(w, levels, users)
  {
    TieredPayoutsSum(w, levels, users, unit);
    TieredDistributedTotal(w, levels, users, unit);
  }

  /** One more level of the loop: its winners' payouts are appended and their total added. */
  lemma TieredStep(w: map<nat, int>, levels: seq<nat>, users: seq<UserHits>, unit: int, i: nat)
    requires i < |levels|
    ensures var h := levels[i];
      && TieredPayouts(w, levels[..i + 1], users, unit)
         == TieredPayouts(w, levels[..i], users, unit) + PayoutsFor(Winners(users, h), h, unit * WeightAt(w, h))
      && TieredDistributed(w, levels[..i + 1], users, unit)
         == TieredDistributed(w, levels[..i], users, unit) + unit * WeightAt(w, h) * |Winners(users, h)|
  {
    assert levels[..i + 1][..i] == levels[..i];
  }


  /** Dropping the last of increasing levels leaves increasing levels that all lie below it. */
  lemma IncreasingInit(levels: seq<nat>)
    requires levels != [] && Increasing(levels)
    ensures Increasing(levels[..|levels| - 1])
    ensures levels[|levels| - 1] !in levels[..|levels| - 1]
    ensures levels == levels[..|levels| - 1] + [levels[|levels| - 1]]
  {
    var init := levels[..|levels| - 1];
    forall i | 0 <= i < |init| ensures init[i] != levels[|levels| - 1] {
      assert init[i] == levels[i];
    }
  }

  lemma {:induction false} TieredAtLevel(w: map<nat, int>, levels: seq<nat>, users: seq<UserHits>, unit: int, h: nat)
    requires Increasing(levels)
    ensures AtLevel(TieredPayouts(w, levels, users, unit), h)
         == if h in levels then PayoutsFor(Winners(users, h), h, unit * WeightAt(w, h)) else []
  {
    if levels != [] {
      var init, last := levels[..|levels| - 1], levels[|levels| - 1];
      IncreasingInit(levels);
      var prev := TieredPayouts(w, init, users, unit);
      assert TieredPayouts(w, levels, users, unit) == prev + PayoutsFor(Winners(users, last), last, unit * WeightAt(w, last));
      TieredAtLevel(w, init, users, unit, h);
      AtLevelExtend(prev, Winners(users, last), last, unit * WeightAt(w, last), h);
      assert h in levels <==> h in init || h == last;
      if h == last {
        assert AtLevel(prev, h) == [];
        assert [] + PayoutsFor(Winners(users, h), h, unit * WeightAt(w, h)) == PayoutsFor(Winners(users, h), h, unit * WeightAt(w, h));
      }
    }
  }



  /**
   * Tiered weights: the payouts made at level `h` are exactly one payout of
   * `floor(pool / totalWeight) * weight[h]` per winner at `h` when `h` is a
   * weight key between `minHits` and `maxHitsInDraw` and the weighted winner
   * total is positive; at every other level nobody is paid.
   */
  lemma TieredWeightsLevels(input: SettlementInput, params: Params, h: nat)
    requires TieredWeightsResult(input, params).Success?
    ensures var r := TieredWeightsResult(input, params).value;
      var w := Weights(params);
      var m := ResolvedMinHits(params);
      var tw := TieredTotalWeight(input, params);
      AtLevel(r.payouts, h)
        == if tw > 0 && h in w && m.Some? && m.value <= h <= input.maxHitsInDraw
           then PayoutsFor(Winners(input.hitsByUser, h), h, (r.prizePool / tw) * w[h])
           else []
  {
    var w, m := Weights(params), ResolvedMinHits(params);
    LevelsSpec(w, m, input.maxHitsInDraw);
    var tw := TieredTotalWeight(input, params);
    if tw > 0 {
      var pool := PrizePool(input.totalBank, Pct(params));
      TieredAtLevel(w, TieredLevels(input, params), input.hitsByUser, pool / tw, h);
    }
  }

  /** Tiered weights pay only users whose hit count is an eligible level. */
  lemma TieredWeightsEligible(input: SettlementInput, params: Params, p: Payout)
    requires TieredWeightsResult(input, params).Success?
    requires p in TieredWeightsResult(input, params).value.payouts
    ensures var m := ResolvedMinHits(params);
      && p.hits >= 0 && p.hits in Weights(params)
      && m.Some? && m.value <= p.hits <= input.maxHitsInDraw
      && UserHits(p.userId, p.wallet, p.hits) in input.hitsByUser
  {
    var r := TieredWeightsResult(input, params).value;
    InAtLevel(r.payouts, p);
    assert r.payouts != [];
    assert p.hits >= 0 by {
      var levels := TieredLevels(input, params);
      LevelsSpec(Weights(params), ResolvedMinHits(params), input.maxHitsInDraw);
      if p.hits < 0 {
        var pool := PrizePool(input.totalBank, Pct(params));
        var tw := TieredTotalWeight(input, params);
        TieredPayoutsLevels(Weights(params), levels, input.hitsByUser, pool / tw, p);
        assert false;
      }
    }
    TieredWeightsLevels(input, params, p.hits);
    var g := Winners(input.hitsByUser, p.hits);
    WinnersSpec(input.hitsByUser, p.hits);
    var tw := TieredTotalWeight(input, params);
    PayoutsForSpec(g, p.hits, (r.prizePool / tw) * Weights(params)[p.hits]);
    var i :| 0 <= i < |AtLevel(r.payouts, p.hits)| && AtLevel(r.payouts, p.hits)[i] == p;
    assert g[i] in input.hitsByUser;
    assert g[i] == UserHits(p.userId, p.wallet, p.hits);
  }

  /** Every payout of the level loop is made at one of the levels it ran over. */
  lemma {:induction false} TieredPayoutsLevels(w: map<nat, int>, levels: seq<nat>, users: seq<UserHits>, unit: int, p: Payout)
    requires p in TieredPayouts(w, levels, users, unit)
    ensures exists h :: h in levels && p.hits == h
  {
    var init, last := levels[..|levels| - 1], levels[|levels| - 1];
    var g := Winners(users, last);
    if p in TieredPayouts(w, init, users, unit) {
      TieredPayoutsLevels(w, init, users, unit, p);
      var h :| h in init && p.hits == h;
      assert h in levels;
    } else {
      PayoutsForSpec(g, last, unit * WeightAt(w, last));
      var i :| 0 <= i < |g| && PayoutsFor(g, last, unit * WeightAt(w, last))[i] == p;
      assert last in levels;
    }
  }

  /**
   * Tiered weights conserve the pool: with a non-positive weighted winner
   * total nothing is paid and the whole pool is left over; otherwise the
   * payouts and the leftover add up to the pool and the leftover is below
   * the total weight (so the clamp to zero never fires).
   */
  lemma TieredWeightsConservation(input: SettlementInput, params: Params)
    requires TieredWeightsResult(input, params).Success?
    ensures var r := TieredWeightsResult(input, params).value;
      var tw := TieredTotalWeight(input, params);
      && r.formulaName == Tiered
      && r.prizePool == PrizePool(input.totalBank, Pct(params))
      && (tw <= 0 ==> r.payouts == [] && r.leftover == r.prizePool)
      && (tw > 0 ==> Sum(r.payouts) + r.leftover == r.prizePool && 0 <= r.leftover < tw)
  {
    var r := TieredWeightsResult(input, params).value;
    var tw := TieredTotalWeight(input, params);
    if tw > 0 {
      var w, levels := Weights(params), TieredLevels(input, params);
      var pool := PrizePool(input.totalBank, Pct(params));
      var unit := pool / tw;
      assert r.payouts == TieredPayouts(w, levels, input.hitsByUser, unit);
      assert r.prizePool == pool;
      TieredSums(w, levels, input.hitsByUser, unit);
      FloorSplit(pool, tw);
      assert r.leftover == pool - unit * tw;
    }
  }

  /** With non-negative weights no payout is negative. */
  lemma TieredWeightsNonNegative(input: SettlementInput, params: Params, p: Payout)
    requires TieredWeightsResult(input, params).Success?
    requires forall h :: h in Weights(params) ==> Weights(params)[h] >= 0
    requires p in TieredWeightsResult(input, params).value.payouts
    ensures p.amount >= 0
  {
    var r := TieredWeightsResult(input, params).value;
    var w := Weights(params);
    TieredWeightsEligible(input, params, p);
    InAtLevel(r.payouts, p);
    TieredWeightsLevels(input, params, p.hits);
    var tw := TieredTotalWeight(input, params);
    assert tw > 0;
    var unit := r.prizePool / tw;
    FloorSplit(r.prizePool, tw);
    MulMono(unit, 0, w[p.hits]);
    var g := Winners(input.hitsByUser, p.hits);
    PayoutsForSpec(g, p.hits, unit * w[p.hits]);
    var i :| 0 <= i < |AtLevel(r.payouts, p.hits)| && AtLevel(r.payouts, p.hits)[i] == p;
    assert p == PayoutsFor(g, p.hits, unit * w[p.hits])[i];
  }

  /** Math.min over the keys of a non-empty weight table. */
  method SmallestKey(keys: set<nat>) returns (m: nat)
    requires keys != {}
    ensures m in keys && forall k :: k in keys ==> m <= k
    ensures m == MinKey(keys)
  {
    m :| m in keys;
    var rest := keys - {m};
    while rest != {}
      invariant rest <= keys && m in keys
      invariant forall k :: k in keys && k !in rest ==> m <= k
      decreases rest
    {
      var k :| k in rest;
      if k < m {
        m := k;
      }
      rest := rest - {k};
    }
  }

  /** `params?.minHits ?? Math.min(...keys)`; `None` when the table is empty (`Math.min()` is Infinity). */
  method ResolveMinHits(params: Params) returns (minHits: Option<int>)
    ensures minHits == ResolvedMinHits(params)
  {
    var w := Weights(params);
    if params.minHits.Some? {
      minHits := params.minHits;
    } else if w.Keys == {} {
      minHits := None;
    } else {
      var m := SmallestKey(w.Keys);
      minHits := Some(m);
    }
  }

  /** The inner loop: one payout of `share` per member of `group`, appended to `payouts`. */
  method PayGroup(payouts: seq<Payout>, group: seq<UserHits>, hits: nat, share: int) returns (r: seq<Payout>)
    ensures r == payouts + PayoutsFor(group, hits, share)
  {
    r := payouts;
    var j := 0;
    while j < |group|
      invariant 0 <= j <= |group|
      invariant r == payouts + PayoutsFor(group[..j], hits, share)
    {
      PayoutsForGrow(group, j, hits, share);
      r := r + [Payout(group[j].userId, group[j].wallet, share, hits)];
      j := j + 1;
    }
    assert group[..j] == group;
  }

  /** The level loop of `tieredWeights`, skipping levels without winners. */
  method PayLevels(w: map<nat, int>, levels: seq<nat>, users: seq<UserHits>, unit: int)
    returns (payouts: seq<Payout>, distributed: int)
    ensures payouts == TieredPayouts(w, levels, users, unit)
    ensures distributed == TieredDistributed(w, levels, users, unit)
  {
    payouts := [];
    distributed := 0;
    var i := 0;
    while i < |levels|
      invariant 0 <= i <= |levels|
      invariant payouts == TieredPayouts(w, levels[..i], users, unit)
      invariant distributed == TieredDistributed(w, levels[..i], users, unit)
    {
      var hits := levels[i];
      var group := Winners(users, hits);
      TieredStep(w, levels, users, unit, i);
      if |group| == 0 {
        i := i + 1;
        continue;
      }
      var share := unit * WeightAt(w, hits);
      payouts := PayGroup(payouts, group, hits, share);
      distributed := distributed + share * |group|;
      i := i + 1;
    }
    assert levels[..i] == levels;
  }

  /** `tieredWeights`: resolve `minHits`, weigh the eligible levels, then pay them. */
  method TieredWeights(input: SettlementInput, params: Params) returns (r: Result<SettlementResult, Error>)
    ensures r == TieredWeightsResult(input, params)
  {
    var w := Weights(params);
    var minHits := ResolveMinHits(params);
    if minHits == Some(0) {
      return Failure(InvalidParams(Tiered));
    }
    var pool := PrizePool(input.totalBank, Pct(params));
    var levels := Levels(w, minHits, input.maxHitsInDraw);
    var totalWeight := TotalWeight(w, levels, input.hitsByUser);
    if totalWeight <= 0 {
      return Success(SettlementResult(Tiered, FormulaVersion, params, pool, [], pool, input.maxHitsInDraw));
    }
    var unit := pool / totalWeight;
    var payouts, distributed := PayLevels(w, levels, input.hitsByUser, unit);
    var leftover := pool - distributed;
    r := Success(SettlementResult(Tiered, FormulaVersion, params, pool, payouts,
      if leftover < 0 then 0 else leftover, input.maxHitsInDraw));
  }

  // ---------------------------------------------------------------------------
  // FIXED_TABLE (settlement.ts:136-173)
  // ---------------------------------------------------------------------------

  function FixedPrizes(params: Params): map<nat, int> {
    params.fixed.GetOr(map[])
  }

  /** `fixed[h] ?? 0`. */
  function PrizeAt(fixed: map<nat, int>, h: nat): int {
    if h in fixed then fixed[h] else 0
  }

  /** Whether level `h` pays: it has winners and a positive prize. */
  predicate LevelPays(users: seq<UserHits>, fixed: map<nat, int>, h: nat) {
    Winners(users, h) != [] && PrizeAt(fixed, h) > 0
  }

  /** The payouts of levels `0 .. n-1`: each winner at a paying level gets the whole prize. */
  function FixedPayouts(users: seq<UserHits>, fixed: map<nat, int>, n: nat): seq<Payout> {
    if n == 0 then []
    else
      FixedPayouts(users, fixed, n - 1)
      + (if LevelPays(users, fixed, n - 1) then PayoutsFor(Winners(users, n - 1), n - 1, PrizeAt(fixed, n - 1)) else [])
  }

  /** The `distributedMinor` accumulator over levels `0 .. n-1`. */
  function FixedDistributed(users: seq<UserHits>, fixed: map<nat, int>, n: nat): int {
    if n == 0 then 0
    else
      FixedDistributed(users, fixed, n - 1)
      + (if LevelPays(users, fixed, n - 1) then PrizeAt(fixed, n - 1) * |Winners(users, n - 1)| else 0)
  }

  /** The number of levels `0 .. maxHitsInDraw`. */
  function LevelCount(maxHits: int): nat {
    if maxHits < 0 then 0 else maxHits + 1
  }

  /** What `fixedTable` returns: the pool is the bank and the leftover is clamped at 0. */
  function FixedTableResult(input: SettlementInput, params: Params): SettlementResult {
    var fixed := FixedPrizes(params);
    var pool := input.totalBank;
    var leftover := pool - FixedDistributed(input.hitsByUser, fixed, LevelCount(input.maxHitsInDraw));
    SettlementResult(Fixed, FormulaVersion, params, pool,
      FixedPayouts(input.hitsByUser, fixed, LevelCount(input.maxHitsInDraw)),
      if leftover < 0 then 0 else leftover, input.maxHitsInDraw)
  }

  lemma {:induction false} FixedSums(users: seq<UserHits>, fixed: map<nat, int>, n: nat)
    ensures Sum(FixedPayouts(users, fixed, n)) == FixedDistributed(users, fixed, n)
  {
    if n > 0 {
      var k := n - 1;
      FixedSums(users, fixed, k);
      var init := FixedPayouts(users, fixed, k);
      if LevelPays(users, fixed, k) {
        var g, prize := Winners(users, k), PrizeAt(fixed, k);
        var tail := PayoutsFor(g, k, prize);
        assert FixedPayouts(users, fixed, n) == init + tail;
        assert FixedDistributed(users, fixed, n) == FixedDistributed(users, fixed, k) + prize * |g|;
        SumAppend(init, tail);
        SumUniform(g, k, prize);
      } else {
        assert FixedPayouts(users, fixed, n) == init + [];
        assert init + [] == init;
      }
    }
  }


  lemma {:induction false} FixedAtLevel(users: seq<UserHits>, fixed: map<nat, int>, n: nat, h: nat)
    ensures AtLevel(FixedPayouts(users, fixed, n), h)
         == if h < n && LevelPays(users, fixed, h) then PayoutsFor(Winners(users, h), h, PrizeAt(fixed, h)) else []
  {
    if n > 0 {
      var k := n - 1;
      FixedAtLevel(users, fixed, k, h);
      var init := FixedPayouts(users, fixed, k);
      if LevelPays(users, fixed, k) {
        AtLevelExtend(init, Winners(users, k), k, PrizeAt(fixed, k), h);
      } else {
        assert FixedPayouts(users, fixed, n) == init + [];
        assert init + [] == init;
      }
    }
  }


  /**
   * Fixed table: at each level `h` from 0 to `maxHitsInDraw` that has winners
   * and a positive prize, every winner receives the whole `fixed[h]` (it is
   * not split); at every other level nobody is paid.
   */
  lemma FixedTableLevels(input: SettlementInput, params: Params, h: nat)
    ensures var fixed := FixedPrizes(params);
      AtLevel(FixedTableResult(input, params).payouts, h)
        == if h <= input.maxHitsInDraw && LevelPays(input.hitsByUser, fixed, h)
           then PayoutsFor(Winners(input.hitsByUser, h), h, fixed[h])
           else []
  {
    FixedAtLevel(input.hitsByUser, FixedPrizes(params), LevelCount(input.maxHitsInDraw), h);
  }
  /** Every fixed-table payout is at a paying level below `n` and copies an input entry. */
  lemma {:induction false} FixedPayoutsAt(users: seq<UserHits>, fixed: map<nat, int>, n: nat, p: Payout)
    requires p in FixedPayouts(users, fixed, n)
    ensures 0 <= p.hits < n && LevelPays(users, fixed, p.hits)
    ensures UserHits(p.userId, p.wallet, p.hits) in users && p.amount == PrizeAt(fixed, p.hits)
  {
    var init := FixedPayouts(users, fixed, n - 1);
    if p in init {
      FixedPayoutsAt(users, fixed, n - 1, p);
    } else {
      var k := n - 1;
      assert LevelPays(users, fixed, k);
      var g := Winners(users, k);
      PayoutsForSpec(g, k, PrizeAt(fixed, k));
      var i :| 0 <= i < |g| && PayoutsFor(g, k, PrizeAt(fixed, k))[i] == p;
      WinnersSpec(users, k);
      assert g[i] in g;
      assert g[i] == UserHits(p.userId, p.wallet, p.hits);
    }
  }

  /**
   * Only users whose hit count is a level `0..maxHitsInDraw` with a positive
   * prize are paid, each the whole prize of that level, and each payout
   * copies an input entry's id, wallet and hits.
   */
  lemma FixedTableEligible(input: SettlementInput, params: Params, p: Payout)
    requires p in FixedTableResult(input, params).payouts
    ensures var fixed := FixedPrizes(params);
      && 0 <= p.hits <= input.maxHitsInDraw && p.hits in fixed && fixed[p.hits] > 0
      && p.amount == fixed[p.hits]
      && UserHits(p.userId, p.wallet, p.hits) in input.hitsByUser
  {
    FixedPayoutsAt(input.hitsByUser, FixedPrizes(params), LevelCount(input.maxHitsInDraw), p);
  }


  /**
   * Fixed table: the reported pool is the bank and the leftover is the bank
   * minus the payouts, clamped at 0; the payouts and the leftover add up to
   * the pool exactly when the table does not overspend it.
   */
  lemma FixedTableConservation(input: SettlementInput, params: Params)
    ensures var r := FixedTableResult(input, params);
      && r.formulaName == Fixed
      && r.prizePool == input.totalBank
      && r.leftover == (if Sum(r.payouts) <= r.prizePool then r.prizePool - Sum(r.payouts) else 0)
      && (Sum(r.payouts) <= r.prizePool <==> Sum(r.payouts) + r.leftover == r.prizePool)
  {
    FixedSums(input.hitsByUser, FixedPrizes(params), LevelCount(input.maxHitsInDraw));
  }

  /** The fixed table pays its prizes even when they exceed the bank. */
  lemma FixedTableCanOverspend()
    ensures var input := SettlementInput("1", 50, 2, [UserHits(7, "w", 2)]);
      var r := FixedTableResult(input, Params(None, None, None, Some(map[2 := 100])));
      r.payouts == [Payout(7, "w", 100, 2)] && r.leftover == 0 && Sum(r.payouts) > r.prizePool
  {
    var users := [UserHits(7, "w", 2)];
    var fixed: map<nat, int> := map[2 := 100];
    assert Winners(users, 0) == [] && Winners(users, 1) == [];
    assert Winners(users, 2) == users;
    assert PayoutsFor(users, 2, 100) == [Payout(7, "w", 100, 2)];
    assert FixedPayouts(users, fixed, 3) == [Payout(7, "w", 100, 2)];
    assert FixedDistributed(users, fixed, 3) == 100;
  }

  /** `fixedTable`: the loop over levels `0 .. maxHitsInDraw` pushing payouts. */
  method FixedTable(input: SettlementInput, params: Params) returns (r: SettlementResult)
    ensures r == FixedTableResult(input, params)
  {
    var fixed := FixedPrizes(params);
    var pool := input.totalBank;
    var payouts: seq<Payout> := [];
    var distributed := 0;
    var n := LevelCount(input.maxHitsInDraw);
    var hits: nat := 0;
    while hits < n
      invariant hits <= n
      invariant payouts == FixedPayouts(input.hitsByUser, fixed, hits)
      invariant distributed == FixedDistributed(input.hitsByUser, fixed, hits)
    {
      var group := Winners(input.hitsByUser, hits);
      var prize := PrizeAt(fixed, hits);
      if |group| > 0 && prize > 0 {
        payouts := PayGroup(payouts, group, hits, prize);
        distributed := distributed + prize * |group|;
      }
      hits := hits + 1;
    }
    var leftover := pool - distributed;
    r := SettlementResult(Fixed, FormulaVersion, params, pool, payouts,
      if leftover < 0 then 0 else leftover, input.maxHitsInDraw);
  }

  // ---------------------------------------------------------------------------
  // Dispatch (settlement.ts:175-180)
  // ---------------------------------------------------------------------------

  /**
   * `calculatePayouts`: each of the three names routes to its formula, any
   * other name is an error, and tiered weights fail when `minHits` resolves
   * to 0.
   */
  ghost function Payouts(formula: string, input: SettlementInput, params: Params): (r: Result<SettlementResult, Error>)
    ensures r.Success? ==> Key(r.value.formulaName) == formula && r.value.maxHitsInDraw == input.maxHitsInDraw
    ensures r.Failure? <==>
      (formula != EqualShareKey && formula != TieredKey && formula != FixedKey)
      || (formula == TieredKey && ResolvedMinHits(params) == Some(0))
    ensures formula != EqualShareKey && formula != TieredKey && formula != FixedKey ==>
      r == Failure(UnknownFormula(formula))
  {
    if formula == EqualShareKey then Success(MaxHitsEqualShare(input, params))
    else if formula == TieredKey then TieredWeightsResult(input, params)
    else if formula == FixedKey then Success(FixedTableResult(input, params))
    else Failure(UnknownFormula(formula))
  }

  method CalculatePayouts(formula: string, input: SettlementInput, params: Params) returns (r: Result<SettlementResult, Error>)
    ensures r == Payouts(formula, input, params)
  {
    if formula == EqualShareKey {
      r := Success(MaxHitsEqualShare(input, params));
    } else if formula == TieredKey {
      r := TieredWeights(input, params);
    } else if formula == FixedKey {
      var result := FixedTable(input, params);
      r := Success(result);
    } else {
      r := Failure(UnknownFormula(formula));
    }
  }
}
