/** Why LP pool weights must change safely: any other change of a weight overspends. */
module LpStakingLowering {
  import opened Addresses
  import opened Results
  import opened FixedPoint
  import opened Sums
  import opened LpStakingModel
  import opened LpStakingCustody
  import opened LpStakingBudget
  import opened LpStakingRewards
  import opened LpStakingReweighting
  import opened LpStakingRuns
  import opened LpStakingResults

  /** one unit of 10^18 spread over a single second */
  function Second(at: nat): Entry {
    Entry(at, at + 1, E)
  }

  /** after that second a pool receives its weight's share of 10^18, rounded down */
  lemma WholeSecond(total: nat, pool: Pool, at: nat)
    requires total > 0 && pool.lastDistributed <= at
    ensures EntryReward(Second(at), total, pool, at + 1) == Ok(Ratio(pool.weight, total))
  {
    var r := Ratio(pool.weight, total);
    assert MulDec(E, r) == r by { DivUnique(E * r, E, r); }
    assert Ratio(r, 1) == r * E;
    assert MulDec(1, r * E) == r by { DivUnique(r * E, E, r); }
  }

  /** what a pool receives from that schedule, whatever the others are */
  lemma ReceivedSecond(cfg: Config, pool: Pool, n: nat, at: nat)
    requires cfg.totalWeight > 0 && pool.lastDistributed <= at
    requires n < |cfg.schedule| && cfg.schedule[n] == Second(at) && forall e | e in cfg.schedule :: e.start < e.end
    ensures ComputePoolReward(cfg, pool, at + 1).Ok?
    ensures var received := Received(cfg, pool, at + 1);
            |received| == |cfg.schedule| && received[n] == Ratio(pool.weight, cfg.totalWeight)
  {
    hide ComputePoolReward, EntryReward, Ratio;
    SettleableIff(cfg, pool, at + 1);
    ReceivedLength(cfg, pool, at + 1);
    EntryRewardsAt(cfg.schedule, cfg.totalWeight, pool, at + 1);
    WholeSecond(cfg.totalWeight, pool, at);
  }

  // ----- what the loop hands out -----

  /** the shares of the pools the loop settles, the total weight changing on the way */
  function Shares(pools: Pools, tokens: seq<Addr>, token: Addr, total: nat, changed: nat): nat
    requires total > 0 && changed > 0 && forall a | a in tokens :: a in pools
    decreases |tokens|
  {
    if tokens == [] then 0
    else
      Ratio(pools[tokens[0]].weight, total)
      + Shares(pools, tokens[1..], token, if tokens[0] == token then changed else total, changed)
  }

  /** other pools' shares do not depend on a pool already settled */
  lemma {:induction false} SharesElsewhere(
      pools: Pools, pools': Pools, tokens: seq<Addr>, token: Addr, total: nat, changed: nat)
    requires total > 0 && changed > 0
    requires forall a | a in tokens :: a in pools && a in pools' && pools'[a] == pools[a]
    ensures Shares(pools', tokens, token, total, changed) == Shares(pools, tokens, token, total, changed)
    decreases |tokens|
  {
    if tokens != [] {
      SharesElsewhere(pools, pools', tokens[1..], token, if tokens[0] == token then changed else total, changed);
    }
  }

  /** The loop succeeds and emits exactly the shares from the one-second schedule. */
  lemma {:induction false} LoopHandsOut(
      cfg: Config, pools: Pools, tokens: seq<Addr>, token: Addr, lower: nat, found: bool, changed: nat,
      t: Tally, n: nat, at: nat)
    requires n < |cfg.schedule| && cfg.schedule[n] == Second(at) && forall e | e in cfg.schedule :: e.start < e.end
    requires cfg.totalWeight > 0 && changed > 0 && |t.emitted| == |cfg.schedule|
    requires Distinct(tokens) && forall a | a in tokens :: a in pools && pools[a].lastDistributed <= at
    requires token in tokens ==> pools[token].weight <= cfg.totalWeight
    requires token in tokens ==> changed == cfg.totalWeight - pools[token].weight + lower
    ensures UpdateEach(cfg, pools, tokens, token, lower, at + 1, found).Ok?
    ensures var t' := SettleAll(t, cfg, pools, tokens, token, lower, at + 1);
            && |t'.emitted| == |cfg.schedule|
            && t'.emitted[n] == t.emitted[n] + Shares(pools, tokens, token, cfg.totalWeight, changed)
    decreases |tokens|
  {
    hide ComputePoolReward, Received, Ratio, Distinct;
    if tokens != [] {
      var a, rest := tokens[0], tokens[1..];
      ReceivedSecond(cfg, pools[a], n, at);
      PoolKept(cfg, pools[a], at + 1);
      DistinctTail(tokens);
      var pool := ComputePoolReward(cfg, pools[a], at + 1).value;
      var t1 := Receive(t, a, Received(cfg, pools[a], at + 1));
      if a == token {
        var next := pool.(weight := lower);
        SharesElsewhere(pools, pools[a := next], rest, token, changed, changed);
        LoopHandsOut(cfg.(totalWeight := changed), pools[a := next], rest, token, lower, true, changed, t1, n, at);
      } else {
        SharesElsewhere(pools, pools[a := pool], rest, token, cfg.totalWeight, changed);
        LoopHandsOut(cfg, pools[a := pool], rest, token, lower, found, changed, t1, n, at);
      }
    }
  }

  // ----- the shares add up to more than the whole -----

  /** the weights of a list of pools */
  function WeightOf(pools: Pools, tokens: seq<Addr>): nat
    requires forall a | a in tokens :: a in pools
  {
    if tokens == [] then 0 else pools[tokens[0]].weight + WeightOf(pools, tokens[1..])
  }

  /** the weights of the pools after the changed one */
  function WeightAfter(pools: Pools, tokens: seq<Addr>, token: Addr): nat
    requires forall a | a in tokens :: a in pools
  {
    if tokens == [] then 0
    else if tokens[0] == token then WeightOf(pools, tokens[1..])
    else WeightAfter(pools, tokens[1..], token)
  }

  /** one rounded share, compared over both totals */
  lemma ShareAtLeast(weight: nat, total: nat, other: nat)
    requires total > 0
    ensures Ratio(weight, total) * (total * other) >= E * (weight * other) - total * other
  {
    RatioBounds(weight, total);
    OverBoth(Ratio(weight, total), weight, total, other, E);
  }

  lemma OverBoth(q: nat, weight: nat, total: nat, other: nat, e: nat)
    requires weight * e < q * total + total
    ensures q * (total * other) >= e * (weight * other) - total * other
  {
    MulMono(weight * e, q * total + total, other);
    assert (q * total + total) * other == q * (total * other) + total * other;
    assert weight * e * other == e * (weight * other);
  }

  lemma {:induction false} LaterShares(pools: Pools, tokens: seq<Addr>, token: Addr, changed: nat, total: nat)
    requires total > 0 && changed > 0 && token !in tokens && forall a | a in tokens :: a in pools
    ensures Shares(pools, tokens, token, changed, changed) * (changed * total)
            >= E * (WeightOf(pools, tokens) * total) - |tokens| * (changed * total)
    decreases |tokens|
  {
    if tokens != [] {
      var w, rest := pools[tokens[0]].weight, tokens[1..];
      LaterShares(pools, rest, token, changed, total);
      ShareAtLeast(w, changed, total);
      AddUp(Ratio(w, changed), Shares(pools, rest, token, changed, changed), changed * total,
            w, WeightOf(pools, rest), total, |rest|, E);
    }
  }

  lemma AddUp(x: int, y: int, p: int, w: int, v: int, k: int, n: int, e: int)
    requires x * p >= e * (w * k) - p && y * p >= e * (v * k) - n * p
    ensures (x + y) * p >= e * ((w + v) * k) - (n + 1) * p
  {
    assert (x + y) * p == x * p + y * p;
    assert (w + v) * k == w * k + v * k;
    assert e * (w * k + v * k) == e * (w * k) + e * (v * k);
    assert (n + 1) * p == n * p + p;
  }

  /** pools up to the changed one are settled against the old total, the others against the
      new one */
  lemma {:induction false} AllShares(pools: Pools, tokens: seq<Addr>, token: Addr, total: nat, changed: nat)
    requires total > 0 && changed > 0 && token in tokens && Distinct(tokens) && forall a | a in tokens :: a in pools
    ensures var later := WeightAfter(pools, tokens, token);
            var first := WeightOf(pools, tokens) - later;
            && first >= 0
            && Shares(pools, tokens, token, total, changed) * (total * changed)
               >= E * (first * changed + later * total) - |tokens| * (total * changed)
    decreases |tokens|
  {
    hide Distinct, Ratio;
    var a, w, rest := tokens[0], pools[tokens[0]].weight, tokens[1..];
    DistinctTail(tokens);
    ShareAtLeast(w, total, changed);
    if a == token {
      LaterShares(pools, rest, token, changed, total);
      assert changed * total == total * changed;
      AddMixed(Ratio(w, total), Shares(pools, rest, token, changed, changed), total * changed,
               w * changed, WeightOf(pools, rest) * total, |rest|, E);
    } else {
      AllShares(pools, rest, token, total, changed);
      var later := WeightAfter(pools, rest, token);
      var first := WeightOf(pools, rest) - later;
      AddMixed(Ratio(w, total), Shares(pools, rest, token, total, changed), total * changed,
               w * changed, first * changed + later * total, |rest|, E);
      assert (w + first) * changed == w * changed + first * changed;
    }
  }

  lemma AddMixed(x: int, y: int, p: int, a: int, b: int, n: int, e: int)
    requires x * p >= e * a - p && y * p >= e * b - n * p
    ensures (x + y) * p >= e * (a + b) - (n + 1) * p
  {
    assert (x + y) * p == x * p + y * p;
    assert e * (a + b) == e * a + e * b;
    assert (n + 1) * p == n * p + p;
  }

  /** what the later pools gain outweighs all rounding */
  lemma GainOutweighs(shares: nat, total: nat, changed: nat, later: nat, n: nat, e: nat)
    requires 0 < changed < total && 0 < later <= total && n * (total * total) < e
    requires shares * (total * changed) >= e * ((total - later) * changed + later * total) - n * (total * changed)
    ensures shares > e
  {
    var p := total * changed;
    assert (total - later) * changed + later * total == p + later * (total - changed) by {
      assert (total - later) * changed == total * changed - later * changed;
      assert later * (total - changed) == later * total - later * changed;
    }
    MulMono(1, total - changed, later);
    MulMono(1, later * (total - changed), e);
    MulMono(changed, total, total);
    MulMono(p, total * total, n);
    Exceeds(shares, p, later * (total - changed), n, e);
  }

  lemma Exceeds(shares: nat, p: nat, gain: nat, n: nat, e: nat)
    requires p > 0 && shares * p >= e * (p + gain) - n * p && e <= e * gain && n * p < e
    ensures shares > e
  {
    assert e * (p + gain) == e * p + e * gain;
    MulCancelLt(e, shares, p);
  }

  lemma {:induction false} WeightsListed(pools: Pools, tokens: seq<Addr>, keys: set<Addr>)
    requires keys <= pools.Keys && Distinct(tokens) && Elements(tokens) == keys
    requires forall a | a in tokens :: a in pools
    ensures WeightOf(pools, tokens) == Sum(keys, WeightPart(pools))
    decreases |tokens|
  {
    if tokens == [] {
      assert keys == {};
    } else {
      DistinctTail(tokens);
      ElementsHead(tokens);
      hide Distinct;
      assert tokens[0] in keys;
      SumPick(keys, tokens[0], WeightPart(pools));
      assert Elements(tokens[1..]) == keys - {tokens[0]};
      WeightsListed(pools, tokens[1..], keys - {tokens[0]});
    }
  }

  /** The changed weight is smaller and some pool settled later has weight. */
  lemma UnsafeMeans(pools: Pools, tokens: seq<Addr>, token: Addr, lower: nat)
    requires forall a | a in tokens :: a in pools
    requires !SafeWeight(pools, tokens, token, lower) && Distinct(tokens)
    ensures token in tokens && lower < pools[token].weight
    ensures WeightAfter(pools, tokens, token) > 0
    decreases |tokens|
  {
    var i, j :| 0 <= i < j < |tokens| && tokens[i] == token
                && !(pools[token].weight <= lower || pools[tokens[j]].weight == 0);
    LaterWeighs(pools, tokens, token, i, j);
  }

  lemma {:induction false} LaterWeighs(pools: Pools, tokens: seq<Addr>, token: Addr, i: nat, j: nat)
    requires forall a | a in tokens :: a in pools
    requires Distinct(tokens) && i < j < |tokens| && tokens[i] == token && pools[tokens[j]].weight > 0
    ensures WeightAfter(pools, tokens, token) > 0
    decreases |tokens|
  {
    DistinctTail(tokens);
    if tokens[0] == token {
      OneWeighs(pools, tokens[1..], j - 1);
    } else {
      LaterWeighs(pools, tokens[1..], token, i - 1, j - 1);
    }
  }

  lemma {:induction false} OneWeighs(pools: Pools, tokens: seq<Addr>, j: nat)
    requires forall a | a in tokens :: a in pools
    requires j < |tokens| && pools[tokens[j]].weight > 0
    ensures WeightOf(pools, tokens) > 0
    decreases |tokens|
  {
    if j > 0 {
      OneWeighs(pools, tokens[1..], j - 1);
    }
  }

  lemma {:induction false} AfterWithin(pools: Pools, tokens: seq<Addr>, token: Addr)
    requires token in tokens && forall a | a in tokens :: a in pools
    ensures WeightAfter(pools, tokens, token) + pools[token].weight <= WeightOf(pools, tokens)
    decreases |tokens|
  {
    if tokens[0] != token {
      assert tokens == [tokens[0]] + tokens[1..];
      AfterWithin(pools, tokens[1..], token);
    }
  }

  /** the rounding of the weights is finer than their differences */
  predicate Modest(n: nat, total: nat) {
    n * (total * total) < E
  }

  lemma AllWeight(pools: Pools, tokens: seq<Addr>)
    requires tokens == Ascending(pools.Keys)
    ensures Distinct(tokens) && forall a | a in tokens :: a in pools
    ensures WeightSum(pools) == WeightOf(pools, tokens)
  {
    hide Ascending, StrictlyAscending, Distinct, Sum, WeightOf;
    AscendingDistinct(tokens);
    assert Elements(tokens) == pools.Keys;
    WeightsListed(pools, tokens, pools.Keys);
  }

  lemma ModestGain(shares: nat, total: nat, changed: nat, later: nat, n: nat)
    requires 0 < changed < total && 0 < later <= total && Modest(n, total)
    requires shares * (total * changed) >= E * ((total - later) * changed + later * total) - n * (total * changed)
    ensures shares > E
  {
    GainOutweighs(shares, total, changed, later, n, E);
  }

  /** the shares of an unsafe change exceed the whole */
  lemma UnsafeShares(pools: Pools, tokens: seq<Addr>, token: Addr, lower: nat, total: nat)
    requires tokens == Ascending(pools.Keys) && total == WeightSum(pools) && Modest(|tokens|, total)
    requires !SafeWeight(pools, tokens, token, lower)
    ensures Distinct(tokens) && token in tokens && token in pools
    ensures pools[token].weight <= total && total - pools[token].weight + lower > 0 && total > 0
    ensures Shares(pools, tokens, token, total, total - pools[token].weight + lower) > E
  {
    hide Shares, Ascending, SafeWeight, Distinct, WeightAfter, WeightOf, WeightSum, Modest;
    AllWeight(pools, tokens);
    UnsafeMeans(pools, tokens, token, lower);
    AfterWithin(pools, tokens, token);
    var later, changed := WeightAfter(pools, tokens, token), total - pools[token].weight + lower;
    AllShares(pools, tokens, token, total, changed);
    ModestGain(Shares(pools, tokens, token, total, changed), total, changed, later, |tokens|);
  }

  lemma SoundParts(w: World)
    requires Sound(w)
    ensures var s := w.store;
            && WeightSum(s.pools) == s.cfg.totalWeight
            && |w.tally.emitted| == |s.cfg.schedule|
            && (forall a | a in s.pools :: s.pools[a].lastDistributed <= w.now)
            && (forall e | e in s.cfg.schedule :: e.start < e.end)
  {
    hide Books, Registered, RewardsSound, WeightSum, EntryBudget;
    forall j | 0 <= j < |w.store.cfg.schedule| ensures w.store.cfg.schedule[j].start < w.store.cfg.schedule[j].end {
      assert EntrySound(w.store.cfg.schedule[j], w.store.cfg.totalWeight, w.store.pools, w.tally, j);
    }
  }

  /** the owner adds a schedule of one second, and changes a weight when it is over */
  function Lowering(owner: Addr, token: Addr, lower: nat, at: nat): seq<Tx> {
    [Tx(at, Extend(owner, [Second(at)])), Tx(at + 1, ChangeToken(owner, token, None, Some(lower)))]
  }

  lemma ExtendSecond(w: World, at: nat)
    ensures var w1 := Step(w, at, Extend(w.store.cfg.owner, [Second(at)]));
            && w1.store == w.store.(cfg := w.store.cfg.(schedule := w.store.cfg.schedule + [Second(at)]))
            && w1.tally.emitted == w.tally.emitted + [0]
  {
    assert seq(|[Second(at)]|, _ => 0) == [0];
  }

  lemma ChangeStep(w: World, now: nat, token: Addr, weight: nat)
    requires Reweight(w.store, now, token, weight).Ok?
    ensures var w' := Step(w, now, ChangeToken(w.store.cfg.owner, token, None, Some(weight)));
            && w'.store == Reweight(w.store, now, token, weight).value
            && w'.tally.emitted
               == SettleAll(w.tally, w.store.cfg, w.store.pools, Ascending(w.store.pools.Keys), token, weight, now).emitted
  {
    hide Reweight, SettleAll, Ascending;
  }

  /** the change of weight, a second after the schedule was added */
  lemma SecondOverspends(s: Storage, t: Tally, token: Addr, lower: nat, n: nat, at: nat)
    requires n < |s.cfg.schedule| && s.cfg.schedule[n] == Second(at)
    requires forall e | e in s.cfg.schedule :: e.start < e.end
    requires forall a | a in s.pools :: s.pools[a].lastDistributed <= at
    requires WeightSum(s.pools) == s.cfg.totalWeight && |t.emitted| == |s.cfg.schedule|
    requires Modest(|Ascending(s.pools.Keys)|, s.cfg.totalWeight)
    requires !SafeWeight(s.pools, Ascending(s.pools.Keys), token, lower)
    ensures Reweight(s, at + 1, token, lower).Ok?
    ensures Reweight(s, at + 1, token, lower).value.cfg.schedule == s.cfg.schedule
    ensures var t' := SettleAll(t, s.cfg, s.pools, Ascending(s.pools.Keys), token, lower, at + 1);
            |t'.emitted| == |s.cfg.schedule| && t'.emitted[n] > E
  {
    hide UpdateEach, SettleAll, Shares, Ascending, SafeWeight, Distinct, WeightSum, Modest;
    var tokens := Ascending(s.pools.Keys);
    UnsafeShares(s.pools, tokens, token, lower, s.cfg.totalWeight);
    LoopHandsOut(s.cfg, s.pools, tokens, token, lower, false, s.cfg.totalWeight - s.pools[token].weight + lower, t, n, at);
    LoopShape(s.cfg, s.pools, tokens, token, lower, at + 1, false);
  }

  /** In every sound world, a change of weight that is not safe can be made to overspend: the
      one-second schedule added before it emits more than its whole amount, as long as the
      weights are modest.  The condition of the emission budget is exact. */
  lemma UnsafeOverspends(w: World, token: Addr, lower: nat, at: nat)
    requires Sound(w) && w.now <= at
    requires Modest(|Ascending(w.store.pools.Keys)|, w.store.cfg.totalWeight)
    requires !SafeWeight(w.store.pools, Ascending(w.store.pools.Keys), token, lower)
    ensures var w', n := Run(w, Lowering(w.store.cfg.owner, token, lower, at)), |w.store.cfg.schedule|;
            && w'.store.cfg.schedule == w.store.cfg.schedule + [Second(at)]
            && |w'.tally.emitted| == n + 1
            && w'.tally.emitted[n] > w'.store.cfg.schedule[n].amount
  {
    hide Sound, Step, Reweight, SettleAll, Ascending, SafeWeight, WeightSum, Modest;
    var s, n := w.store, |w.store.cfg.schedule|;
    var txs, w1 := Lowering(s.cfg.owner, token, lower, at), Step(w, at, Extend(s.cfg.owner, [Second(at)]));
    SoundParts(w);
    ExtendSecond(w, at);
    SecondOverspends(w1.store, w1.tally, token, lower, n, at);
    ChangeStep(w1, at + 1, token, lower);
    assert txs[1..] == [txs[1]] && txs[1..][1..] == [];
    var w2 := Step(w1, txs[1].now, txs[1].op);
    assert Run(w2, []) == w2;
  }
}
