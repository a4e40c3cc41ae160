/** Changes of pool weights in LP staking: the settling loops, and when they keep the
    emission budget. */
module LpStakingReweighting {
  import opened Addresses
  import opened Results
  import opened FixedPoint
  import opened Sums
  import opened RewardIndex
  import opened LpStakingModel
  import opened LpStakingOrders
  import opened LpStakingCustody
  import opened LpStakingBudget
  import opened LpStakingRewards

  // ----- the budget of all schedules -----

  ghost predicate Budgeted(schedule: seq<Entry>, total: nat, pools: Pools, t: Tally, now: nat) {
    && |t.base| == |t.emitted| == |schedule|
    && WeightSum(pools) == total
    && TimesWithin(pools, t.since, now)
    && (forall j | 0 <= j < |schedule| :: EntrySound(schedule[j], total, pools, t, j))
  }

  ghost predicate EntrySound(e: Entry, total: nat, pools: Pools, t: Tally, j: nat)
    requires j < |t.base| && j < |t.emitted|
  {
    e.start < e.end && EntryBudget(e, pools, total, t.since, t.base[j], t.emitted[j])
  }

  lemma LaterTimes(pools: Pools, since: nat, before: nat, now: nat)
    requires TimesWithin(pools, since, before) && before <= now
    ensures TimesWithin(pools, since, now)
  {
  }

  lemma SameWeight(pools: Pools, a: Addr, pool: Pool)
    requires a in pools && pool.weight == pools[a].weight
    ensures WeightSum(pools[a := pool]) == WeightSum(pools)
  {
    var after := pools[a := pool];
    SumUpdate(pools.Keys, after.Keys, a, WeightPart(pools), WeightPart(after));
  }

  lemma TimesAfter(pools: Pools, since: nat, now: nat, a: Addr, pool: Pool)
    requires TimesWithin(pools, since, now) && pool.lastDistributed == now
    ensures TimesWithin(pools[a := pool], since, now)
  {
  }

  /** bringing one pool up to date keeps the budget, if the total weight used is no smaller
      than the budget's, or the pool has no weight */
  lemma SettleBudgeted(
      cfg: Config, total: nat, pools: Pools, t: Tally, now: nat, a: Addr, before: Pool, pool: Pool)
    requires Budgeted(cfg.schedule, total, pools, t, now) && a in pools
    requires before.weight == pools[a].weight && before.lastDistributed == pools[a].lastDistributed
    requires total <= cfg.totalWeight || before.weight == 0
    requires ComputePoolReward(cfg, before, now).Ok?
    requires pool.weight == before.weight && pool.lastDistributed == now
    ensures Budgeted(cfg.schedule, total, pools[a := pool], Receive(t, a, Received(cfg, before, now)), now)
  {
    hide ComputePoolReward, WeightSum, TimesWithin, EntryBudget, EntryReward, Received;
    ReceivedLength(cfg, before, now);
    EntryRewardsAt(cfg.schedule, cfg.totalWeight, before, now);
    hide EntryRewards;
    var received := Received(cfg, before, now);
    var after, t' := pools[a := pool], Receive(t, a, received);
    SameWeight(pools, a, pool);
    TimesAfter(pools, t.since, now, a, pool);
    forall j | 0 <= j < |cfg.schedule| ensures EntrySound(cfg.schedule[j], total, after, t', j) {
      assert EntrySound(cfg.schedule[j], total, pools, t, j);
      SettleKeepsBudget(cfg.schedule[j], pools, total, cfg.totalWeight, t.since, t.base[j], t.emitted[j],
                        a, before, pool, now);
    }
  }

  /** what was emitted is within the time that has passed */
  ghost predicate Paced(schedule: seq<Entry>, t: Tally, now: nat) {
    && |t.emitted| == |schedule|
    && forall j | 0 <= j < |schedule| :: PacedAt(schedule[j], t.emitted[j], now)
  }

  ghost predicate PacedAt(e: Entry, emitted: nat, now: nat) {
    e.start < e.end && (e.end - e.start) * emitted <= e.amount * Elapsed(e, now)
  }

  lemma BudgetedIsPaced(schedule: seq<Entry>, total: nat, pools: Pools, t: Tally, now: nat)
    requires Budgeted(schedule, total, pools, t, now)
    ensures Paced(schedule, t, now)
  {
    hide WeightSum, TimesWithin, EntryBudget, Elapsed;
    forall j | 0 <= j < |schedule| ensures PacedAt(schedule[j], t.emitted[j], now) {
      assert EntrySound(schedule[j], total, pools, t, j);
      EmittedWithinTime(schedule[j], pools, total, t.since, t.base[j], t.emitted[j], now);
    }
  }

  /** No schedule ever pays out more than its amount. */
  lemma WithinAmounts(schedule: seq<Entry>, total: nat, pools: Pools, t: Tally, now: nat)
    requires Budgeted(schedule, total, pools, t, now)
    ensures forall j | 0 <= j < |schedule| :: t.emitted[j] <= schedule[j].amount
  {
    hide WeightSum, TimesWithin, EntryBudget;
    forall j | 0 <= j < |schedule| ensures t.emitted[j] <= schedule[j].amount {
      assert EntrySound(schedule[j], total, pools, t, j);
      EmittedWithinAmount(schedule[j], pools, total, t.since, t.base[j], t.emitted[j], now);
    }
  }

  /** the history starts anew, with every pool settled and new weights */
  ghost function Restart(t: Tally, now: nat): Tally {
    t.(since := now, base := t.emitted, settlements := 0)
  }

  lemma RestartBudgeted(schedule: seq<Entry>, total: nat, pools: Pools, t: Tally, now: nat)
    requires Paced(schedule, t, now)
    requires WeightSum(pools) == total && forall a | a in pools :: pools[a].lastDistributed == now
    ensures Budgeted(schedule, total, pools, Restart(t, now), now)
  {
    hide WeightSum, Elapsed, SettledTime;
    var t' := Restart(t, now);
    forall j | 0 <= j < |schedule| ensures EntrySound(schedule[j], total, pools, t', j) {
      var e := schedule[j];
      assert PacedAt(e, t.emitted[j], now);
      SettledTimeNonneg(pools, e, now);
      MulNonneg(e.amount, SettledTime(pools, e, now));
      assert (t.emitted[j] - t.emitted[j]) * total * (e.end - e.start) == 0;
    }
  }

  // ----- the settling loop -----

  /** the tally of the loop of `update_staking_token` */
  ghost function SettleAll(t: Tally, cfg: Config, pools: Pools, tokens: seq<Addr>, token: Addr, weight: nat, now: nat): Tally
    requires forall a | a in tokens :: a in pools
    decreases |tokens|
  {
    if tokens == [] || ComputePoolReward(cfg, pools[tokens[0]], now).Err? then t
    else
      var pool := ComputePoolReward(cfg, pools[tokens[0]], now).value;
      var t1 := Receive(t, tokens[0], Received(cfg, pools[tokens[0]], now));
      if tokens[0] == token then
        if cfg.totalWeight < pool.weight then t
        else SettleAll(t1, cfg.(totalWeight := cfg.totalWeight - pool.weight + weight),
                       pools[tokens[0] := pool.(weight := weight)], tokens[1..], token, weight, now)
      else SettleAll(t1, cfg, pools[tokens[0] := pool], tokens[1..], token, weight, now)
  }

  /** one pool after the loop */
  ghost predicate PoolSettled(before: Pool, after: Pool, weight: nat, now: nat) {
    && after.lastDistributed == now && after.weight == weight
    && after.totalBond == before.totalBond && after.totalPendingWithdraw == before.totalPendingWithdraw
    && after.rewardIndex >= before.rewardIndex
  }

  ghost predicate AllSettled(pools: Pools, pools': Pools, tokens: seq<Addr>, token: Addr, weight: nat, now: nat) {
    && pools'.Keys == pools.Keys
    && (forall a | a in pools && a !in tokens :: pools'[a] == pools[a])
    && (forall a | a in pools && a in tokens ::
          PoolSettled(pools[a], pools'[a], if a == token then weight else pools[a].weight, now))
  }

  lemma {:induction false} LoopShape(
      cfg: Config, pools: Pools, tokens: seq<Addr>, token: Addr, weight: nat, now: nat, found: bool)
    requires forall a | a in tokens :: a in pools
    requires Distinct(tokens)
    requires UpdateEach(cfg, pools, tokens, token, weight, now, found).Ok?
    ensures var r := UpdateEach(cfg, pools, tokens, token, weight, now, found).value;
            && AllSettled(pools, r.pools, tokens, token, weight, now)
            && r.found == (found || token in tokens)
            && (token in tokens ==> cfg.totalWeight >= pools[token].weight)
            && r.cfg == cfg.(totalWeight := if token in tokens then cfg.totalWeight - pools[token].weight + weight
                                            else cfg.totalWeight)
    decreases |tokens|
  {
    hide ComputePoolReward;
    if tokens != [] {
      var a, rest := tokens[0], tokens[1..];
      PoolKept(cfg, pools[a], now);
      var pool := ComputePoolReward(cfg, pools[a], now).value;
      DistinctTail(tokens);
      if a == token {
        LoopShape(cfg.(totalWeight := cfg.totalWeight - pool.weight + weight),
                  pools[a := pool.(weight := weight)], rest, token, weight, now, true);
      } else {
        LoopShape(cfg, pools[a := pool], rest, token, weight, now, found);
      }
    }
  }

  lemma DistinctTail(q: seq<nat>)
    requires Distinct(q) && q != []
    ensures Distinct(q[1..]) && q[0] !in q[1..]
    ensures forall x :: x in q <==> x == q[0] || x in q[1..]
  {
    assert q == [q[0]] + q[1..];
    assert forall i | 0 <= i < |q[1..]| :: q[1..][i] == q[i + 1];
  }

  lemma ReweighSound(rewards: Rewards, pools: Pools, t: Tally, a: Addr, weight: nat)
    requires RewardsSound(rewards, pools, t) && a in pools
    ensures RewardsSound(rewards, pools[a := pools[a].(weight := weight)], t)
  {
    hide Conserved, StakesOf, PendingSum;
    var after := pools[a := pools[a].(weight := weight)];
    assert after.Keys == pools.Keys;
    forall b | b in after ensures PoolSound(rewards, after, b, t) {
      assert PoolSound(rewards, pools, b, t);
    }
  }

  /** the loop keeps the law of every pool */
  lemma {:induction false} LoopRewards(
      rewards: Rewards, cfg: Config, pools: Pools, tokens: seq<Addr>, token: Addr, weight: nat, now: nat, found: bool, t: Tally)
    requires forall a | a in tokens :: a in pools
    requires UpdateEach(cfg, pools, tokens, token, weight, now, found).Ok?
    requires RewardsSound(rewards, pools, t) && |t.emitted| == |cfg.schedule|
    ensures RewardsSound(rewards, UpdateEach(cfg, pools, tokens, token, weight, now, found).value.pools,
                         SettleAll(t, cfg, pools, tokens, token, weight, now))
    ensures var t' := SettleAll(t, cfg, pools, tokens, token, weight, now);
            t'.paid == t.paid && t'.ledgers.Keys <= t.ledgers.Keys + pools.Keys
    decreases |tokens|
  {
    hide ComputePoolReward, RewardsSound, Received;
    if tokens != [] {
      var a, rest := tokens[0], tokens[1..];
      var pool := ComputePoolReward(cfg, pools[a], now).value;
      var t1 := Receive(t, a, Received(cfg, pools[a], now));
      ReceivedLength(cfg, pools[a], now);
      ReceiveSound(rewards, pools, t, a, cfg, now, pool);
      if a == token {
        ReweighSound(rewards, pools[a := pool], t1, a, weight);
        assert pools[a := pool][a := pool.(weight := weight)] == pools[a := pool.(weight := weight)];
        LoopRewards(rewards, cfg.(totalWeight := cfg.totalWeight - pool.weight + weight),
                    pools[a := pool.(weight := weight)], rest, token, weight, now, true, t1);
      } else {
        LoopRewards(rewards, cfg, pools[a := pool], rest, token, weight, now, found, t1);
      }
    }
  }

  /** The new weight is no smaller than the old one, or no pool that comes later has weight. */
  ghost predicate SafeWeight(pools: Pools, tokens: seq<Addr>, token: Addr, weight: nat)
    requires forall a | a in tokens :: a in pools
  {
    forall i, j | 0 <= i < j < |tokens| && tokens[i] == token ::
      pools[token].weight <= weight || pools[tokens[j]].weight == 0
  }

  lemma SafeTail(pools: Pools, tokens: seq<Addr>, token: Addr, weight: nat)
    requires tokens != [] && forall a | a in tokens :: a in pools
    requires SafeWeight(pools, tokens, token, weight)
    ensures forall a | a in tokens[1..] :: a in pools
    ensures SafeWeight(pools, tokens[1..], token, weight)
    ensures tokens[0] == token ==>
              pools[token].weight <= weight || forall a | a in tokens[1..] :: pools[a].weight == 0
  {
    var rest := tokens[1..];
    assert forall i | 0 <= i < |rest| :: rest[i] == tokens[i + 1];
  }

  /** pools as the budget sees them: settled ones with their old weights */
  ghost predicate Unsettled(pools: Pools, seen: Pools, tokens: seq<Addr>) {
    forall a | a in tokens ::
      && a in pools && a in seen
      && pools[a].weight == seen[a].weight && pools[a].lastDistributed == seen[a].lastDistributed
  }

  lemma UnsettledTail(pools: Pools, seen: Pools, tokens: seq<Addr>, pool: Pool, other: Pool)
    requires tokens != [] && Distinct(tokens) && Unsettled(pools, seen, tokens)
    ensures Distinct(tokens[1..])
    ensures Unsettled(pools[tokens[0] := pool], seen[tokens[0] := other], tokens[1..])
  {
    DistinctTail(tokens);
  }

  lemma SafeSame(pools: Pools, pools': Pools, tokens: seq<Addr>, token: Addr, weight: nat)
    requires forall a | a in tokens :: a in pools && a in pools' && pools'[a].weight == pools[a].weight
    requires SafeWeight(pools, tokens, token, weight)
    ensures SafeWeight(pools', tokens, token, weight)
  {
  }

  /** With a safe weight the loop stays within the budget, although later pools are settled
      against the changed total. */
  lemma {:induction false} LoopBudget(
      cfg: Config, pools: Pools, tokens: seq<Addr>, token: Addr, weight: nat, now: nat, found: bool,
      total: nat, seen: Pools, t: Tally)
    requires forall a | a in tokens :: a in pools
    requires Distinct(tokens) && Unsettled(pools, seen, tokens)
    requires UpdateEach(cfg, pools, tokens, token, weight, now, found).Ok?
    requires Budgeted(cfg.schedule, total, seen, t, now)
    requires SafeWeight(pools, tokens, token, weight)
    requires total <= cfg.totalWeight || forall a | a in tokens :: pools[a].weight == 0
    ensures Paced(cfg.schedule, SettleAll(t, cfg, pools, tokens, token, weight, now), now)
    decreases |tokens|
  {
    hide ComputePoolReward, Received, Budgeted, SafeWeight, Unsettled, Paced, Receive, Distinct;
    if tokens == [] {
      BudgetedIsPaced(cfg.schedule, total, seen, t, now);
    } else {
      var a, rest := tokens[0], tokens[1..];
      var pool := ComputePoolReward(cfg, pools[a], now).value;
      var t1 := Receive(t, a, Received(cfg, pools[a], now));
      PoolKept(cfg, pools[a], now);
      HeadSeen(pools, seen, tokens);
      SettleBudgeted(cfg, total, seen, t, now, a, pools[a], pool);
      SafeTail(pools, tokens, token, weight);
      var next := if a == token then pool.(weight := weight) else pool;
      UnsettledTail(pools, seen, tokens, next, pool);
      TailKept(pools, tokens, next);
      SafeSame(pools, pools[a := next], rest, token, weight);
      if a == token {
        LoopBudget(cfg.(totalWeight := cfg.totalWeight - pool.weight + weight), pools[a := next], rest, token, weight, now, true,
                   total, seen[a := pool], t1);
      } else {
        LoopBudget(cfg, pools[a := next], rest, token, weight, now, found, total, seen[a := pool], t1);
      }
    }
  }

  lemma HeadSeen(pools: Pools, seen: Pools, tokens: seq<Addr>)
    requires tokens != [] && Unsettled(pools, seen, tokens)
    ensures var a := tokens[0];
            && a in pools && a in seen
            && pools[a].weight == seen[a].weight && pools[a].lastDistributed == seen[a].lastDistributed
  {
  }

  lemma TailKept(pools: Pools, tokens: seq<Addr>, next: Pool)
    requires tokens != [] && Distinct(tokens) && forall a | a in tokens :: a in pools
    ensures forall a | a in tokens[1..] :: a in pools && pools[tokens[0] := next][a] == pools[a]
  {
    DistinctTail(tokens);
  }

  /** registering runs the same loop with a token that is not there */
  lemma {:induction false} RegisterIsUpdate(cfg: Config, pools: Pools, tokens: seq<Addr>, token: Addr, weight: nat, now: nat, found: bool)
    requires forall a | a in tokens :: a in pools
    requires RegisterEach(cfg, pools, tokens, token, now).Ok?
    ensures token !in tokens
    ensures UpdateEach(cfg, pools, tokens, token, weight, now, found)
            == Ok(Reweighted(cfg, RegisterEach(cfg, pools, tokens, token, now).value, found))
    decreases |tokens|
  {
    hide ComputePoolReward;
    if tokens != [] {
      var pool := ComputePoolReward(cfg, pools[tokens[0]], now).value;
      RegisterIsUpdate(cfg, pools[tokens[0] := pool], tokens[1..], token, weight, now, found);
      assert tokens == [tokens[0]] + tokens[1..];
    }
  }

  // ----- the new weights -----

  /** the loop changes the sum of the weights by the changed weight */
  lemma ReweighedSum(pools: Pools, pools': Pools, token: Addr, weight: nat, now: nat)
    requires AllSettled(pools, pools', Ascending(pools.Keys), token, weight, now)
    ensures WeightSum(pools')
            == WeightSum(pools) + if token in pools then weight - pools[token].weight else 0
  {
    SumUpdate(pools.Keys, pools'.Keys, token, WeightPart(pools), WeightPart(pools'));
  }

  /** books look at bonds and pending amounts only */
  lemma SettledBooks(s: Storage, pools': Pools, tokens: seq<Addr>, token: Addr, weight: nat, now: nat)
    requires Books(s) && AllSettled(s.pools, pools', tokens, token, weight, now)
    ensures Books(s.(pools := pools'))
  {
    hide BondSum, OwedSum, OrderSum;
    var s' := s.(pools := pools');
    forall t | t in s'.pools ensures PoolBooks(s', t) {
      assert PoolBooks(s, t);
    }
  }
}
