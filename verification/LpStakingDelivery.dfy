/** What LP staking hands out at least: every settlement takes its share of each schedule up to
    four units, over every run, and all of it reaches the pool's index. */
module LpStakingDelivery {
  import opened Addresses
  import opened Results
  import opened FixedPoint
  import opened Sums
  import opened LpStakingModel
  import opened LpStakingOrders
  import opened LpStakingCustody
  import opened LpStakingBudget
  import opened LpStakingRewards
  import opened LpStakingReweighting
  import opened LpStakingRuns
  import opened LpStakingHolding
  import opened LpStakingResults

  // ----- one settlement -----

  /** an amount handed to a pool is its exact share of a schedule, short of four units at most */
  ghost predicate ShareIs(e: Entry, total: nat, pool: Pool, now: nat, x: nat) {
    var o, length := Overlap(e, pool.lastDistributed, now), e.end - e.start;
    && x * total * length <= e.amount * pool.weight * o
    && (e.amount <= E && length <= E ==> e.amount * pool.weight * o < (x + 4) * total * length)
  }

  /** A settlement takes from every schedule its share of the time since the last one, brings
      the pool to the present, and passes everything it took on to the index, rounded down once
      over the bond, or lets it wait while nothing is bonded. */
  lemma SettlementIs(cfg: Config, pool: Pool, now: nat)
    requires ComputePoolReward(cfg, pool, now).Ok?
    requires cfg.totalWeight > 0 && pool.lastDistributed <= now && forall e | e in cfg.schedule :: e.start < e.end
    ensures var pool', taken := ComputePoolReward(cfg, pool, now).value, Received(cfg, pool, now);
            var waiting, rise := pool.pendingReward + SumSeq(taken), pool'.rewardIndex - pool.rewardIndex;
            && |taken| == |cfg.schedule|
            && (forall j | 0 <= j < |taken| :: ShareIs(cfg.schedule[j], cfg.totalWeight, pool, now, taken[j]))
            && pool' == pool.(lastDistributed := now, rewardIndex := pool'.rewardIndex, pendingReward := pool'.pendingReward)
            && (pool.totalBond == 0 ==> rise == 0 && pool'.pendingReward == waiting)
            && (pool.totalBond > 0 ==>
                  && pool'.pendingReward == 0
                  && rise * pool.totalBond <= waiting * E < (rise + 1) * pool.totalBond)
  {
    hide EntryReward, Overlap;
    ReceivedLength(cfg, pool, now);
    EntryRewardsAt(cfg.schedule, cfg.totalWeight, pool, now);
    hide EntryRewards;
    var taken := Received(cfg, pool, now);
    forall j | 0 <= j < |taken| ensures ShareIs(cfg.schedule[j], cfg.totalWeight, pool, now, taken[j]) {
      TakenShare(cfg.schedule[j], cfg.totalWeight, pool, now, taken[j]);
    }
    hide Received;
    if pool.totalBond > 0 {
      RatioBounds(pool.pendingReward + SumSeq(taken), pool.totalBond);
    }
  }

  lemma TakenShare(e: Entry, total: nat, pool: Pool, now: nat, x: nat)
    requires e.start < e.end && total > 0 && pool.lastDistributed <= now && EntryReward(e, total, pool, now) == Ok(x)
    ensures ShareIs(e, total, pool, now, x)
  {
    hide EntryReward, Overlap;
    EntryRewardBound(e, total, pool, now);
    if e.amount <= E && e.end - e.start <= E {
      EntryRewardBelow(e, total, pool, now);
    }
  }

  // ----- all settlements since the weights last changed -----

  /** what a schedule has handed out since the last change of weights is at least the pools'
      weighted share of the time they were settled for, short of four units per settlement */
  ghost predicate EntryDelivered(e: Entry, total: nat, pools: Pools, t: Tally, j: nat)
    requires j < |t.base| && j < |t.emitted|
  {
    && e.start < e.end
    && (e.amount <= E && e.end - e.start <= E ==>
          e.amount * SettledTime(pools, e, t.since)
          <= (t.emitted[j] - t.base[j] + 4 * t.settlements) * total * (e.end - e.start))
  }

  ghost predicate Delivered(schedule: seq<Entry>, total: nat, pools: Pools, t: Tally, now: nat) {
    && |t.base| == |t.emitted| == |schedule|
    && WeightSum(pools) == total
    && TimesWithin(pools, t.since, now)
    && (forall j | 0 <= j < |schedule| :: EntryDelivered(schedule[j], total, pools, t, j))
  }

  ghost predicate WorldDelivered(w: World) {
    Delivered(w.store.cfg.schedule, w.store.cfg.totalWeight, w.store.pools, w.tally, w.now)
  }

  lemma LaterDelivered(w: World, now: nat)
    requires WorldDelivered(w) && w.now <= now
    ensures WorldDelivered(w.(now := now))
  {
    hide EntryDelivered, WeightSum;
    LaterTimes(w.store.pools, w.tally.since, w.now, now);
  }

  /** the parts of a tally the law looks at */
  ghost predicate SameEmission(t: Tally, t': Tally) {
    t'.since == t.since && t'.base == t.base && t'.emitted == t.emitted && t'.settlements == t.settlements
  }

  lemma DeliveredLooksAt(schedule: seq<Entry>, total: nat, pools: Pools, t: Tally, t': Tally, now: nat)
    requires Delivered(schedule, total, pools, t, now) && SameEmission(t, t')
    ensures Delivered(schedule, total, pools, t', now)
  {
    hide WeightSum, TimesWithin, SettledTime;
    forall j | 0 <= j < |schedule| ensures EntryDelivered(schedule[j], total, pools, t', j) {
      assert EntryDelivered(schedule[j], total, pools, t, j);
    }
  }

  /** settling one pool adds its share, and four units */
  lemma SettleDelivers(cfg: Config, pools: Pools, t: Tally, now: nat, a: Addr, pool: Pool)
    requires Delivered(cfg.schedule, cfg.totalWeight, pools, t, now) && a in pools
    requires ComputePoolReward(cfg, pools[a], now).Ok?
    requires pool.weight == pools[a].weight && pool.lastDistributed == now
    ensures Delivered(cfg.schedule, cfg.totalWeight, pools[a := pool], Receive(t, a, Received(cfg, pools[a], now)), now)
  {
    hide ComputePoolReward, WeightSum, TimesWithin, EntryDelivered, EntryReward, Received;
    var before := pools[a];
    ReceivedLength(cfg, before, now);
    EntryRewardsAt(cfg.schedule, cfg.totalWeight, before, now);
    hide EntryRewards;
    var received := Received(cfg, before, now);
    var after, t' := pools[a := pool], Receive(t, a, received);
    SameWeight(pools, a, pool);
    TimesAfter(pools, t.since, now, a, pool);
    forall j | 0 <= j < |cfg.schedule| ensures EntryDelivered(cfg.schedule[j], cfg.totalWeight, after, t', j) {
      assert EntryDelivered(cfg.schedule[j], cfg.totalWeight, pools, t, j);
      OneDelivers(cfg.schedule[j], cfg.totalWeight, pools, t, t', j, now, a, pool, received[j]);
    }
  }

  lemma OneDelivers(e: Entry, total: nat, pools: Pools, t: Tally, t': Tally, j: nat, now: nat, a: Addr, pool: Pool, x: nat)
    requires a in pools && TimesWithin(pools, t.since, now) && WeightSum(pools) == total
    requires pool.weight == pools[a].weight && pool.lastDistributed == now
    requires j < |t.base| && j < |t.emitted| && EntryDelivered(e, total, pools, t, j)
    requires EntryReward(e, total, pools[a], now) == Ok(x)
    requires t'.since == t.since && t'.base == t.base && t'.settlements == t.settlements + 1
    requires j < |t'.emitted| && t'.emitted[j] == t.emitted[j] + x
    ensures EntryDelivered(e, total, pools[a := pool], t', j)
  {
    hide EntryReward, Overlap, SettledTime, WeightSum;
    if e.amount <= E && e.end - e.start <= E {
      var w, o, length := pool.weight, Overlap(e, pools[a].lastDistributed, now), e.end - e.start;
      SettledTimeGrows(pools, e, t.since, a, pool, now);
      WeightWithin(pools, a);
      if total > 0 {
        EntryRewardBelow(e, total, pools[a], now);
      } else {
        assert w == 0 && e.amount * w * o == 0;
        assert (x + 4) * total * length == 0;
      }
      AddDelivered(t.emitted[j] - t.base[j] + 4 * t.settlements, x + 4, total, length, e.amount,
                   SettledTime(pools, e, t.since), w, o);
    }
  }

  lemma AddDelivered(d: int, x: int, total: nat, length: int, amount: nat, s: int, w: nat, o: nat)
    requires amount * s <= d * total * length && amount * w * o <= x * total * length
    ensures amount * (s + w * o) <= (d + x) * total * length
  {
    assert amount * (s + w * o) == amount * s + amount * w * o;
    assert (d + x) * total * length == d * total * length + x * total * length;
  }

  /** a pool's bonds and orders do not matter */
  lemma SamePoolDelivers(cfg: Config, pools: Pools, t: Tally, now: nat, a: Addr, pool: Pool)
    requires Delivered(cfg.schedule, cfg.totalWeight, pools, t, now) && a in pools
    requires pool.weight == pools[a].weight && pool.lastDistributed == pools[a].lastDistributed
    ensures Delivered(cfg.schedule, cfg.totalWeight, pools[a := pool], t, now)
  {
    hide WeightSum, SettledTime;
    var after := pools[a := pool];
    SameWeight(pools, a, pool);
    forall j | 0 <= j < |cfg.schedule| ensures EntryDelivered(cfg.schedule[j], cfg.totalWeight, after, t, j) {
      assert EntryDelivered(cfg.schedule[j], cfg.totalWeight, pools, t, j);
      SameSettledTime(pools, cfg.schedule[j], t.since, a, pool);
    }
  }

  /** no pool was settled for any time since a moment that is not before its last settlement */
  lemma NoSettledTime(pools: Pools, e: Entry, since: nat)
    requires forall a | a in pools :: pools[a].lastDistributed <= Max(since, e.start)
    ensures SettledTime(pools, e, since) == 0
  {
    forall a | a in pools.Keys ensures SettledPart(pools, e, since)(a) == 0 {
      assert Overlap(e, since, pools[a].lastDistributed) == 0;
    }
    hide Overlap;
    SumZero(pools.Keys, SettledPart(pools, e, since));
  }

  /** the law starts anew with the weights */
  lemma RestartDelivers(schedule: seq<Entry>, total: nat, pools: Pools, t: Tally, now: nat)
    requires |t.emitted| == |schedule| && WeightSum(pools) == total
    requires forall a | a in pools :: pools[a].lastDistributed == now
    requires forall e | e in schedule :: e.start < e.end
    ensures Delivered(schedule, total, pools, Restart(t, now), now)
  {
    hide WeightSum, SettledTime;
    var t' := Restart(t, now);
    forall j | 0 <= j < |schedule| ensures EntryDelivered(schedule[j], total, pools, t', j) {
      assert schedule[j] in schedule;
      NoSettledTime(pools, schedule[j], now);
      assert (t.emitted[j] - t.emitted[j] + 4 * 0) * total * (schedule[j].end - schedule[j].start) == 0;
    }
  }

  // ----- what the calls do to the pools -----

  /** the pool is settled, and its bond and orders may change */
  ghost predicate PoolMoved(s: Storage, s': Storage, now: nat, token: Addr) {
    && token in s.pools && token in s'.pools
    && s'.cfg == s.cfg && s'.pools == s.pools[token := s'.pools[token]]
    && ComputePoolReward(s.cfg, s.pools[token], now).Ok?
    && s'.pools[token].weight == s.pools[token].weight && s'.pools[token].lastDistributed == now
  }

  lemma BondPool(s: Storage, now: nat, token: Addr, sender: Addr, amount: nat)
    requires Bond(s, now, token, sender, amount).Ok?
    ensures PoolMoved(s, Bond(s, now, token, sender, amount).value, now, token)
  {
    hide PullExpired, ComputePoolReward, ComputeStakerReward;
    PoolKept(s.cfg, s.pools[token], now);
  }

  lemma UnbondPool(s: Storage, now: nat, sender: Addr, token: Addr, amount: Option<nat>)
    requires Unbond(s, now, sender, token, amount).Ok?
    ensures PoolMoved(s, Unbond(s, now, sender, token, amount).value.store, now, token)
  {
    hide PullExpired, ComputePoolReward, ComputeStakerReward;
    PoolKept(s.cfg, s.pools[token], now);
  }

  lemma ClaimPool(s: Storage, now: nat, sender: Addr, token: Addr)
    requires ClaimOne(s, now, sender, token).Ok?
    ensures PoolMoved(s, ClaimOne(s, now, sender, token).value.store, now, token)
  {
    hide PullExpired, ComputePoolReward, ComputeStakerReward;
    PoolKept(s.cfg, s.pools[token], now);
  }

  lemma FetchPool(s: Storage, now: nat, sender: Addr, token: Addr)
    requires ClaimUnbonded(s, now, sender, token).Ok?
    ensures var s' := ClaimUnbonded(s, now, sender, token).value.store;
            && token in s.pools && token in s'.pools
            && s'.cfg == s.cfg && s'.pools == s.pools[token := s'.pools[token]]
            && s'.pools[token].weight == s.pools[token].weight
            && s'.pools[token].lastDistributed == s.pools[token].lastDistributed
  {
    hide PullExpired;
  }

  lemma MovingEmission(t: Tally, s: Storage, s': Storage, now: nat, staker: Addr, token: Addr, paid: nat)
    requires token in s.pools && token in s'.pools
    ensures SameEmission(Receive(t, token, Received(s.cfg, s.pools[token], now)), Moving(t, s, s', now, staker, token, paid))
  {
    hide Received, Receive, Credited, InfoOf;
  }

  lemma MoveDelivers(w: World, now: nat, s': Storage, staker: Addr, token: Addr, paid: nat, balances: map<Addr, nat>)
    requires WorldDelivered(w) && w.now <= now && PoolMoved(w.store, s', now, token)
    ensures WorldDelivered(World(s', now, balances, Moving(w.tally, w.store, s', now, staker, token, paid)))
  {
    hide Delivered, Moving, ComputePoolReward, Received, Receive;
    var s := w.store;
    LaterDelivered(w, now);
    SettleDelivers(s.cfg, s.pools, w.tally, now, token, s'.pools[token]);
    MovingEmission(w.tally, s, s', now, staker, token, paid);
    DeliveredLooksAt(s.cfg.schedule, s.cfg.totalWeight, s'.pools, Receive(w.tally, token, Received(s.cfg, s.pools[token], now)),
                     Moving(w.tally, s, s', now, staker, token, paid), now);
  }

  lemma {:induction false} ClaimEachDelivers(w: World, now: nat, sender: Addr, tokens: seq<Addr>)
    requires WorldDelivered(w) && w.now <= now && ClaimEach(w.store, now, sender, tokens).Ok?
    ensures WorldDelivered(World(ClaimEach(w.store, now, sender, tokens).value.store, now, w.balances,
                                 ClaimTally(w.tally, w.store, now, sender, tokens)))
    decreases |tokens|
  {
    hide WorldDelivered, ClaimOne, Moving;
    if tokens == [] {
      LaterDelivered(w, now);
    } else {
      var o := ClaimOne(w.store, now, sender, tokens[0]).value;
      ClaimPool(w.store, now, sender, tokens[0]);
      MoveDelivers(w, now, o.store, sender, tokens[0], o.sent, w.balances);
      hide PoolMoved;
      ClaimOneFound(w.store, now, sender, tokens[0]);
      ClaimEachDelivers(World(o.store, now, w.balances, Moving(w.tally, w.store, o.store, now, sender, tokens[0], o.sent)),
                        now, sender, tokens[1..]);
    }
  }

  /** a new schedule lies ahead of every settlement */
  lemma ExtendDelivers(w: World, now: nat, caller: Addr, added: seq<Entry>)
    requires WorldDelivered(w) && w.now <= now && AddSchedule(w.store, now, caller, added).Ok?
    ensures WorldDelivered(World(AddSchedule(w.store, now, caller, added).value, now, w.balances, Extended(w.tally, |added|)))
  {
    hide WeightSum, SettledTime;
    var s, t' := w.store, Extended(w.tally, |added|);
    var schedule := s.cfg.schedule + added;
    LaterTimes(s.pools, w.tally.since, w.now, now);
    forall j | 0 <= j < |schedule| ensures EntryDelivered(schedule[j], s.cfg.totalWeight, s.pools, t', j) {
      if j < |s.cfg.schedule| {
        assert EntryDelivered(s.cfg.schedule[j], s.cfg.totalWeight, s.pools, w.tally, j);
      } else {
        assert schedule[j] in added;
        NoSettledTime(s.pools, schedule[j], w.tally.since);
        MulNonneg(4 * t'.settlements, s.cfg.totalWeight);
        MulNonneg(4 * t'.settlements * s.cfg.totalWeight, schedule[j].end - schedule[j].start);
      }
    }
  }

  lemma {:induction false} LoopLengths(cfg: Config, pools: Pools, tokens: seq<Addr>, token: Addr, weight: nat, now: nat, t: Tally)
    requires forall a | a in tokens :: a in pools
    requires |t.emitted| == |cfg.schedule|
    ensures |SettleAll(t, cfg, pools, tokens, token, weight, now).emitted| == |cfg.schedule|
    decreases |tokens|
  {
    hide ComputePoolReward, Received;
    if tokens != [] && ComputePoolReward(cfg, pools[tokens[0]], now).Ok? {
      var pool := ComputePoolReward(cfg, pools[tokens[0]], now).value;
      var t1 := Receive(t, tokens[0], Received(cfg, pools[tokens[0]], now));
      ReceivedLength(cfg, pools[tokens[0]], now);
      if tokens[0] != token {
        LoopLengths(cfg, pools[tokens[0] := pool], tokens[1..], token, weight, now, t1);
      } else if cfg.totalWeight >= pool.weight {
        LoopLengths(cfg.(totalWeight := cfg.totalWeight - pool.weight + weight), pools[tokens[0] := pool.(weight := weight)],
                    tokens[1..], token, weight, now, t1);
      }
    }
  }

  lemma SchedulesLast(schedule: seq<Entry>, total: nat, pools: Pools, t: Tally, now: nat)
    requires Delivered(schedule, total, pools, t, now)
    ensures forall e | e in schedule :: e.start < e.end
  {
    hide WeightSum, TimesWithin, SettledTime;
    forall j | 0 <= j < |schedule| ensures schedule[j].start < schedule[j].end {
      assert EntryDelivered(schedule[j], total, pools, t, j);
    }
  }

  /** the settling loop over all pools */
  lemma LoopDone(w: World, now: nat, token: Addr, weight: nat)
    requires WorldDelivered(w)
    requires UpdateEach(w.store.cfg, w.store.pools, Ascending(w.store.pools.Keys), token, weight, now, false).Ok?
    ensures var s, tokens := w.store, Ascending(w.store.pools.Keys);
            var r := UpdateEach(s.cfg, s.pools, tokens, token, weight, now, false).value;
            && (forall a | a in r.pools :: r.pools[a].lastDistributed == now)
            && r.pools.Keys == s.pools.Keys
            && r.cfg == s.cfg.(totalWeight := r.cfg.totalWeight)
            && r.cfg.totalWeight == WeightSum(r.pools)
            && r.found == (token in s.pools)
            && |SettleAll(w.tally, s.cfg, s.pools, tokens, token, weight, now).emitted| == |s.cfg.schedule|
            && (forall e | e in s.cfg.schedule :: e.start < e.end)
  {
    hide UpdateEach, SettleAll, Ascending, WeightSum, EntryDelivered, AllSettled;
    var s, tokens := w.store, Ascending(w.store.pools.Keys);
    AscendingDistinct(tokens);
    LoopShape(s.cfg, s.pools, tokens, token, weight, now, false);
    LoopLengths(s.cfg, s.pools, tokens, token, weight, now, w.tally);
    SchedulesLast(s.cfg.schedule, s.cfg.totalWeight, s.pools, w.tally, w.now);
    var r := UpdateEach(s.cfg, s.pools, tokens, token, weight, now, false).value;
    AllAtNow(s.pools, r.pools, token, weight, now);
    ReweighedSum(s.pools, r.pools, token, weight, now);
  }

  lemma NewTokenDelivers(w: World, now: nat, op: Op)
    requires WorldDelivered(w) && w.now <= now && op.NewToken?
    ensures WorldDelivered(Step(w, now, op))
  {
    hide Delivered, UpdateEach, RegisterEach, SettleAll, Ascending, WeightSum;
    var s, tokens := w.store, Ascending(w.store.pools.Keys);
    if Register(s, now, op.caller, op.token, op.period, op.weight).Err? {
      LaterDelivered(w, now);
    } else {
      RegisterIsUpdate(s.cfg, s.pools, tokens, op.token, op.weight, now, false);
      LoopDone(w, now, op.token, op.weight);
      var r := UpdateEach(s.cfg, s.pools, tokens, op.token, op.weight, now, false).value;
      var pool := Pool(now, op.weight, 0, 0, 0, 0, op.period);
      NewWeight(r.pools, op.token, pool);
      RestartDelivers(s.cfg.schedule, s.cfg.totalWeight + op.weight, r.pools[op.token := pool],
                      SettleAll(w.tally, s.cfg, s.pools, tokens, op.token, op.weight, now), now);
    }
  }

  lemma ReweightDelivers(w: World, now: nat, token: Addr, weight: nat)
    requires WorldDelivered(w) && w.now <= now && Reweight(w.store, now, token, weight).Ok?
    ensures WorldDelivered(World(Reweight(w.store, now, token, weight).value, now, w.balances,
                                 Restart(SettleAll(w.tally, w.store.cfg, w.store.pools, Ascending(w.store.pools.Keys),
                                                   token, weight, now), now)))
  {
    hide Delivered, UpdateEach, SettleAll, Ascending, WeightSum;
    var s, tokens := w.store, Ascending(w.store.pools.Keys);
    LoopDone(w, now, token, weight);
    var r := UpdateEach(s.cfg, s.pools, tokens, token, weight, now, false).value;
    RestartDelivers(s.cfg.schedule, r.cfg.totalWeight, r.pools,
                    SettleAll(w.tally, s.cfg, s.pools, tokens, token, weight, now), now);
  }

  lemma PeriodDelivers(w: World, token: Addr, period: nat)
    requires WorldDelivered(w) && token in w.store.pools
    ensures WorldDelivered(
              w.(store := w.store.(pools := w.store.pools[token := w.store.pools[token].(unbondPeriod := period)])))
  {
    hide Delivered;
    SamePoolDelivers(w.store.cfg, w.store.pools, w.tally, w.now, token, w.store.pools[token].(unbondPeriod := period));
  }

  lemma ChangeDelivers(w: World, now: nat, op: Op)
    requires WorldDelivered(w) && w.now <= now && op.ChangeToken?
    ensures WorldDelivered(Step(w, now, op))
  {
    hide WorldDelivered, Reweight, SettleAll, Ascending;
    var s := w.store;
    var r := UpdateToken(s, now, op.caller, op.token, op.newPeriod, op.newWeight);
    LaterDelivered(w, now);
    if r.Ok? {
      var w1 := w.(now := now);
      if op.newWeight.Some? {
        ReweightDelivers(w, now, op.token, op.newWeight.value);
        w1 := World(Reweight(s, now, op.token, op.newWeight.value).value, now, w.balances,
                    Restart(SettleAll(w.tally, s.cfg, s.pools, Ascending(s.pools.Keys), op.token,
                                      op.newWeight.value, now), now));
      }
      if op.newPeriod.Some? {
        PeriodDelivers(w1, op.token, op.newPeriod.value);
      }
    }
  }

  // ----- every run -----

  /** Every transaction keeps the law, whatever weights the owner sets. */
  lemma StepDelivers(w: World, now: nat, op: Op)
    requires WorldDelivered(w) && w.now <= now
    ensures WorldDelivered(Step(w, now, op))
  {
    hide WorldDelivered, Bond, Unbond, ClaimUnbonded, ClaimEach, ClaimTally, AddSchedule, Register, UpdateToken,
         Moving, SettleAll, Ascending, PoolMoved;
    LaterDelivered(w, now);
    match op
    case Stake(token, sender, amount) =>
      if Bond(w.store, now, token, sender, amount).Ok? {
        BondPool(w.store, now, token, sender, amount);
        MoveDelivers(w, now, Bond(w.store, now, token, sender, amount).value, sender, token, 0, Step(w, now, op).balances);
      }
    case StakeSurplus(token, sender) => SurplusDelivers(w, now, token, sender);
    case Unstake(sender, token, part) =>
      if Unbond(w.store, now, sender, token, part).Ok? {
        UnbondPool(w.store, now, sender, token, part);
        MoveDelivers(w, now, Unbond(w.store, now, sender, token, part).value.store, sender, token, 0, Step(w, now, op).balances);
      }
    case Fetch(sender, token) => FetchDelivers(w, now, sender, token);
    case Claim(sender, only) => ClaimDelivers(w, now, sender, only);
    case Donate(token, amount) => BalancesAside(w.(now := now), Step(w, now, op).balances);
    case Extend(caller, added) =>
      if AddSchedule(w.store, now, caller, added).Ok? {
        ExtendDelivers(w, now, caller, added);
      }
    case NewToken(_, _, _, _) => NewTokenDelivers(w, now, op);
    case ChangeToken(_, _, _, _) => ChangeDelivers(w, now, op);
  }

  lemma BalancesAside(w: World, balances: map<Addr, nat>)
    requires WorldDelivered(w)
    ensures WorldDelivered(w.(balances := balances))
  {
    hide Delivered;
  }

  lemma SurplusDelivers(w: World, now: nat, token: Addr, sender: Addr)
    requires WorldDelivered(w) && w.now <= now
    ensures WorldDelivered(Step(w, now, StakeSurplus(token, sender)))
  {
    hide WorldDelivered, Bond, Moving, PoolMoved;
    LaterDelivered(w, now);
    var r := AutoStake(w.store, now, token, sender, BalanceAt(w.balances, token));
    if r.Ok? {
      var pool := w.store.pools[token];
      BondPool(w.store, now, token, sender, BalanceAt(w.balances, token) - pool.totalBond - pool.totalPendingWithdraw);
      MoveDelivers(w, now, r.value, sender, token, 0, w.balances);
    }
  }

  lemma FetchDelivers(w: World, now: nat, sender: Addr, token: Addr)
    requires WorldDelivered(w) && w.now <= now
    ensures WorldDelivered(Step(w, now, Fetch(sender, token)))
  {
    hide Delivered, ClaimUnbonded;
    LaterDelivered(w, now);
    if ClaimUnbonded(w.store, now, sender, token).Ok? {
      FetchPool(w.store, now, sender, token);
      SamePoolDelivers(w.store.cfg, w.store.pools, w.tally, now, token,
                       ClaimUnbonded(w.store, now, sender, token).value.store.pools[token]);
    }
  }

  lemma ClaimDelivers(w: World, now: nat, sender: Addr, only: Option<Addr>)
    requires WorldDelivered(w) && w.now <= now
    ensures WorldDelivered(Step(w, now, Claim(sender, only)))
  {
    hide WorldDelivered, ClaimEach, ClaimTally, StakedTokens;
    LaterDelivered(w, now);
    var r := ClaimRewards(w.store, now, sender, only);
    if r.Ok? {
      var tokens := if only.Some? then [only.value] else StakedTokens(w.store.rewards, sender);
      ClaimEachDelivers(w, now, sender, tokens);
      BalancesAside(World(r.value.store, now, w.balances, ClaimTally(w.tally, w.store, now, sender, tokens)),
                    Step(w, now, Claim(sender, only)).balances);
    }
  }

  lemma StartDelivers(owner: Addr, prism: Addr, schedule: seq<Entry>, news: seq<NewPool>, now: nat, balances: map<Addr, nat>)
    requires Instantiate(owner, prism, schedule, news, now).Ok?
    ensures WorldDelivered(Start(Instantiate(owner, prism, schedule, news, now).value, now, balances))
  {
    hide WeightSum, FirstWeight, Delivered;
    FirstPoolsWeigh(news, now);
    hide FirstPools;
    var w := Start(Instantiate(owner, prism, schedule, news, now).value, now, balances);
    RestartDelivers(schedule, w.store.cfg.totalWeight, w.store.pools, w.tally, now);
    assert Restart(w.tally, now) == w.tally;
  }

  lemma {:induction false} RunDelivers(w: World, txs: seq<Tx>)
    requires WorldDelivered(w) && ClockForward(w.now, txs)
    ensures WorldDelivered(Run(w, txs))
    decreases |txs|
  {
    hide WorldDelivered, Step;
    if txs != [] {
      StepTime(w, txs[0].now, txs[0].op);
      StepDelivers(w, txs[0].now, txs[0].op);
      RunDelivers(Step(w, txs[0].now, txs[0].op), txs[1..]);
    }
  }

  /** once all pools were settled at or after the end, they were settled for all of it */
  lemma AllTimeSettled(pools: Pools, e: Entry, since: nat)
    requires forall a | a in pools :: e.end <= pools[a].lastDistributed
    ensures SettledTime(pools, e, since) == Overlap(e, since, e.end) * WeightSum(pools)
  {
    var o := Overlap(e, since, e.end);
    var whole := (a: Addr) => o * WeightPart(pools)(a);
    forall a | a in pools.Keys ensures SettledPart(pools, e, since)(a) == whole(a) {
      var w, part := pools[a].weight, Overlap(e, since, pools[a].lastDistributed);
      assert part == o;
      hide Overlap;
      assert SettledPart(pools, e, since)(a) == w * part;
      assert WeightPart(pools)(a) == w;
      assert w * o == o * w;
    }
    hide Overlap;
    SumCongruent(pools.Keys, SettledPart(pools, e, since), whole);
    SumScale(pools.Keys, WeightPart(pools), o, whole);
  }

  /** Over every run with a clock that runs forward: once every pool was settled at or after the
      end of a schedule, the pools have been handed all of its amount that belongs to the time
      since the weights last changed, short of four units for each settlement since then. */
  lemma SchedulesAreDelivered(w: World, txs: seq<Tx>, j: nat)
    requires WorldDelivered(w) && ClockForward(w.now, txs)
    requires var w' := Run(w, txs);
             && j < |w'.store.cfg.schedule| && w'.store.cfg.totalWeight > 0
             && (forall a | a in w'.store.pools :: w'.store.cfg.schedule[j].end <= w'.store.pools[a].lastDistributed)
             && w'.store.cfg.schedule[j].amount <= E
             && w'.store.cfg.schedule[j].end - w'.store.cfg.schedule[j].start <= E
    ensures var w' := Run(w, txs);
            var e, t := w'.store.cfg.schedule[j], w'.tally;
            && j < |t.emitted| && j < |t.base|
            && e.amount * Overlap(e, t.since, e.end) <= (t.emitted[j] - t.base[j] + 4 * t.settlements) * (e.end - e.start)
            && (t.since <= e.start ==> e.amount <= t.emitted[j] - t.base[j] + 4 * t.settlements)
  {
    hide Run, ClockForward, WeightSum, SettledTime;
    RunDelivers(w, txs);
    var w' := Run(w, txs);
    var e, t, total := w'.store.cfg.schedule[j], w'.tally, w'.store.cfg.totalWeight;
    assert EntryDelivered(e, total, w'.store.pools, t, j);
    AllTimeSettled(w'.store.pools, e, t.since);
    var d := t.emitted[j] - t.base[j] + 4 * t.settlements;
    CancelTotal(e.amount, Overlap(e, t.since, e.end), total, d, e.end - e.start);
    if t.since <= e.start {
      assert Overlap(e, t.since, e.end) == e.end - e.start;
      MulCancelLe(e.amount, d, e.end - e.start);
    }
  }

  lemma CancelTotal(amount: nat, o: nat, total: nat, d: int, length: int)
    requires total > 0 && amount * (o * total) <= d * total * length
    ensures amount * o <= d * length
  {
    assert amount * (o * total) == amount * o * total;
    assert d * total * length == d * length * total;
    MulCancelLe(amount * o, d * length, total);
  }

  // ----- other calls -----

  /** A new schedule hands out nothing at the moment it is added. */
  lemma AddedLater(s: Storage, now: nat, caller: Addr, added: seq<Entry>, pool: Pool)
    requires AddSchedule(s, now, caller, added).Ok? && pool.lastDistributed <= now && s.cfg.totalWeight > 0
    ensures caller == s.cfg.owner
    ensures AddSchedule(s, now, caller, added).value == s.(cfg := s.cfg.(schedule := s.cfg.schedule + added))
    ensures forall e | e in added ::
              e.amount > 0 && e.start < e.end && EntryReward(e, s.cfg.totalWeight, pool, now) == Ok(0)
  {
    forall e | e in added
      ensures e.amount > 0 && e.start < e.end && EntryReward(e, s.cfg.totalWeight, pool, now) == Ok(0)
    {
      assert e.start >= now;
    }
    hide Ratio;
  }

  /** An unbond from a pool with an unbonding period becomes an order of the same second, which
      no scan releases before the period is over. */
  lemma OrderWaits(s: Storage, now: nat, sender: Addr, token: Addr, amount: Option<nat>)
    requires Unbond(s, now, sender, token, amount).Ok? && s.pools[token].unbondPeriod > 0
    ensures var o := Unbond(s, now, sender, token, amount).value;
            var unbonded, key := (if amount.Some? then amount.value else s.rewards[(sender, token)].bond), (sender, token, now);
            && o.sent == 0 && key !in s.orders
            && key in o.store.orders && o.store.orders[key] == unbonded
            && forall info: RewardInfo, later: nat, period: nat | later <= now + period ::
                 key in PullExpired(o.store.orders, sender, token, info, later, period).orders
  {
    hide ComputePoolReward, ComputeStakerReward, UpdateOrRemove, PullExpired;
    var p := s.pools[token];
    PullMoves(s.orders, sender, token, s.rewards[(sender, token)], now, p.unbondPeriod);
    SameSecond(s.orders, sender, token, s.rewards[(sender, token)], now, p.unbondPeriod);
    PoolKept(s.cfg, p, now);
    var orders := Unbond(s, now, sender, token, amount).value.store.orders;
    assert orders == PullExpired(s.orders, sender, token, s.rewards[(sender, token)], now, p.unbondPeriod).orders
                     [(sender, token, now) := if amount.Some? then amount.value else s.rewards[(sender, token)].bond] by {
      UnbondOrders(s, now, sender, token, amount);
    }
    hide Unbond;
    forall info: RewardInfo, later: nat, period: nat | later <= now + period
      ensures (sender, token, now) in PullExpired(orders, sender, token, info, later, period).orders
    {
      StillWaits(orders, sender, token, info, now, later, period);
    }
  }

  lemma UnbondOrders(s: Storage, now: nat, sender: Addr, token: Addr, amount: Option<nat>)
    requires Unbond(s, now, sender, token, amount).Ok? && s.pools[token].unbondPeriod > 0
    ensures var p := PullExpired(s.orders, sender, token, s.rewards[(sender, token)], now, s.pools[token].unbondPeriod);
            && p.info.bond == s.rewards[(sender, token)].bond
            && Unbond(s, now, sender, token, amount).value.store.orders
               == p.orders[(sender, token, now) := if amount.Some? then amount.value else p.info.bond]
            && Unbond(s, now, sender, token, amount).value.sent == 0
            && (sender, token, now) !in p.orders
  {
    hide ComputePoolReward, ComputeStakerReward, PullExpired;
    PullMoves(s.orders, sender, token, s.rewards[(sender, token)], now, s.pools[token].unbondPeriod);
    PoolKept(s.cfg, s.pools[token], now);
  }

  lemma StillWaits(orders: Orders, staker: Addr, token: Addr, info: RewardInfo, at: nat, later: nat, period: nat)
    requires (staker, token, at) in orders && later <= at + period
    ensures (staker, token, at) in PullExpired(orders, staker, token, info, later, period).orders
  {
    ScanExact(orders, staker, token, info, later, period);
    var after := PullExpired(orders, staker, token, info, later, period).orders;
    InTimes(orders, staker, token, at);
    InTimes(after, staker, token, at);
    hide PullExpired, OrderTimes;
    var all, left := OrderTimes(orders, staker, token), OrderTimes(after, staker, token);
    assert at in all ==> at in left;
  }

  /** What only the owner may do: schedules, pools, weights and periods stay as they are when
      anybody else asks. */
  lemma OnlyTheOwner(w: World, now: nat, op: Op)
    requires op.Extend? || op.NewToken? || op.ChangeToken?
    requires op.caller != w.store.cfg.owner
    ensures Step(w, now, op) == w.(now := now)
  {
  }
}
