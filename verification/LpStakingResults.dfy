/** The main results about LP staking, and what its side conditions are needed for. */
module LpStakingResults {
  import opened Addresses
  import opened Results
  import opened FixedPoint
  import opened Sums
  import opened RewardIndex
  import opened LpStakingModel
  import opened LpStakingOrders
  import opened LpStakingCustody
  import opened LpStakingBudget
  import opened LpStakingRewards
  import opened LpStakingReweighting
  import opened LpStakingRuns
  import opened LpStakingHolding

  // ----- every run -----

  /** Every transaction keeps books, budget and rewards. */
  lemma StepSound(w: World, now: nat, op: Op)
    requires Sound(w) && Orderly(w, now, op)
    ensures Sound(Step(w, now, op))
  {
    hide Sound, Step, SafeWeight;
    match op
    case Stake(_, _, _) => StakeSound(w, now, op);
    case Unstake(_, _, _) => UnstakeSound(w, now, op);
    case Fetch(_, _) => FetchSound(w, now, op);
    case Claim(_, _) => ClaimSound(w, now, op);
    case StakeSurplus(_, _) => SurplusSound(w, now, op);
    case Donate(_, _) => DonateSound(w, now, op);
    case Extend(_, _) => ExtendSound(w, now, op);
    case NewToken(_, _, _, _) => NewTokenSound(w, now, op);
    case ChangeToken(_, _, _, _) => ChangeSound(w, now, op);
  }

  lemma {:induction false} RunSound(w: World, txs: seq<Tx>)
    requires Sound(w) && OrderlyRun(w, txs)
    ensures Sound(Run(w, txs))
    decreases |txs|
  {
    hide Sound, Step, Orderly;
    if txs != [] {
      StepSound(w, txs[0].now, txs[0].op);
      RunSound(Step(w, txs[0].now, txs[0].op), txs[1..]);
    }
  }

  /** a freshly instantiated contract, holding whatever it was sent before */
  function Start(s: Storage, now: nat, balances: map<Addr, nat>): World {
    var zeros := seq(|s.cfg.schedule|, _ => 0);
    World(s, now, balances, Tally(now, zeros, zeros, map[], map[], 0))
  }

  lemma {:induction false} FirstPoolsWeigh(news: seq<NewPool>, now: nat)
    requires forall i, j | 0 <= i < j < |news| :: news[i].token != news[j].token
    ensures WeightSum(FirstPools(news, now)) == FirstWeight(news)
    ensures forall a | a in FirstPools(news, now) ::
              var p := FirstPools(news, now)[a];
              && p.lastDistributed == now && p.totalBond == 0 && p.totalPendingWithdraw == 0
              && p.rewardIndex == 0 && p.pendingReward == 0
              && exists i :: 0 <= i < |news| && news[i].token == a
    decreases |news|
  {
    if news != [] {
      var rest := news[1..];
      assert forall i | 0 <= i < |rest| :: rest[i] == news[i + 1];
      FirstPoolsWeigh(rest, now);
      var pool := Pool(now, news[0].weight, 0, 0, 0, 0, news[0].period);
      assert news[0].token !in FirstPools(rest, now);
      NewWeight(FirstPools(rest, now), news[0].token, pool);
      forall a | a in FirstPools(news, now) ensures exists i :: 0 <= i < |news| && news[i].token == a {
        if a != news[0].token {
          var i :| 0 <= i < |rest| && rest[i].token == a;
          assert news[i + 1].token == a;
        } else {
          assert news[0].token == a;
        }
      }
    }
  }

  lemma StartBudget(schedule: seq<Entry>, total: nat, pools: Pools, t: Tally, now: nat)
    requires forall e | e in schedule :: e.start < e.end
    requires t.since == now && t.base == t.emitted == seq(|schedule|, _ => 0)
    requires WeightSum(pools) == total && forall a | a in pools :: pools[a].lastDistributed == now
    ensures Budgeted(schedule, total, pools, t, now)
  {
    hide WeightSum, EntryBudget;
    forall j | 0 <= j < |schedule| ensures EntrySound(schedule[j], total, pools, t, j) {
      assert schedule[j] in schedule;
      NewEntrySound(schedule[j], total, pools, now);
    }
  }

  lemma StartRewards(pools: Pools, t: Tally)
    requires forall a | a in pools :: pools[a].totalBond == 0 && pools[a].pendingReward == 0
    requires t.ledgers == map[] && t.paid == map[] && forall i | 0 <= i < |t.emitted| :: t.emitted[i] == 0
    ensures RewardsSound(map[], pools, t)
  {
    hide Conserved;
    SumSeqZeros([], t.emitted);
    assert [] + t.emitted == t.emitted;
    SumZero(pools.Keys, EmittedPart(t));
    var none: Rewards := map[];
    forall a | a in pools ensures PoolSound(none, pools, a, t) {
      EmptyConserved<RewardKey>(pools[a].rewardIndex);
      assert StakesOf(none, a) == map[];
      EmptyPart(none, a, Pending);
    }
  }

  lemma StartBooks(s: Storage)
    requires s.rewards == map[] && s.orders == map[] && s.stakers == {}
    requires forall a | a in s.pools :: s.pools[a].totalBond == 0 && s.pools[a].totalPendingWithdraw == 0
    ensures Books(s)
  {
    hide PartSum;
    forall t | t in s.pools ensures PoolBooks(s, t) {
      EmptyPart(s.rewards, t, Bonds);
      EmptyPart(s.rewards, t, Owed);
      SumZero(s.orders.Keys, OrderPart(s.orders, t));
    }
  }

  lemma StartSound(owner: Addr, prism: Addr, schedule: seq<Entry>, news: seq<NewPool>, now: nat, balances: map<Addr, nat>)
    requires Instantiate(owner, prism, schedule, news, now).Ok?
    ensures Sound(Start(Instantiate(owner, prism, schedule, news, now).value, now, balances))
  {
    hide Books, WeightSum, Budgeted, RewardsSound, FirstWeight;
    var s := Instantiate(owner, prism, schedule, news, now).value;
    FirstPoolsWeigh(news, now);
    hide FirstPools;
    var w := Start(s, now, balances);
    StartBooks(s);
    StartBudget(schedule, s.cfg.totalWeight, s.pools, w.tally, now);
    StartRewards(s.pools, w.tally);
  }

  /** Instantiation starts with books, cover and times in order, PRISM among the pools or not. */
  lemma StartHeld(owner: Addr, prism: Addr, schedule: seq<Entry>, news: seq<NewPool>, now: nat, balances: map<Addr, nat>)
    requires Instantiate(owner, prism, schedule, news, now).Ok?
    ensures var w := Start(Instantiate(owner, prism, schedule, news, now).value, now, balances);
            Held(w.store, w.balances) && Timely(w)
  {
    hide Books, WeightSum, FirstWeight;
    FirstPoolsWeigh(news, now);
    hide FirstPools;
    StartBooks(Instantiate(owner, prism, schedule, news, now).value);
  }

  // ----- emission and rewards -----

  ghost function PaidTotal(w: World): int {
    Sum(w.store.pools.Keys, (a: Addr) => PaidAt(w.tally, a))
  }

  ghost function ChangesTotal(w: World): int {
    Sum(w.store.pools.Keys, (a: Addr) => LedgerAt(w.tally, a).changes)
  }

  function Amounts(schedule: seq<Entry>): nat {
    if schedule == [] then 0 else schedule[0].amount + Amounts(schedule[1..])
  }

  lemma {:induction false} EmittedAtMostAmounts(schedule: seq<Entry>, emitted: seq<nat>)
    requires |emitted| == |schedule| && forall j | 0 <= j < |schedule| :: emitted[j] <= schedule[j].amount
    ensures SumSeq(emitted) <= Amounts(schedule)
    decreases |schedule|
  {
    if schedule != [] {
      EmittedAtMostAmounts(schedule[1..], emitted[1..]);
    }
  }

  /** a pool has paid no more than it received, up to one unit per change of a bond */
  lemma PoolPaysWithin(rewards: Rewards, pools: Pools, token: Addr, t: Tally)
    requires token in pools && PoolSound(rewards, pools, token, t)
    ensures PaidAt(t, token) <= LedgerAt(t, token).emitted + LedgerAt(t, token).changes
  {
    hide Conserved, StakesOf;
    var p := pools[token];
    CreditsBounded(StakesOf(rewards, token), p.rewardIndex, p.totalBond, p.pendingReward, LedgerAt(t, token));
    SumNonneg(rewards.Keys, Part(rewards, token, Pending));
  }

  lemma PaidWithinEmitted(w: World)
    requires Sound(w)
    ensures PaidTotal(w) <= SumSeq(w.tally.emitted) + ChangesTotal(w)
  {
    hide Books, Budgeted, PoolSound;
    var keys, t := w.store.pools.Keys, w.tally;
    var paid, changes := (a: Addr) => PaidAt(t, a), (a: Addr) => LedgerAt(t, a).changes;
    var bound := (a: Addr) => EmittedPart(t)(a) + changes(a);
    forall a | a in keys ensures paid(a) <= bound(a) {
      PoolPaysWithin(w.store.rewards, w.store.pools, a, t);
    }
    SumMono(keys, paid, bound);
    SumPlus(keys, EmittedPart(t), changes, bound);
  }

  /** The emission budget over every run: no schedule pays out more than its amount, however
      schedules overlap, pools are settled late, pools and schedules are added and weights
      change safely; and what stakers are paid stays within the amounts, up to less than one
      unit for each change of a bond. */
  lemma EmissionWithinSchedules(w: World, txs: seq<Tx>)
    requires Sound(w) && OrderlyRun(w, txs)
    ensures var w' := Run(w, txs);
            var schedule := w'.store.cfg.schedule;
            && |w'.tally.emitted| == |schedule|
            && (forall j | 0 <= j < |schedule| :: w'.tally.emitted[j] <= schedule[j].amount)
            && PaidTotal(w') <= Amounts(schedule) + ChangesTotal(w')
  {
    hide Run, OrderlyRun, Books, RewardsSound, EntrySound, PaidTotal, ChangesTotal;
    RunSound(w, txs);
    var w' := Run(w, txs);
    var schedule := w'.store.cfg.schedule;
    WithinAmounts(schedule, w'.store.cfg.totalWeight, w'.store.pools, w'.tally, w'.now);
    EmittedAtMostAmounts(schedule, w'.tally.emitted);
    PaidWithinEmitted(w');
  }

  // ----- unbonding and fetching always work -----

  lemma OnePartOfSum(rewards: Rewards, key: RewardKey, f: RewardInfo -> int)
    requires key in rewards && forall info :: f(info) >= 0
    ensures f(rewards[key]) <= PartSum(rewards, key.1, f)
  {
    SumAtLeastOne(rewards.Keys, key, Part(rewards, key.1, f));
  }

  lemma OrderSumNonneg(orders: Orders, token: Addr)
    ensures OrderSum(orders, token) >= 0
  {
    SumNonneg(orders.Keys, OrderPart(orders, token));
  }

  /** A pool can be brought up to date: there is weight, or no schedule runs between its last
      distribution and now. */
  ghost predicate Settleable(cfg: Config, pool: Pool, now: nat) {
    cfg.totalWeight > 0 || forall e | e in cfg.schedule :: e.start > now || e.end < pool.lastDistributed
  }

  lemma {:induction false} EntriesOkIff(schedule: seq<Entry>, total: nat, pool: Pool, now: nat)
    requires pool.lastDistributed <= now && forall e | e in schedule :: e.start < e.end
    ensures EntryRewards(schedule, total, pool, now).Ok?
            <==> (total > 0 || forall e | e in schedule :: e.start > now || e.end < pool.lastDistributed)
    decreases |schedule|
  {
    if schedule != [] {
      assert schedule == [schedule[0]] + schedule[1..];
      EntriesOkIff(schedule[1..], total, pool, now);
    }
  }

  lemma SettleableIff(cfg: Config, pool: Pool, now: nat)
    requires pool.lastDistributed <= now && forall e | e in cfg.schedule :: e.start < e.end
    ensures ComputePoolReward(cfg, pool, now).Ok? <==> Settleable(cfg, pool, now)
  {
    EntriesOkIff(cfg.schedule, cfg.totalWeight, pool, now);
    hide EntryRewards;
  }

  /** an order of the present second is never due */
  lemma SameSecond(orders: Orders, staker: Addr, token: Addr, info: RewardInfo, now: nat, period: nat)
    ensures var after := PullExpired(orders, staker, token, info, now, period).orders;
            (staker, token, now) in after <==> (staker, token, now) in orders
  {
    ScanExact(orders, staker, token, info, now, period);
    var after := PullExpired(orders, staker, token, info, now, period).orders;
    InTimes(orders, staker, token, now);
    InTimes(after, staker, token, now);
    hide PullExpired, OrderTimes;
    var all, left := OrderTimes(orders, staker, token), OrderTimes(after, staker, token);
    assert now in all ==> now in left;
  }

  lemma InTimes(orders: Orders, staker: Addr, token: Addr, time: nat)
    ensures time in OrderTimes(orders, staker, token) <==> (staker, token, time) in orders
  {
    var key: OrderKey := (staker, token, time);
    if key in orders {
      assert key in orders.Keys && key.2 == time;
    }
  }

  /** a settlement never underflows */
  lemma CreditPossible(pool: Pool, info: RewardInfo)
    requires info.rewardIndex <= pool.rewardIndex
    ensures ComputeStakerReward(pool, info).Ok?
  {
    CreditNonneg(RewardIndex.Stake(info.bond, info.rewardIndex), pool.rewardIndex);
  }

  /** In every reachable state an unbond succeeds exactly when the pool and the record exist,
      something is bonded that covers the amount, the pool can be brought up to date, and a
      pool with an unbonding period has no order of the same second.  It never fails for lack
      of tokens. */
  lemma UnbondSucceedsIff(w: World, now: nat, sender: Addr, token: Addr, amount: Option<nat>)
    requires Held(w.store, w.balances) && Timely(w) && w.now <= now
    ensures var s := w.store;
            Unbond(s, now, sender, token, amount).Ok? <==>
            && token in s.pools && (sender, token) in s.rewards
            && s.rewards[(sender, token)].bond > 0
            && (amount.Some? ==> amount.value <= s.rewards[(sender, token)].bond)
            && Settleable(s.cfg, s.pools[token], now)
            && (s.pools[token].unbondPeriod > 0 ==> (sender, token, now) !in s.orders)
    ensures Unbond(w.store, now, sender, token, amount).Ok? ==>
              Unbond(w.store, now, sender, token, amount).value.sent <= BalanceAt(w.balances, token)
  {
    hide Linked, PullExpired, ComputePoolReward, ComputeStakerReward, OrderSum, PartSum, SameElsewhere, UpdateOrRemove,
         Settleable;
    var s := w.store;
    if token in s.pools && (sender, token) in s.rewards {
      var info, p := s.rewards[(sender, token)], s.pools[token];
      SettleableIff(s.cfg, p, now);
      if Settleable(s.cfg, p, now) {
        var pulled := PullExpired(s.orders, sender, token, info, now, p.unbondPeriod);
        var pool := ComputePoolReward(s.cfg, p, now).value;
        PullMoves(s.orders, sender, token, info, now, p.unbondPeriod);
        SameSecond(s.orders, sender, token, info, now, p.unbondPeriod);
        PoolKept(s.cfg, p, now);
        CreditPossible(pool, pulled.info);
        StakerCredited(pool, pulled.info);
        assert PoolBooks(s, token);
        OnePartOfSum(s.rewards, (sender, token), Bonds);
        CoverUnder(s, w.balances, token);
      }
    }
  }

  /** a positive amount that the scan releases, the first `count` orders having been seen */
  ghost predicate DueAt(orders: Orders, staker: Addr, token: Addr, times: seq<nat>, i: nat, count: nat, now: nat, period: nat) {
    && i < |times| && count + i < 50
    && times[i] + period < now && OrderAt(orders, (staker, token, times[i])) > 0
  }

  /** An overdue order of a positive amount is among the first fifty of the staker. */
  ghost predicate SomethingDue(orders: Orders, staker: Addr, token: Addr, now: nat, period: nat) {
    exists i: nat :: DueAt(orders, staker, token, Ascending(OrderTimes(orders, staker, token)), i, 0, now, period)
  }

  lemma {:induction false} ExpiredPaysIff(orders: Orders, staker: Addr, token: Addr, times: seq<nat>, count: nat, now: nat, period: nat)
    ensures SumOrders(orders, staker, token, Expired(times, count, now, period)) > 0
            <==> exists i: nat :: DueAt(orders, staker, token, times, i, count, now, period)
    decreases |times|
  {
    if times != [] {
      var rest, seen := times[1..], count + 1;
      var expired := Expired(rest, seen, now, period);
      ExpiredPaysIff(orders, staker, token, rest, seen, now, period);
      assert ([times[0]] + expired)[1..] == expired;
      hide OrderAt, SumOrders;
      if SumOrders(orders, staker, token, expired) > 0 {
        var i: nat :| DueAt(orders, staker, token, rest, i, seen, now, period);
        assert DueAt(orders, staker, token, times, i + 1, count, now, period);
      } else if i: nat :| i > 0 && DueAt(orders, staker, token, times, i, count, now, period) {
        assert DueAt(orders, staker, token, rest, i - 1, seen, now, period);
      }
      OneExpired(orders, staker, token, times, count, now, period);
    }
  }

  /** one round of the scan */
  lemma OneExpired(orders: Orders, staker: Addr, token: Addr, times: seq<nat>, count: nat, now: nat, period: nat)
    requires times != []
    ensures SumOrders(orders, staker, token, Expired(times, count, now, period))
            == SumOrders(orders, staker, token, Expired(times[1..], count + 1, now, period))
               + if DueAt(orders, staker, token, times, 0, count, now, period)
                 then OrderAt(orders, (staker, token, times[0])) else 0
  {
    var expired := Expired(times[1..], count + 1, now, period);
    assert ([times[0]] + expired)[1..] == expired;
  }

  /** reading one order more than may be released makes no difference */
  lemma ScannedDue(orders: Orders, staker: Addr, token: Addr, i: nat, now: nat, period: nat)
    ensures DueAt(orders, staker, token, Scanned(orders, staker, token), i, 0, now, period)
            <==> DueAt(orders, staker, token, Ascending(OrderTimes(orders, staker, token)), i, 0, now, period)
  {
    hide OrderTimes, Ascending, OrderAt;
  }

  lemma PullPaysIff(orders: Orders, staker: Addr, token: Addr, info: RewardInfo, now: nat, period: nat)
    ensures PullExpired(orders, staker, token, info, now, period).info.withdrawable > 0
            <==> (info.withdrawable > 0 || SomethingDue(orders, staker, token, now, period))
  {
    hide Scanned, Expired, OrderTimes, SumOrders, Ascending, DueAt, RemoveOrders;
    var scanned := Scanned(orders, staker, token);
    ExpiredPaysIff(orders, staker, token, scanned, 0, now, period);
    forall i: nat
      ensures DueAt(orders, staker, token, scanned, i, 0, now, period)
              <==> DueAt(orders, staker, token, Ascending(OrderTimes(orders, staker, token)), i, 0, now, period)
    {
      ScannedDue(orders, staker, token, i, now, period);
    }
  }

  /** Released tokens can always be fetched: the call succeeds exactly when pool and record
      exist and something was released or is due, and the contract holds what it sends. */
  lemma FetchSucceedsIff(w: World, now: nat, sender: Addr, token: Addr)
    requires Held(w.store, w.balances)
    ensures var s := w.store;
            ClaimUnbonded(s, now, sender, token).Ok? <==>
            && token in s.pools && (sender, token) in s.rewards
            && (s.rewards[(sender, token)].withdrawable > 0
                || SomethingDue(s.orders, sender, token, now, s.pools[token].unbondPeriod))
    ensures ClaimUnbonded(w.store, now, sender, token).Ok? ==>
              ClaimUnbonded(w.store, now, sender, token).value.sent <= BalanceAt(w.balances, token)
  {
    hide Linked, PullExpired, OrderSum, PartSum, SameElsewhere, UpdateOrRemove, SomethingDue;
    var s := w.store;
    if token in s.pools && (sender, token) in s.rewards {
      var info, p := s.rewards[(sender, token)], s.pools[token];
      var pulled := PullExpired(s.orders, sender, token, info, now, p.unbondPeriod);
      PullMoves(s.orders, sender, token, info, now, p.unbondPeriod);
      PullPaysIff(s.orders, sender, token, info, now, p.unbondPeriod);
      OrderSumNonneg(pulled.orders, token);
      assert PoolBooks(s, token);
      OnePartOfSum(s.rewards, (sender, token), Owed);
      CoverUnder(s, w.balances, token);
    }
  }

  // ----- PRISM as a staking token -----

  /** a contract that takes PRISM itself as a staking token, and pays 50 of it in its first second */
  function PrismStart(): World {
    Start(Storage(Config(9, 5, [Entry(0, 1, 50)], 1), map[5 := Pool(0, 1, 0, 0, 0, 0, 0)], map[], map[], {}), 0, map[])
  }

  lemma PrismInstantiated()
    ensures Instantiate(9, 5, [Entry(0, 1, 50)], [NewPool(5, 1, 0)], 0) == Ok(PrismStart().store)
    ensures Held(PrismStart().store, PrismStart().balances)
  {
    var news := [NewPool(5, 1, 0)];
    assert news[1..] == [];
    assert FirstPools([], 0) == map[] && FirstWeight([]) == 0;
    assert FirstPools(news, 0) == map[5 := Pool(0, 1, 0, 0, 0, 0, 0)];
    StartHeld(9, 5, [Entry(0, 1, 50)], news, 0, map[]);
  }

  lemma NothingToPull(staker: Addr, token: Addr, info: RewardInfo, now: nat, period: nat)
    ensures PullExpired(map[], staker, token, info, now, period) == Pulled(info, map[], false)
  {
    assert OrderTimes(map[], staker, token) == {};
  }

  lemma OneSchedule(e: Entry, total: nat, pool: Pool, now: nat, r: nat)
    requires EntryReward(e, total, pool, now) == Ok(r)
    ensures EntryRewards([e], total, pool, now) == Ok([r]) && SumSeq([r]) == r
  {
    hide EntryReward;
    var none: seq<Entry> := [];
    var nothing: seq<nat> := [];
    assert [e][1..] == none && [r][1..] == nothing;
    assert EntryRewards(none, total, pool, now) == Ok(nothing);
    assert [r] + nothing == [r];
  }

  lemma PrismSettled(pool: Pool, now: nat, reward: nat)
    requires EntryReward(Entry(0, 1, 50), 1, pool, now) == Ok(reward)
    ensures ComputePoolReward(PrismStart().store.cfg, pool, now)
            == Ok(pool.(
                 lastDistributed := now,
                 rewardIndex := pool.rewardIndex + if pool.totalBond == 0 then 0 else Ratio(pool.pendingReward + reward, pool.totalBond),
                 pendingReward := if pool.totalBond == 0 then pool.pendingReward + reward else 0))
  {
    hide EntryReward, EntryRewards, SumSeq;
    OneSchedule(Entry(0, 1, 50), 1, pool, now, reward);
  }

  /** the same contract after 100 PRISM were staked */
  function PrismStaked(): Storage {
    PrismStart().store.(
      pools := map[5 := Pool(0, 1, 100, 0, 0, 0, 0)], rewards := map[(7, 5) := RewardInfo(0, 100, 0, 0)],
      stakers := {(5, 7)})
  }

  lemma PrismStakes()
    ensures Bond(PrismStart().store, 0, 5, 7, 100) == Ok(PrismStaked())
  {
    hide PullExpired, ComputePoolReward, ComputeStakerReward;
    var s, pool, info := PrismStart().store, Pool(0, 1, 0, 0, 0, 0, 0), RewardInfo(0, 0, 0, 0);
    NothingToPull(7, 5, info, 0, 0);
    NothingYet();
    PrismSettled(pool, 0, 0);
    CreditOf(pool, info, 0);
    assert s.pools[5 := Pool(0, 1, 100, 0, 0, 0, 0)] == map[5 := Pool(0, 1, 100, 0, 0, 0, 0)];
    assert {} + {(5, 7)} == {(5, 7)};
  }

  lemma CreditOf(pool: Pool, info: RewardInfo, amount: nat)
    requires info.rewardIndex == 0 && MulDec(info.bond, pool.rewardIndex) == amount
    ensures ComputeStakerReward(pool, info)
            == Ok(info.(rewardIndex := pool.rewardIndex, pendingReward := info.pendingReward + amount))
  {
    assert MulDec(info.bond, 0) == 0;
  }

  lemma NothingYet()
    ensures EntryReward(Entry(0, 1, 50), 1, Pool(0, 1, 0, 0, 0, 0, 0), 0) == Ok(0)
  {
  }

  lemma AllReleased()
    ensures EntryReward(Entry(0, 1, 50), 1, Pool(0, 1, 100, 0, 0, 0, 0), 1) == Ok(50)
    ensures Ratio(50, 100) == E / 2 && MulDec(100, E / 2) == 50
  {
  }

  lemma PrismPays()
    ensures ClaimRewards(PrismStaked(), 1, 7, Some(5)).Ok? && ClaimRewards(PrismStaked(), 1, 7, Some(5)).value.sent == 50
  {
    hide PullExpired, ComputePoolReward, ComputeStakerReward, UpdateOrRemove, EntryReward;
    var s, pool, info := PrismStaked(), Pool(0, 1, 100, 0, 0, 0, 0), RewardInfo(0, 100, 0, 0);
    NothingToPull(7, 5, info, 1, 0);
    AllReleased();
    PrismSettled(pool, 1, 50);
    CreditOf(pool.(lastDistributed := 1, rewardIndex := E / 2), info, 50);
    assert ClaimOne(s, 1, 7, 5).Ok? && ClaimOne(s, 1, 7, 5).value.sent == 50;
    var o := ClaimOne(s, 1, 7, 5).value;
    OneClaim(s, 1, 7, 5, o);
  }

  lemma OneClaim(s: Storage, now: nat, sender: Addr, token: Addr, o: Outcome)
    requires ClaimOne(s, now, sender, token) == Ok(o)
    ensures ClaimRewards(s, now, sender, Some(token)) == Ok(o)
  {
    hide ClaimOne;
    var none: seq<Addr> := [];
    assert [token][1..] == none;
    assert ClaimEach(o.store, now, sender, none) == Ok(Outcome(o.store, 0));
  }

  /** With PRISM as a staking token custody really fails: someone stakes 100 PRISM in the
      contract above, and a second later the claim of the reward is paid out of the stake. */
  lemma PrismStakedBreaksCustody()
    ensures Instantiate(9, 5, [Entry(0, 1, 50)], [NewPool(5, 1, 0)], 0) == Ok(PrismStart().store)
    ensures var w, txs := PrismStart(), [Tx(0, Op.Stake(5, 7, 100)), Tx(1, Claim(7, Some(5)))];
            var w' := Run(w, txs);
            && Held(w.store, w.balances) && !HeldThroughout(w, txs)
            && !Held(w'.store, w'.balances) && Books(w'.store)
            && w'.balances == map[5 := 50]
  {
    hide Bond, ClaimRewards, Books, Covered, Moving, ClaimTally, Advances, Held;
    var w, txs := PrismStart(), [Tx(0, Op.Stake(5, 7, 100)), Tx(1, Claim(7, Some(5)))];
    PrismInstantiated();
    PrismStakes();
    StepHeldIff(w, 0, txs[0].op);
    var w1 := Step(w, 0, txs[0].op);
    assert w1.balances == map[5 := 100];
    assert w1.store == PrismStaked();
    PrismPays();
    StepHeldIff(w1, 1, txs[1].op);
    var w2 := Step(w1, 1, txs[1].op);
    assert w2.balances == map[5 := 50];
    assert txs[1..] == [txs[1]] && txs[1..][1..] == [];
    assert Run(w2, []) == w2;
    CustodyLastsIff(w, txs);
  }
}
