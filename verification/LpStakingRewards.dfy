/** Rewards of LP staking: what each pool receives, what its stakers are credited, and what
    they are paid. */
module LpStakingRewards {
  import opened Addresses
  import opened Results
  import opened FixedPoint
  import opened Sums
  import opened RewardIndex
  import opened LpStakingModel
  import opened LpStakingOrders
  import opened LpStakingCustody

  /** The history of a run: what was emitted from each schedule, up to the last change of
      weights and in total; each pool's ledger, and what was paid out of it; and how often a
      pool was settled since that change. */
  datatype Tally = Tally(
    since: nat,
    base: seq<nat>,
    emitted: seq<nat>,
    ledgers: map<Addr, Ledger>,
    paid: map<Addr, int>,
    settlements: nat)

  function LedgerAt(t: Tally, token: Addr): Ledger {
    if token in t.ledgers then t.ledgers[token] else Ledger(0, 0, 0)
  }

  function PaidAt(t: Tally, token: Addr): int {
    if token in t.paid then t.paid[token] else 0
  }

  // ----- sequences of amounts, one for each schedule -----

  function AddEach(a: seq<nat>, b: seq<nat>): (r: seq<nat>)
    ensures |r| == Min(|a|, |b|)
    ensures forall i | 0 <= i < |r| :: r[i] == a[i] + b[i]
  {
    if a == [] || b == [] then [] else [a[0] + b[0]] + AddEach(a[1..], b[1..])
  }

  lemma {:induction false} AddEachSum(a: seq<nat>, b: seq<nat>)
    requires |a| == |b|
    ensures SumSeq(AddEach(a, b)) == SumSeq(a) + SumSeq(b)
    decreases |a|
  {
    if a != [] {
      AddEachSum(a[1..], b[1..]);
      assert AddEach(a, b)[1..] == AddEach(a[1..], b[1..]);
    }
  }

  lemma {:induction false} EntryRewardsAt(schedule: seq<Entry>, total: nat, pool: Pool, now: nat)
    requires EntryRewards(schedule, total, pool, now).Ok?
    ensures var r := EntryRewards(schedule, total, pool, now).value;
            && |r| == |schedule|
            && forall j | 0 <= j < |r| :: EntryReward(schedule[j], total, pool, now) == Ok(r[j])
    decreases |schedule|
  {
    hide EntryReward;
    if schedule != [] {
      EntryRewardsAt(schedule[1..], total, pool, now);
    }
  }

  // ----- the law of one pool -----

  ghost function StakesOf(rewards: Rewards, token: Addr): Stakes<RewardKey> {
    map k | k in rewards && k.1 == token :: Stake(rewards[k].bond, rewards[k].rewardIndex)
  }

  ghost predicate PoolConserved(rewards: Rewards, token: Addr, pool: Pool, l: Ledger) {
    Conserved(StakesOf(rewards, token), pool.rewardIndex, pool.totalBond, pool.pendingReward, l)
  }

  function Received(cfg: Config, pool: Pool, now: nat): seq<nat> {
    var r := EntryRewards(cfg.schedule, cfg.totalWeight, pool, now);
    if r.Ok? then r.value else []
  }

  /** bringing a pool up to date hands what it receives to its index, or lets it wait */
  lemma UpdateConserves(rewards: Rewards, token: Addr, cfg: Config, pool: Pool, now: nat, l: Ledger)
    requires PoolConserved(rewards, token, pool, l) && ComputePoolReward(cfg, pool, now).Ok?
    ensures PoolConserved(rewards, token, ComputePoolReward(cfg, pool, now).value,
                          l.(emitted := l.emitted + SumSeq(Received(cfg, pool, now))))
  {
    hide Conserved, StakesOf, EntryRewards;
    var stakes, amount := StakesOf(rewards, token), SumSeq(Received(cfg, pool, now));
    if pool.totalBond == 0 {
      WaitConserves(stakes, pool.rewardIndex, pool.totalBond, pool.pendingReward, l, amount);
    } else {
      DistributeConserves(stakes, pool.rewardIndex, pool.totalBond, pool.pendingReward, l, amount);
    }
  }

  /** the ledger after a staker is credited and gets a new bond */
  ghost function Credited(l: Ledger, before: RewardInfo, bond: nat, g: nat): Ledger {
    Touched(l, Stake(before.bond, before.rewardIndex), bond, g)
  }

  lemma StakesMoved(s: Storage, s': Storage, staker: Addr, token: Addr, info: RewardInfo)
    requires RecordMoved(s, s', staker, token, info)
    ensures var stakes, stakes', key := StakesOf(s.rewards, token), StakesOf(s'.rewards, token), (staker, token);
            || stakes' == stakes[key := Stake(info.bond, info.rewardIndex)]
            || (info.bond == 0 && stakes' == stakes - {key})
    ensures forall t | t != token :: StakesOf(s'.rewards, t) == StakesOf(s.rewards, t)
  {
    hide OrderTimes;
    var key: RewardKey := (staker, token);
    if s'.rewards == s.rewards[key := info] {
      assert StakesOf(s'.rewards, token) == StakesOf(s.rewards, token)[key := Stake(info.bond, info.rewardIndex)];
    } else {
      assert StakesOf(s'.rewards, token) == StakesOf(s.rewards, token) - {key};
    }
  }

  /** a staker without a record has bond zero, at whatever index */
  lemma FreshStake(s: Storage, staker: Addr, token: Addr, l: Ledger, bond: nat, g: nat)
    ensures var before := InfoOf(s, staker, token);
            Touched(l, StakeAt(StakesOf(s.rewards, token), (staker, token), g), bond, g) == Credited(l, before, bond, g)
  {
    var key: RewardKey := (staker, token);
    if key in s.rewards {
      assert StakesOf(s.rewards, token)[key] == Stake(s.rewards[key].bond, s.rewards[key].rewardIndex);
    } else {
      assert MulDec(0, g) == 0 && MulDec(0, 0) == 0;
    }
  }

  /** the tally after a pool was brought up to date */
  ghost function Receive(t: Tally, token: Addr, received: seq<nat>): Tally {
    var l := LedgerAt(t, token);
    t.(
      emitted := AddEach(t.emitted, received),
      ledgers := t.ledgers[token := l.(emitted := l.emitted + SumSeq(received))],
      settlements := t.settlements + 1)
  }

  /** and after one of its stakers was credited and paid */
  ghost function Credit1(t: Tally, token: Addr, before: RewardInfo, m: Move): Tally {
    t.(
      ledgers := t.ledgers[token := Credited(LedgerAt(t, token), before, m.info.bond, m.pool.rewardIndex)],
      paid := t.paid[token := PaidAt(t, token) + m.paid])
  }

  ghost function PendingSum(rewards: Rewards, token: Addr): int {
    PartSum(rewards, token, Pending)
  }

  /** what a pool's stakers were credited is pending or was paid */
  ghost predicate PoolPaid(rewards: Rewards, token: Addr, t: Tally) {
    PendingSum(rewards, token) + PaidAt(t, token) == LedgerAt(t, token).credited
  }

  ghost predicate PoolSound(rewards: Rewards, pools: Pools, token: Addr, t: Tally)
    requires token in pools
  {
    PoolConserved(rewards, token, pools[token], LedgerAt(t, token)) && PoolPaid(rewards, token, t)
  }

  ghost function EmittedPart(t: Tally): Addr -> int {
    (a: Addr) => LedgerAt(t, a).emitted
  }

  /** the pools received exactly what was emitted from the schedules */
  ghost predicate EmissionSplit(pools: Pools, t: Tally) {
    SumSeq(t.emitted) == Sum(pools.Keys, EmittedPart(t))
  }

  ghost predicate RewardsSound(rewards: Rewards, pools: Pools, t: Tally) {
    EmissionSplit(pools, t) && forall token | token in pools :: PoolSound(rewards, pools, token, t)
  }

  // ----- a pool is brought up to date -----

  lemma ReceiveSound(rewards: Rewards, pools: Pools, t: Tally, token: Addr, cfg: Config, now: nat, pool: Pool)
    requires RewardsSound(rewards, pools, t) && token in pools
    requires |t.emitted| == |cfg.schedule|
    requires ComputePoolReward(cfg, pools[token], now) == Ok(pool)
    ensures RewardsSound(rewards, pools[token := pool], Receive(t, token, Received(cfg, pools[token], now)))
  {
    hide ComputePoolReward, PoolConserved, PendingSum, Received;
    var received := Received(cfg, pools[token], now);
    ReceivedLength(cfg, pools[token], now);
    var t' := Receive(t, token, received);
    var after := pools[token := pool];
    UpdateConserves(rewards, token, cfg, pools[token], now, LedgerAt(t, token));
    forall other | other in after ensures PoolSound(rewards, after, other, t') {
      assert PoolSound(rewards, pools, other, t);
    }
    assert after.Keys == pools.Keys;
    EmissionGrows(pools, t, token, received);
  }

  lemma ReceivedLength(cfg: Config, pool: Pool, now: nat)
    requires ComputePoolReward(cfg, pool, now).Ok?
    ensures |Received(cfg, pool, now)| == |cfg.schedule|
    ensures EntryRewards(cfg.schedule, cfg.totalWeight, pool, now) == Ok(Received(cfg, pool, now))
  {
    EntryRewardsAt(cfg.schedule, cfg.totalWeight, pool, now);
  }

  lemma EmissionGrows(pools: Pools, t: Tally, token: Addr, received: seq<nat>)
    requires EmissionSplit(pools, t) && token in pools && |received| == |t.emitted|
    ensures EmissionSplit(pools, Receive(t, token, received))
  {
    var t' := Receive(t, token, received);
    AddEachSum(t.emitted, received);
    SumUpdate(pools.Keys, pools.Keys, token, EmittedPart(t), EmittedPart(t'));
  }

  // ----- a staker is credited -----

  lemma PendingMoved(s: Storage, s': Storage, staker: Addr, token: Addr, info: RewardInfo, t: Addr)
    requires RecordMoved(s, s', staker, token, info)
    ensures PendingSum(s'.rewards, t)
            == PendingSum(s.rewards, t)
               + if t == token then info.pendingReward - InfoOf(s, staker, token).pendingReward else 0
  {
    hide OrderTimes, PartSum;
    PartMoved(s.rewards, s'.rewards, (staker, token), info, t, Pending);
  }

  /** Crediting a staker after its pool was brought up to date keeps the law of every pool. */
  lemma CreditSound(s: Storage, s': Storage, now: nat, staker: Addr, token: Addr, m: Move, t: Tally)
    requires RewardsSound(s.rewards, s.pools, t) && |t.emitted| == |s.cfg.schedule|
    requires SettledMove(s, s', now, staker, token, m)
    ensures RewardsSound(s'.rewards, s'.pools,
                         Credit1(Receive(t, token, Received(s.cfg, s.pools[token], now)), token, InfoOf(s, staker, token), m))
  {
    hide RewardsSound, Received, ComputePoolReward, RecordMoved, SameElsewhere, TotalsFollow, Credit, InfoOf, Receive;
    var pool, before := ComputePoolReward(s.cfg, s.pools[token], now).value, InfoOf(s, staker, token);
    ReceiveSound(s.rewards, s.pools, t, token, s.cfg, now, pool);
    CreditAfter(s, s', staker, token, m, Receive(t, token, Received(s.cfg, s.pools[token], now)), pool) by {
      PoolKept(s.cfg, s.pools[token], now);
      MovedParts(s, s', staker, token, m);
    }
  }

  lemma MovedParts(s: Storage, s': Storage, staker: Addr, token: Addr, m: Move)
    requires Moved(s, s', staker, token, m.info, m.pool) && TotalsFollow(s, s', staker, token, m.info, m.pool)
    ensures RecordMoved(s, s', staker, token, m.info)
    ensures s'.pools == s.pools[token := m.pool]
    ensures m.pool.totalBond == s.pools[token].totalBond - InfoOf(s, staker, token).bond + m.info.bond
  {
  }

  lemma CreditAfter(s: Storage, s': Storage, staker: Addr, token: Addr, m: Move, t: Tally, pool: Pool)
    requires token in s.pools && RewardsSound(s.rewards, s.pools[token := pool], t)
    requires RecordMoved(s, s', staker, token, m.info)
    requires s'.pools == s.pools[token := m.pool]
    requires m.pool == pool.(totalBond := m.pool.totalBond, totalPendingWithdraw := m.pool.totalPendingWithdraw)
    requires m.pool.totalBond == pool.totalBond - InfoOf(s, staker, token).bond + m.info.bond
    requires m.info.rewardIndex == pool.rewardIndex
    requires m.info.pendingReward + m.paid
             == InfoOf(s, staker, token).pendingReward
                + Credit(Stake(InfoOf(s, staker, token).bond, InfoOf(s, staker, token).rewardIndex), pool.rewardIndex)
    ensures RewardsSound(s'.rewards, s'.pools, Credit1(t, token, InfoOf(s, staker, token), m))
  {
    hide RecordMoved, Conserved, InfoOf, PendingSum, StakesOf, Credit;
    var mid, before := s.pools[token := pool], InfoOf(s, staker, token);
    var t' := Credit1(t, token, before, m);
    StakesMoved(s, s', staker, token, m.info);
    assert PoolSound(s.rewards, mid, token, t);
    TokenTouched(s, s', staker, token, m, LedgerAt(t, token), pool);
    forall other | other in s'.pools ensures PoolSound(s'.rewards, s'.pools, other, t') {
      PendingMoved(s, s', staker, token, m.info, other);
      assert PoolSound(s.rewards, mid, other, t);
    }
    SplitSame(mid, s'.pools, t, t');
  }

  lemma SplitSame(pools: Pools, pools': Pools, t: Tally, t': Tally)
    requires EmissionSplit(pools, t) && pools'.Keys == pools.Keys && t'.emitted == t.emitted
    requires forall a :: LedgerAt(t', a).emitted == LedgerAt(t, a).emitted
    ensures EmissionSplit(pools', t')
  {
    SumCongruent(pools.Keys, EmittedPart(t), EmittedPart(t'));
  }

  lemma TokenTouched(s: Storage, s': Storage, staker: Addr, token: Addr, m: Move, l: Ledger, pool: Pool)
    requires PoolConserved(s.rewards, token, pool, l)
    requires RecordMoved(s, s', staker, token, m.info)
    requires m.pool.rewardIndex == pool.rewardIndex && m.pool.pendingReward == pool.pendingReward
    requires m.pool.totalBond == pool.totalBond - InfoOf(s, staker, token).bond + m.info.bond
    requires m.info.rewardIndex == pool.rewardIndex
    ensures PoolConserved(s'.rewards, token, m.pool, Credited(l, InfoOf(s, staker, token), m.info.bond, pool.rewardIndex))
  {
    hide RecordMoved, Conserved, Touched;
    var g := pool.rewardIndex;
    StakesMoved(s, s', staker, token, m.info);
    FreshStake(s, staker, token, l, m.info.bond, g);
    WeightOfRecord(s, staker, token, g);
    hide StakesOf, InfoOf;
    TouchConserves(StakesOf(s.rewards, token), StakesOf(s'.rewards, token), g, pool.totalBond, m.pool.totalBond,
                   pool.pendingReward, l, (staker, token), m.info.bond);
  }

  lemma WeightOfRecord(s: Storage, staker: Addr, token: Addr, g: nat)
    ensures StakeAt(StakesOf(s.rewards, token), (staker, token), g).weight == InfoOf(s, staker, token).bond
  {
  }

  /** a call that leaves bonds and pending rewards alone keeps the law as it is */
  lemma UntouchedSound(s: Storage, s': Storage, staker: Addr, token: Addr, info: RewardInfo, pool: Pool, t: Tally)
    requires RewardsSound(s.rewards, s.pools, t) && token in s.pools
    requires RecordMoved(s, s', staker, token, info) && (staker, token) in s.rewards
    requires info == InfoOf(s, staker, token).(withdrawable := info.withdrawable)
    requires s'.pools == s.pools[token := pool]
    requires pool == s.pools[token].(totalPendingWithdraw := pool.totalPendingWithdraw)
    ensures RewardsSound(s'.rewards, s'.pools, t)
  {
    hide RecordMoved, Conserved, PendingSum, StakesOf;
    StakesUntouched(s, s', staker, token, info, LedgerAt(t, token));
    forall other | other in s'.pools ensures PoolSound(s'.rewards, s'.pools, other, t) {
      PendingMoved(s, s', staker, token, info, other);
      StakesMoved(s, s', staker, token, info);
      assert PoolSound(s.rewards, s.pools, other, t);
    }
    SplitSame(s.pools, s'.pools, t, t);
  }

  /** dropping an empty record changes neither weight nor potential */
  lemma StakesUntouched(s: Storage, s': Storage, staker: Addr, token: Addr, info: RewardInfo, l: Ledger)
    requires RecordMoved(s, s', staker, token, info) && (staker, token) in s.rewards
    requires info == InfoOf(s, staker, token).(withdrawable := info.withdrawable)
    ensures forall g, total, pending ::
              Conserved(StakesOf(s.rewards, token), g, total, pending, l)
              ==> Conserved(StakesOf(s'.rewards, token), g, total, pending, l)
  {
    var key: RewardKey := (staker, token);
    var stakes, stakes' := StakesOf(s.rewards, token), StakesOf(s'.rewards, token);
    StakesMoved(s, s', staker, token, info);
    assert key in stakes && stakes[key] == Stake(s.rewards[key].bond, s.rewards[key].rewardIndex);
    hide RecordMoved, StakesOf, Conserved;
    if stakes' == stakes - {key} && info.bond == 0 {
      forall g, total, pending | Conserved(stakes, g, total, pending, l)
        ensures Conserved(stakes', g, total, pending, l)
      {
        DropConserves(stakes, g, total, pending, l, key);
      }
    } else {
      assert stakes' == stakes;
    }
  }
}
