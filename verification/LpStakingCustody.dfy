/** Custody of staked LP tokens: the pools' totals are the sums of the stakers' records and
    orders, and no call loses an order or an owed amount. */
module LpStakingCustody {
  import opened Addresses
  import opened Results
  import opened Sums
  import opened RewardIndex
  import opened LpStakingModel
  import opened LpStakingOrders

  // ----- the books -----

  ghost function Part(rewards: Rewards, token: Addr, f: RewardInfo -> int): RewardKey -> int {
    (k: RewardKey) => if k in rewards && k.1 == token then f(rewards[k]) else 0
  }

  /** a quantity summed over one pool's records */
  ghost function PartSum(rewards: Rewards, token: Addr, f: RewardInfo -> int): int {
    Sum(rewards.Keys, Part(rewards, token, f))
  }

  const Bonds: RewardInfo -> int := (info: RewardInfo) => info.bond

  const Owed: RewardInfo -> int := (info: RewardInfo) => info.withdrawable

  const Pending: RewardInfo -> int := (info: RewardInfo) => info.pendingReward

  /** everything bonded in one pool */
  ghost function BondSum(rewards: Rewards, token: Addr): int {
    PartSum(rewards, token, Bonds)
  }

  /** everything released to its stakers and not yet fetched */
  ghost function OwedSum(rewards: Rewards, token: Addr): int {
    PartSum(rewards, token, Owed)
  }

  lemma PartMoved(rewards: Rewards, rewards': Rewards, key: RewardKey, info: RewardInfo, token: Addr, f: RewardInfo -> int)
    requires rewards' == rewards[key := info] || (f(info) == 0 && rewards' == rewards - {key})
    ensures PartSum(rewards', token, f)
            == PartSum(rewards, token, f)
               + if key.1 != token then 0 else f(info) - if key in rewards then f(rewards[key]) else 0
  {
    SumUpdate(rewards.Keys, rewards'.Keys, key, Part(rewards, token, f), Part(rewards', token, f));
  }

  ghost predicate PoolBooks(s: Storage, token: Addr)
    requires token in s.pools
  {
    && BondSum(s.rewards, token) == s.pools[token].totalBond
    && OrderSum(s.orders, token) + OwedSum(s.rewards, token) == s.pools[token].totalPendingWithdraw
  }

  /** Every record belongs to a pool and every order to a record, and the index of stakers
      lists exactly the records. */
  ghost predicate Linked(s: Storage) {
    && (forall k | k in s.rewards :: k.1 in s.pools)
    && (forall k | k in s.orders :: (k.0, k.1) in s.rewards)
    && (forall k: RewardKey :: (k.1, k.0) in s.stakers <==> k in s.rewards)
  }

  ghost predicate Books(s: Storage) {
    Linked(s) && forall t | t in s.pools :: PoolBooks(s, t)
  }

  // ----- one staker's record moves -----

  /** The record is replaced, or it was empty with no order left and is gone. */
  ghost predicate RecordMoved(s: Storage, s': Storage, staker: Addr, token: Addr, info: RewardInfo) {
    || (s'.rewards == s.rewards[(staker, token) := info] && s'.stakers == s.stakers + {(token, staker)})
    || (info.bond == 0 && info.withdrawable == 0 && info.pendingReward == 0
        && OrderTimes(s'.orders, staker, token) == {}
        && s'.rewards == s.rewards - {(staker, token)} && s'.stakers == s.stakers - {(token, staker)})
  }

  ghost predicate Moved(s: Storage, s': Storage, staker: Addr, token: Addr, info: RewardInfo, pool: Pool) {
    && token in s.pools
    && s'.cfg == s.cfg
    && s'.pools == s.pools[token := pool]
    && RecordMoved(s, s', staker, token, info)
    && SameElsewhere(s.orders, s'.orders, staker, token)
  }

  lemma MovedSums(s: Storage, s': Storage, staker: Addr, token: Addr, info: RewardInfo, t: Addr)
    requires RecordMoved(s, s', staker, token, info)
    ensures var before := InfoOf(s, staker, token);
            && BondSum(s'.rewards, t) == BondSum(s.rewards, t) + (if t == token then info.bond - before.bond else 0)
            && OwedSum(s'.rewards, t)
               == OwedSum(s.rewards, t) + if t == token then info.withdrawable - before.withdrawable else 0
  {
    hide OrderTimes, PartSum;
    PartMoved(s.rewards, s'.rewards, (staker, token), info, t, Bonds);
    PartMoved(s.rewards, s'.rewards, (staker, token), info, t, Owed);
  }

  lemma MovedLinked(s: Storage, s': Storage, staker: Addr, token: Addr, info: RewardInfo, pool: Pool)
    requires Linked(s) && Moved(s, s', staker, token, info, pool)
    ensures Linked(s')
  {
    forall k | k in s'.orders ensures (k.0, k.1) in s'.rewards {
      if k.0 == staker && k.1 == token {
        assert k.2 in OrderTimes(s'.orders, staker, token);
      }
    }
    hide OrderTimes;
  }

  /** the pool's totals follow the record and the orders */
  ghost predicate TotalsFollow(s: Storage, s': Storage, staker: Addr, token: Addr, info: RewardInfo, pool: Pool)
    requires token in s.pools
  {
    var before, p := InfoOf(s, staker, token), s.pools[token];
    && pool.totalBond == p.totalBond - before.bond + info.bond
    && pool.totalPendingWithdraw
       == p.totalPendingWithdraw - before.withdrawable + info.withdrawable
          + OrderSum(s'.orders, token) - OrderSum(s.orders, token)
  }

  lemma MovedBooks(s: Storage, s': Storage, staker: Addr, token: Addr, info: RewardInfo, pool: Pool)
    requires Books(s) && Moved(s, s', staker, token, info, pool)
    requires TotalsFollow(s, s', staker, token, info, pool)
    ensures Books(s')
  {
    hide BondSum, OwedSum, OrderSum, Linked, RecordMoved, SameElsewhere, InfoOf;
    MovedLinked(s, s', staker, token, info, pool);
    forall t | t in s'.pools ensures PoolBooks(s', t) {
      assert PoolBooks(s, t);
      MovedSums(s, s', staker, token, info, t);
      if t != token {
        OtherOrders(s.orders, s'.orders, staker, token, t);
      }
    }
  }

  // ----- what each call moves -----

  /** a record and pool after a call, and the reward it pays out */
  datatype Move = Move(info: RewardInfo, pool: Pool, paid: nat)

  /** The pool is brought up to date, the staker is credited at its new index, and the totals
      follow. */
  ghost predicate SettledMove(s: Storage, s': Storage, now: nat, staker: Addr, token: Addr, m: Move) {
    && Moved(s, s', staker, token, m.info, m.pool)
    && TotalsFollow(s, s', staker, token, m.info, m.pool)
    && ComputePoolReward(s.cfg, s.pools[token], now).Ok?
    && var pool, before := ComputePoolReward(s.cfg, s.pools[token], now).value, InfoOf(s, staker, token);
       && m.pool == pool.(totalBond := m.pool.totalBond, totalPendingWithdraw := m.pool.totalPendingWithdraw)
       && m.info.rewardIndex == pool.rewardIndex
       && m.info.pendingReward + m.paid
          == before.pendingReward + Credit(Stake(before.bond, before.rewardIndex), pool.rewardIndex)
  }

  lemma PoolKept(cfg: Config, pool: Pool, now: nat)
    requires ComputePoolReward(cfg, pool, now).Ok?
    ensures var pool' := ComputePoolReward(cfg, pool, now).value;
            && pool' == pool.(lastDistributed := now, rewardIndex := pool'.rewardIndex, pendingReward := pool'.pendingReward)
            && pool'.rewardIndex >= pool.rewardIndex
  {
    hide EntryRewards;
  }

  lemma StakerCredited(pool: Pool, info: RewardInfo)
    requires ComputeStakerReward(pool, info).Ok?
    ensures var info' := ComputeStakerReward(pool, info).value;
            && info' == info.(rewardIndex := pool.rewardIndex, pendingReward := info'.pendingReward)
            && info'.pendingReward == info.pendingReward + Credit(Stake(info.bond, info.rewardIndex), pool.rewardIndex)
  {
  }

  /** what pulling, updating the pool and crediting the staker have in common */
  ghost predicate Settled(s: Storage, now: nat, staker: Addr, token: Addr, pulled: Pulled, pool: Pool, info: RewardInfo)
    requires token in s.pools
  {
    var before, p := InfoOf(s, staker, token), s.pools[token];
    && pulled == PullExpired(s.orders, staker, token, before, now, p.unbondPeriod)
    && ComputePoolReward(s.cfg, p, now) == Ok(pool)
    && ComputeStakerReward(pool, pulled.info) == Ok(info)
  }

  lemma SettledFacts(s: Storage, now: nat, staker: Addr, token: Addr, pulled: Pulled, pool: Pool, info: RewardInfo)
    requires token in s.pools && Settled(s, now, staker, token, pulled, pool, info)
    ensures var before, p := InfoOf(s, staker, token), s.pools[token];
            && SameElsewhere(s.orders, pulled.orders, staker, token)
            && (pulled.ordersPending <==> OrderTimes(pulled.orders, staker, token) != {})
            && pulled.info.bond == before.bond
            && info.bond == before.bond
            && info.rewardIndex == pool.rewardIndex
            && info.withdrawable == before.withdrawable + OrderSum(s.orders, token) - OrderSum(pulled.orders, token)
            && info.pendingReward
               == before.pendingReward + Credit(Stake(before.bond, before.rewardIndex), pool.rewardIndex)
            && pool.totalBond == p.totalBond && pool.totalPendingWithdraw == p.totalPendingWithdraw
            && pool.unbondPeriod == p.unbondPeriod
  {
    var before, p := InfoOf(s, staker, token), s.pools[token];
    hide PullExpired, ComputePoolReward, ComputeStakerReward, OrderSum, SameElsewhere, Credit, OrderTimes, InfoOf;
    PullMoves(s.orders, staker, token, before, now, p.unbondPeriod);
    ScanExact(s.orders, staker, token, before, now, p.unbondPeriod);
    PoolKept(s.cfg, p, now);
    StakerCredited(pool, pulled.info);
  }

  lemma BondMoves(s: Storage, now: nat, token: Addr, sender: Addr, amount: nat) returns (m: Move)
    requires Bond(s, now, token, sender, amount).Ok?
    ensures var s' := Bond(s, now, token, sender, amount).value;
            && SettledMove(s, s', now, sender, token, m)
            && m.paid == 0
            && m.info.bond == InfoOf(s, sender, token).bond + amount
            && m.pool.totalBond + m.pool.totalPendingWithdraw
               == s.pools[token].totalBond + s.pools[token].totalPendingWithdraw + amount
  {
    hide PullExpired, ComputePoolReward, ComputeStakerReward, OrderSum, SameElsewhere, Credit, InfoOf, OrderTimes;
    var pulled := PullExpired(s.orders, sender, token, InfoOf(s, sender, token), now, s.pools[token].unbondPeriod);
    var pool := ComputePoolReward(s.cfg, s.pools[token], now).value;
    var info := ComputeStakerReward(pool, pulled.info).value;
    SettledFacts(s, now, sender, token, pulled, pool, info);
    m := Move(info.(bond := info.bond + amount), pool.(totalBond := pool.totalBond + amount), 0);
  }

  /** the last step of the other calls */
  lemma SavesOrDrops(s: Storage, s1: Storage, staker: Addr, token: Addr, info: RewardInfo, ordersPending: bool)
    requires Linked(s) && (staker, token) in s.rewards
    requires s1.rewards == s.rewards && s1.stakers == s.stakers
    requires ordersPending || OrderTimes(s1.orders, staker, token) == {}
    ensures var s' := UpdateOrRemove(s1, staker, token, info, ordersPending);
            && RecordMoved(s, s', staker, token, info)
            && s'.cfg == s1.cfg && s'.pools == s1.pools && s'.orders == s1.orders
  {
    hide OrderTimes;
    var key: RewardKey := (staker, token);
    assert (key.1, key.0) in s.stakers;
    assert s.stakers + {(token, staker)} == s.stakers;
  }

  lemma ClaimOneMoves(s: Storage, now: nat, sender: Addr, token: Addr) returns (m: Move)
    requires Linked(s) && ClaimOne(s, now, sender, token).Ok?
    ensures var o := ClaimOne(s, now, sender, token).value;
            && SettledMove(s, o.store, now, sender, token, m)
            && m.paid == o.sent
            && m.info.bond == InfoOf(s, sender, token).bond
            && m.pool.totalBond + m.pool.totalPendingWithdraw
               == s.pools[token].totalBond + s.pools[token].totalPendingWithdraw
  {
    hide PullExpired, ComputePoolReward, ComputeStakerReward, OrderSum, SameElsewhere, Credit, OrderTimes, Linked,
         UpdateOrRemove, RecordMoved;
    var pulled := PullExpired(s.orders, sender, token, InfoOf(s, sender, token), now, s.pools[token].unbondPeriod);
    var pool := ComputePoolReward(s.cfg, s.pools[token], now).value;
    var info := ComputeStakerReward(pool, pulled.info).value;
    SettledFacts(s, now, sender, token, pulled, pool, info);
    hide InfoOf;
    var s1 := s.(orders := pulled.orders, pools := s.pools[token := pool]);
    SavesOrDrops(s, s1, sender, token, info.(pendingReward := 0), pulled.ordersPending);
    m := Move(info.(pendingReward := 0), pool, info.pendingReward);
  }

  /** Fetching released tokens takes exactly the owed amount off the books, and does not
      touch bond or rewards. */
  lemma ClaimUnbondedMoves(s: Storage, now: nat, sender: Addr, token: Addr) returns (info: RewardInfo, pool: Pool)
    requires Linked(s) && ClaimUnbonded(s, now, sender, token).Ok?
    ensures var o := ClaimUnbonded(s, now, sender, token).value;
            var before := InfoOf(s, sender, token);
            && Moved(s, o.store, sender, token, info, pool)
            && TotalsFollow(s, o.store, sender, token, info, pool)
            && o.sent > 0 && o.sent >= before.withdrawable
            && info == before.(withdrawable := 0)
            && pool == s.pools[token].(totalPendingWithdraw := s.pools[token].totalPendingWithdraw - o.sent)
  {
    hide PullExpired, OrderSum, SameElsewhere, OrderTimes, Linked, RecordMoved, UpdateOrRemove;
    var before := s.rewards[(sender, token)];
    pool := s.pools[token];
    PullMoves(s.orders, sender, token, before, now, pool.unbondPeriod);
    ScanExact(s.orders, sender, token, before, now, pool.unbondPeriod);
    var pulled := PullExpired(s.orders, sender, token, before, now, pool.unbondPeriod);
    info := pulled.info.(withdrawable := 0);
    pool := pool.(totalPendingWithdraw := pool.totalPendingWithdraw - pulled.info.withdrawable);
    var s1 := s.(orders := pulled.orders, pools := s.pools[token := pool]);
    SavesOrDrops(s, s1, sender, token, info, pulled.ordersPending);
  }

  predicate ImmediateUnbond(s: Storage, token: Addr) {
    token in s.pools && s.pools[token].unbondPeriod == 0
  }

  lemma UnbondMoves(s: Storage, now: nat, sender: Addr, token: Addr, amount: Option<nat>) returns (m: Move)
    requires Linked(s) && Unbond(s, now, sender, token, amount).Ok?
    ensures var o := Unbond(s, now, sender, token, amount).value;
            var unbonded := if amount.Some? then amount.value else InfoOf(s, sender, token).bond;
            && SettledMove(s, o.store, now, sender, token, m)
            && m.paid == 0
            && m.info.bond == InfoOf(s, sender, token).bond - unbonded
            && o.sent == (if ImmediateUnbond(s, token) then unbonded else 0)
            && m.pool.totalBond + m.pool.totalPendingWithdraw
               == s.pools[token].totalBond + s.pools[token].totalPendingWithdraw - o.sent
  {
    hide PullExpired, ComputePoolReward, ComputeStakerReward, OrderSum, SameElsewhere, Credit, OrderTimes, Linked,
         UpdateOrRemove, RecordMoved, Moved, TotalsFollow;
    var pulled := PullExpired(s.orders, sender, token, InfoOf(s, sender, token), now, s.pools[token].unbondPeriod);
    var pool := ComputePoolReward(s.cfg, s.pools[token], now).value;
    var info := ComputeStakerReward(pool, pulled.info).value;
    SettledFacts(s, now, sender, token, pulled, pool, info);
    var unbonded := if amount.Some? then amount.value else pulled.info.bond;
    if pool.unbondPeriod == 0 {
      m := UnbondNow(s, sender, token, unbonded, pulled, pool, info);
    } else {
      m := UnbondLater(s, now, sender, token, unbonded, pulled, pool, info);
    }
  }

  /** an unbond from a pool without unbonding period leaves at once */
  lemma UnbondNow(s: Storage, sender: Addr, token: Addr, unbonded: nat, pulled: Pulled, pool: Pool, info: RewardInfo)
    returns (m: Move)
    requires Linked(s) && token in s.pools && (sender, token) in s.rewards
    requires SettledAt(s, sender, token, pulled, pool, info)
    requires unbonded <= info.bond && unbonded <= pool.totalBond
    ensures var s1 := s.(orders := pulled.orders, pools := s.pools[token := m.pool]);
            var s' := UpdateOrRemove(s1, sender, token, m.info, pulled.ordersPending);
            Moved(s, s', sender, token, m.info, m.pool) && TotalsFollow(s, s', sender, token, m.info, m.pool)
    ensures m == Move(info.(bond := info.bond - unbonded), pool.(totalBond := pool.totalBond - unbonded), 0)
  {
    hide OrderSum, SameElsewhere, OrderTimes, Linked, UpdateOrRemove, RecordMoved, InfoOf;
    m := Move(info.(bond := info.bond - unbonded), pool.(totalBond := pool.totalBond - unbonded), 0);
    var s1 := s.(orders := pulled.orders, pools := s.pools[token := m.pool]);
    SavesOrDrops(s, s1, sender, token, m.info, pulled.ordersPending);
  }

  /** the facts of a settlement the totals depend on */
  ghost predicate SettledAt(s: Storage, staker: Addr, token: Addr, pulled: Pulled, pool: Pool, info: RewardInfo)
    requires token in s.pools
  {
    var before, p := InfoOf(s, staker, token), s.pools[token];
    && SameElsewhere(s.orders, pulled.orders, staker, token)
    && (pulled.ordersPending <==> OrderTimes(pulled.orders, staker, token) != {})
    && info.bond == before.bond
    && info.withdrawable == before.withdrawable + OrderSum(s.orders, token) - OrderSum(pulled.orders, token)
    && pool.totalBond == p.totalBond && pool.totalPendingWithdraw == p.totalPendingWithdraw
  }

  lemma AddElsewhere(orders: Orders, orders': Orders, staker: Addr, token: Addr, now: nat, amount: nat)
    requires SameElsewhere(orders, orders', staker, token)
    ensures SameElsewhere(orders, orders'[(staker, token, now) := amount], staker, token)
  {
  }

  /** any other unbond becomes an order, and its amount stays on the books */
  lemma UnbondLater(s: Storage, now: nat, sender: Addr, token: Addr, unbonded: nat, pulled: Pulled, pool: Pool, info: RewardInfo)
    returns (m: Move)
    requires Linked(s) && token in s.pools && (sender, token) in s.rewards
    requires SettledAt(s, sender, token, pulled, pool, info)
    requires unbonded <= info.bond && unbonded <= pool.totalBond
    requires (sender, token, now) !in pulled.orders
    ensures var s1 := s.(
              orders := pulled.orders[(sender, token, now) := unbonded],
              pools := s.pools[token := m.pool]);
            var s' := UpdateOrRemove(s1, sender, token, m.info, true);
            Moved(s, s', sender, token, m.info, m.pool) && TotalsFollow(s, s', sender, token, m.info, m.pool)
    ensures m == Move(
                   info.(bond := info.bond - unbonded),
                   pool.(totalBond := pool.totalBond - unbonded,
                         totalPendingWithdraw := pool.totalPendingWithdraw + unbonded), 0)
  {
    hide OrderSum, SameElsewhere, OrderTimes, Linked, UpdateOrRemove, RecordMoved, InfoOf;
    var key: OrderKey := (sender, token, now);
    AddOrderSum(pulled.orders, key, unbonded);
    AddElsewhere(s.orders, pulled.orders, sender, token, now, unbonded);
    m := Move(
      info.(bond := info.bond - unbonded),
      pool.(totalBond := pool.totalBond - unbonded, totalPendingWithdraw := pool.totalPendingWithdraw + unbonded), 0);
    var s1 := s.(orders := pulled.orders[key := unbonded], pools := s.pools[token := m.pool]);
    SavesOrDrops(s, s1, sender, token, m.info, true);
  }
}
