/** LP staking on values: staked LP tokens earn PRISM from a list of emission schedules
    shared by weighted pools, and leave through unbond orders. */
module LpStakingModel {
  import opened Addresses
  import opened Results
  import opened FixedPoint
  import opened Sums

  /** one distribution schedule: an amount spread evenly over a span of time */
  datatype Entry = Entry(start: nat, end: nat, amount: nat)

  datatype Config = Config(owner: Addr, prismToken: Addr, schedule: seq<Entry>, totalWeight: nat)

  datatype Pool = Pool(
    lastDistributed: nat,
    weight: nat,
    totalBond: nat,
    totalPendingWithdraw: nat,
    rewardIndex: nat,
    pendingReward: nat,
    unbondPeriod: nat)

  datatype RewardInfo = RewardInfo(rewardIndex: nat, bond: nat, withdrawable: nat, pendingReward: nat)

  type Pools = map<Addr, Pool>

  /** staker, then staking token */
  type RewardKey = (Addr, Addr)

  type Rewards = map<RewardKey, RewardInfo>

  /** staker, staking token, and the time of the order */
  type OrderKey = (Addr, Addr, nat)

  type Orders = map<OrderKey, nat>

  /** `stakers` is the index by staking token, then staker */
  datatype Storage = Storage(cfg: Config, pools: Pools, rewards: Rewards, orders: Orders, stakers: set<(Addr, Addr)>)

  datatype Error =
    | Unauthorized
    | InvalidDistributionSchedule
    | DuplicateStakingToken
    | AlreadyExists
    | InvalidStakingToken
    | NothingStaked
    | NothingAvailableToUnbond
    | InvalidUnbondAmount
    | UnbondOrderOverwrite
    | NothingAvailableToWithdraw
    | NoWeight
    | EmptySchedule
    | ClockUnderflow
    | CreditUnderflow
    | WeightUnderflow
    | BondUnderflow
    | PendingUnderflow
    | BalanceUnderflow

  // ----- emission -----

  /** what one schedule releases to a pool since the pool's last distribution */
  function EntryReward(e: Entry, totalWeight: nat, pool: Pool, now: nat): Result<nat, Error> {
    if e.start > now || e.end < pool.lastDistributed then Ok(0)
    else
      var until, from := Min(e.end, now), Max(e.start, pool.lastDistributed);
      if until < from then Err(ClockUnderflow)
      else if e.end <= e.start then Err(EmptySchedule)
      else if totalWeight == 0 then Err(NoWeight)
      else
        var ofPool := MulDec(e.amount, Ratio(pool.weight, totalWeight));
        Ok(MulDec(until - from, Ratio(ofPool, e.end - e.start)))
  }

  function EntryRewards(schedule: seq<Entry>, totalWeight: nat, pool: Pool, now: nat): Result<seq<nat>, Error> {
    if schedule == [] then Ok([])
    else
      var first :- EntryReward(schedule[0], totalWeight, pool, now);
      var rest :- EntryRewards(schedule[1..], totalWeight, pool, now);
      Ok([first] + rest)
  }

  /** `compute_pool_reward` */
  function ComputePoolReward(cfg: Config, pool: Pool, now: nat): Result<Pool, Error> {
    var rewards :- EntryRewards(cfg.schedule, cfg.totalWeight, pool, now);
    var distributed := SumSeq(rewards);
    if pool.totalBond == 0 then
      Ok(pool.(lastDistributed := now, pendingReward := pool.pendingReward + distributed))
    else
      Ok(pool.(
        lastDistributed := now,
        rewardIndex := pool.rewardIndex + Ratio(pool.pendingReward + distributed, pool.totalBond),
        pendingReward := 0))
  }

  /** `compute_staker_reward` */
  function ComputeStakerReward(pool: Pool, info: RewardInfo): Result<RewardInfo, Error> {
    var now, before := MulDec(info.bond, pool.rewardIndex), MulDec(info.bond, info.rewardIndex);
    if now < before then Err(CreditUnderflow)
    else Ok(info.(rewardIndex := pool.rewardIndex, pendingReward := info.pendingReward + (now - before)))
  }

  // ----- unbond orders -----

  const MAX_ORDER_WITHDRAW_PER_TX: nat := 50

  function OrderAt(orders: Orders, key: OrderKey): nat {
    if key in orders then orders[key] else 0
  }

  function OrderTimes(orders: Orders, staker: Addr, token: Addr): set<nat> {
    set k | k in orders.Keys && k.0 == staker && k.1 == token :: k.2
  }

  /** the orders the scan reads: one more than it may release */
  function Scanned(orders: Orders, staker: Addr, token: Addr): seq<nat> {
    Take(Ascending(OrderTimes(orders, staker, token)), MAX_ORDER_WITHDRAW_PER_TX + 1)
  }

  /** the ones it releases, counting from `count` */
  function Expired(times: seq<nat>, count: nat, now: nat, period: nat): seq<nat> {
    if times == [] then []
    else
      var rest := Expired(times[1..], count + 1, now, period);
      if count < MAX_ORDER_WITHDRAW_PER_TX && times[0] + period < now then [times[0]] + rest else rest
  }

  function SumOrders(orders: Orders, staker: Addr, token: Addr, times: seq<nat>): nat {
    if times == [] then 0 else OrderAt(orders, (staker, token, times[0])) + SumOrders(orders, staker, token, times[1..])
  }

  /** `remove_withdrawn` */
  function RemoveOrders(orders: Orders, staker: Addr, token: Addr, times: seq<nat>): Orders {
    if times == [] then orders else RemoveOrders(orders - {(staker, token, times[0])}, staker, token, times[1..])
  }

  datatype Pulled = Pulled(info: RewardInfo, orders: Orders, ordersPending: bool)

  /** `pull_expired_withdraw_orders` */
  function PullExpired(orders: Orders, staker: Addr, token: Addr, info: RewardInfo, now: nat, period: nat): Pulled {
    var scanned := Scanned(orders, staker, token);
    var expired := Expired(scanned, 0, now, period);
    Pulled(
      info.(withdrawable := info.withdrawable + SumOrders(orders, staker, token, expired)),
      RemoveOrders(orders, staker, token, expired),
      |scanned| > |expired|)
  }

  /** `update_or_remove_staker_rewards` */
  function UpdateOrRemove(s: Storage, staker: Addr, token: Addr, info: RewardInfo, ordersPending: bool): Storage {
    if info.pendingReward == 0 && info.bond == 0 && info.withdrawable == 0 && !ordersPending then
      s.(rewards := s.rewards - {(staker, token)}, stakers := s.stakers - {(token, staker)})
    else
      s.(rewards := s.rewards[(staker, token) := info])
  }

  // ----- staking -----

  function InfoOf(s: Storage, staker: Addr, token: Addr): RewardInfo {
    if (staker, token) in s.rewards then s.rewards[(staker, token)] else RewardInfo(0, 0, 0, 0)
  }

  function Bond(s: Storage, now: nat, token: Addr, sender: Addr, amount: nat): Result<Storage, Error> {
    if token !in s.pools then Err(InvalidStakingToken) else
    var pulled := PullExpired(s.orders, sender, token, InfoOf(s, sender, token), now, s.pools[token].unbondPeriod);
    var pool :- ComputePoolReward(s.cfg, s.pools[token], now);
    var info :- ComputeStakerReward(pool, pulled.info);
    Ok(s.(
      orders := pulled.orders,
      rewards := s.rewards[(sender, token) := info.(bond := info.bond + amount)],
      stakers := s.stakers + {(token, sender)},
      pools := s.pools[token := pool.(totalBond := pool.totalBond + amount)]))
  }

  /** the storage after a call, and the tokens it sends to the caller */
  datatype Outcome = Outcome(store: Storage, sent: nat)

  function Unbond(s: Storage, now: nat, sender: Addr, token: Addr, amount: Option<nat>): Result<Outcome, Error> {
    if token !in s.pools then Err(InvalidStakingToken)
    else if (sender, token) !in s.rewards then Err(NothingStaked)
    else
      var before := s.pools[token];
      var pulled := PullExpired(s.orders, sender, token, s.rewards[(sender, token)], now, before.unbondPeriod);
      if pulled.info.bond == 0 then Err(NothingAvailableToUnbond)
      else if amount.Some? && pulled.info.bond < amount.value then Err(InvalidUnbondAmount)
      else
        var unbonded := if amount.Some? then amount.value else pulled.info.bond;
        var pool :- ComputePoolReward(s.cfg, before, now);
        var info :- ComputeStakerReward(pool, pulled.info);
        if pool.totalBond < unbonded || info.bond < unbonded then Err(BondUnderflow) else
        var pool1 := pool.(totalBond := pool.totalBond - unbonded);
        var info1 := info.(bond := info.bond - unbonded);
        if pool.unbondPeriod == 0 then
          var s1 := s.(orders := pulled.orders, pools := s.pools[token := pool1]);
          Ok(Outcome(UpdateOrRemove(s1, sender, token, info1, pulled.ordersPending), unbonded))
        else if (sender, token, now) in pulled.orders then Err(UnbondOrderOverwrite)
        else
          var s1 := s.(
            orders := pulled.orders[(sender, token, now) := unbonded],
            pools := s.pools[token := pool1.(totalPendingWithdraw := pool1.totalPendingWithdraw + unbonded)]);
          Ok(Outcome(UpdateOrRemove(s1, sender, token, info1, true), 0))
  }

  function ClaimUnbonded(s: Storage, now: nat, sender: Addr, token: Addr): Result<Outcome, Error> {
    if token !in s.pools then Err(InvalidStakingToken)
    else if (sender, token) !in s.rewards then Err(NothingStaked)
    else
      var pool := s.pools[token];
      var pulled := PullExpired(s.orders, sender, token, s.rewards[(sender, token)], now, pool.unbondPeriod);
      var amount := pulled.info.withdrawable;
      if amount == 0 then Err(NothingAvailableToWithdraw)
      else if pool.totalPendingWithdraw < amount then Err(PendingUnderflow)
      else
        var s1 := s.(
          orders := pulled.orders,
          pools := s.pools[token := pool.(totalPendingWithdraw := pool.totalPendingWithdraw - amount)]);
        Ok(Outcome(UpdateOrRemove(s1, sender, token, pulled.info.(withdrawable := 0), pulled.ordersPending), amount))
  }

  // ----- claiming rewards -----

  function ClaimOne(s: Storage, now: nat, sender: Addr, token: Addr): Result<Outcome, Error> {
    if (sender, token) !in s.rewards then Err(InvalidStakingToken)
    else if token !in s.pools then Err(InvalidStakingToken)
    else
      var pulled := PullExpired(
        s.orders, sender, token, s.rewards[(sender, token)], now, s.pools[token].unbondPeriod);
      var pool :- ComputePoolReward(s.cfg, s.pools[token], now);
      var info :- ComputeStakerReward(pool, pulled.info);
      var s1 := s.(orders := pulled.orders, pools := s.pools[token := pool]);
      Ok(Outcome(
        UpdateOrRemove(s1, sender, token, info.(pendingReward := 0), pulled.ordersPending),
        info.pendingReward))
  }

  function ClaimEach(s: Storage, now: nat, sender: Addr, tokens: seq<Addr>): Result<Outcome, Error>
    decreases |tokens|
  {
    if tokens == [] then Ok(Outcome(s, 0))
    else
      var first :- ClaimOne(s, now, sender, tokens[0]);
      var rest :- ClaimEach(first.store, now, sender, tokens[1..]);
      Ok(Outcome(rest.store, first.sent + rest.sent))
  }

  /** the tokens a staker has a record for, in order */
  function StakedTokens(rewards: Rewards, staker: Addr): seq<Addr> {
    Ascending(set k | k in rewards.Keys && k.0 == staker :: k.1)
  }

  function ClaimRewards(s: Storage, now: nat, sender: Addr, token: Option<Addr>): Result<Outcome, Error> {
    ClaimEach(s, now, sender, if token.Some? then [token.value] else StakedTokens(s.rewards, sender))
  }

  /** `auto_stake_hook`: stakes for the caller whatever the contract holds beyond its books */
  function AutoStake(s: Storage, now: nat, token: Addr, sender: Addr, balance: nat): Result<Storage, Error> {
    if token !in s.pools then Err(InvalidStakingToken) else
    var pool := s.pools[token];
    if balance < pool.totalBond + pool.totalPendingWithdraw then Err(BalanceUnderflow)
    else Bond(s, now, token, sender, balance - pool.totalBond - pool.totalPendingWithdraw)
  }

  // ----- administration -----

  function AddSchedule(s: Storage, now: nat, caller: Addr, added: seq<Entry>): Result<Storage, Error> {
    if s.cfg.owner != caller then Err(Unauthorized)
    else if exists e | e in added :: e.start < now || e.end <= e.start || e.amount == 0 then
      Err(InvalidDistributionSchedule)
    else Ok(s.(cfg := s.cfg.(schedule := s.cfg.schedule + added)))
  }

  /** the settling loop of `register_staking_token` */
  function RegisterEach(cfg: Config, pools: Pools, tokens: seq<Addr>, token: Addr, now: nat): Result<Pools, Error>
    requires forall t | t in tokens :: t in pools
    decreases |tokens|
  {
    if tokens == [] then Ok(pools)
    else if tokens[0] == token then Err(AlreadyExists)
    else
      var pool :- ComputePoolReward(cfg, pools[tokens[0]], now);
      RegisterEach(cfg, pools[tokens[0] := pool], tokens[1..], token, now)
  }

  function Register(s: Storage, now: nat, caller: Addr, token: Addr, period: nat, weight: nat): Result<Storage, Error> {
    if s.cfg.owner != caller then Err(Unauthorized) else
    var pools :- RegisterEach(s.cfg, s.pools, Ascending(s.pools.Keys), token, now);
    Ok(s.(
      pools := pools[token := Pool(now, weight, 0, 0, 0, 0, period)],
      cfg := s.cfg.(totalWeight := s.cfg.totalWeight + weight)))
  }

  datatype Reweighted = Reweighted(cfg: Config, pools: Pools, found: bool)

  /** the settling loop of `update_staking_token`: pools after the changed one are settled
      with the total weight it has already changed */
  function UpdateEach(cfg: Config, pools: Pools, tokens: seq<Addr>, token: Addr, weight: nat, now: nat, found: bool)
    : Result<Reweighted, Error>
    requires forall t | t in tokens :: t in pools
    decreases |tokens|
  {
    if tokens == [] then Ok(Reweighted(cfg, pools, found))
    else
      var pool :- ComputePoolReward(cfg, pools[tokens[0]], now);
      if tokens[0] == token then
        if cfg.totalWeight < pool.weight then Err(WeightUnderflow) else
        UpdateEach(
          cfg.(totalWeight := cfg.totalWeight - pool.weight + weight),
          pools[tokens[0] := pool.(weight := weight)], tokens[1..], token, weight, now, true)
      else
        UpdateEach(cfg, pools[tokens[0] := pool], tokens[1..], token, weight, now, found)
  }

  function Reweight(s: Storage, now: nat, token: Addr, weight: nat): Result<Storage, Error> {
    var r :- UpdateEach(s.cfg, s.pools, Ascending(s.pools.Keys), token, weight, now, false);
    if !r.found then Err(InvalidStakingToken)
    else Ok(s.(cfg := r.cfg, pools := r.pools))
  }

  function UpdateToken(s: Storage, now: nat, caller: Addr, token: Addr, period: Option<nat>, weight: Option<nat>)
    : Result<Storage, Error>
  {
    if s.cfg.owner != caller then Err(Unauthorized) else
    var s1 :- if weight.Some? then Reweight(s, now, token, weight.value) else Ok(s);
    if period.None? then Ok(s1)
    else if token !in s1.pools then Err(InvalidStakingToken)
    else Ok(s1.(pools := s1.pools[token := s1.pools[token].(unbondPeriod := period.value)]))
  }

  // ----- start -----

  datatype NewPool = NewPool(token: Addr, weight: nat, period: nat)

  function FirstPools(news: seq<NewPool>, now: nat): Pools {
    if news == [] then map[]
    else FirstPools(news[1..], now)[news[0].token := Pool(now, news[0].weight, 0, 0, 0, 0, news[0].period)]
  }

  function FirstWeight(news: seq<NewPool>): nat {
    if news == [] then 0 else news[0].weight + FirstWeight(news[1..])
  }

  function Instantiate(owner: Addr, prismToken: Addr, schedule: seq<Entry>, news: seq<NewPool>, now: nat)
    : Result<Storage, Error>
  {
    if exists e | e in schedule :: e.end <= e.start then Err(InvalidDistributionSchedule)
    else if exists i, j | 0 <= i < j < |news| :: news[i].token == news[j].token then Err(DuplicateStakingToken)
    else Ok(Storage(
      Config(owner, prismToken, schedule, FirstWeight(news)), FirstPools(news, now), map[], map[], {}))
  }
}
