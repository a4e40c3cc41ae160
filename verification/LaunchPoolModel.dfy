/** The launch pool on values: bonded yLuna earns PRISM from a base pool and a boost pool
    that share one emission schedule, and withdrawn rewards vest before they are claimed. */
module LaunchPoolModel {
  import opened Addresses
  import opened Results
  import opened FixedPoint
  import opened Sums

  datatype Schedule = Schedule(start: nat, end: nat, amount: nat)

  datatype Config = Config(
    owner: Addr,
    operator: Addr,
    boostContract: Addr,
    vestingPeriod: nat,
    schedule: Schedule,
    basePoolRatio: nat,
    minBondAmount: nat)

  datatype DistributionStatus = DistributionStatus(
    totalDistributed: nat,
    totalWeight: nat,
    pendingReward: nat,
    rewardIndex: nat)

  datatype RewardInfo = RewardInfo(
    baseIndex: nat,
    boostIndex: nat,
    activeBoost: nat,
    boostWeight: nat,
    pendingReward: nat)

  type Vests = map<(Addr, nat), nat>

  datatype Storage = Storage(
    cfg: Config,
    base: DistributionStatus,
    boost: DistributionStatus,
    bonds: map<Addr, nat>,
    rewards: map<Addr, RewardInfo>,
    vests: Vests,
    pendingWithdraw: map<Addr, nat>)

  datatype Error =
    | InvalidDistributionSchedule
    | InvalidBasePoolRatio
    | Unauthorized
    | InvalidBond
    | InvalidUnbond
    | InvalidActivateBoost
    | InvalidClaim
    | EmptySchedule
    | EmissionUnderflow
    | CreditUnderflow
    | WeightUnderflow

  function Instantiate(cfg: Config): Result<Storage, Error> {
    if cfg.schedule.start > cfg.schedule.end then Err(InvalidDistributionSchedule)
    else if cfg.basePoolRatio > E then Err(InvalidBasePoolRatio)
    else
      var empty := DistributionStatus(0, 0, 0, 0);
      Ok(Storage(cfg, empty, empty, map[], map[], map[], map[]))
  }

  // ----- emission -----

  /** what the schedule has released in total by `now`, before the pools' ratios */
  function Released(schedule: Schedule, now: nat): nat
    requires schedule.start < schedule.end && schedule.start <= now
  {
    var denom := schedule.end - schedule.start;
    MultiplyRatio(schedule.amount, Min(now - schedule.start, denom), denom)
  }

  /** `_update_reward_index` */
  function UpdateRewardIndex(now: nat, st: DistributionStatus, schedule: Schedule, ratio: nat)
    : Result<DistributionStatus, Error>
  {
    if now < schedule.start then Ok(st)
    else if schedule.end <= schedule.start then Err(EmptySchedule)
    else
      var total := MulDec(Released(schedule, now), ratio);
      if total < st.totalDistributed then Err(EmissionUnderflow) else
      var here := total - st.totalDistributed;
      if st.totalWeight == 0 then
        Ok(st.(totalDistributed := total, pendingReward := st.pendingReward + here))
      else
        Ok(st.(
          totalDistributed := total,
          rewardIndex := st.rewardIndex + Ratio(st.pendingReward + here, st.totalWeight),
          pendingReward := 0))
  }

  function UpdateRewardIndexes(s: Storage, now: nat): Result<Storage, Error> {
    var base :- UpdateRewardIndex(now, s.base, s.cfg.schedule, s.cfg.basePoolRatio);
    if s.cfg.basePoolRatio > E then Err(InvalidBasePoolRatio) else
    var boost :- UpdateRewardIndex(now, s.boost, s.cfg.schedule, E - s.cfg.basePoolRatio);
    Ok(s.(base := base, boost := boost))
  }

  // ----- settling one account -----

  function Bonded(s: Storage, account: Addr): nat {
    if account in s.bonds then s.bonds[account] else 0
  }

  function Info(s: Storage, account: Addr): RewardInfo {
    if account in s.rewards then s.rewards[account]
    else RewardInfo(s.base.rewardIndex, s.boost.rewardIndex, 0, 0, 0)
  }

  /** `_pull_pending_rewards` */
  function PullPendingRewards(s: Storage, account: Addr): Result<RewardInfo, Error> {
    var bond, info := Bonded(s, account), Info(s, account);
    if MulDec(bond, s.base.rewardIndex) < MulDec(bond, info.baseIndex) then Err(CreditUnderflow)
    else if MulDec(info.boostWeight, s.boost.rewardIndex) < MulDec(info.boostWeight, info.boostIndex) then
      Err(CreditUnderflow)
    else
      var base := MulDec(bond, s.base.rewardIndex) - MulDec(bond, info.baseIndex);
      var boost := MulDec(info.boostWeight, s.boost.rewardIndex) - MulDec(info.boostWeight, info.boostIndex);
      Ok(info.(
        pendingReward := info.pendingReward + (base + boost),
        baseIndex := s.base.rewardIndex,
        boostIndex := s.boost.rewardIndex))
  }

  /** `integer_sqrt` */
  function ISqrt(n: nat): (r: nat)
    ensures r * r <= n < (r + 1) * (r + 1)
  {
    if n == 0 then 0
    else
      var r := ISqrt(n - 1);
      if (r + 1) * (r + 1) <= n then r + 1 else r
  }

  /** the boost weight of a bond: the geometric mean with the account's boost */
  function BoostFor(bond: nat, boostAmount: nat): nat {
    ISqrt(bond * boostAmount)
  }

  /** `update_and_save_boost_weight_and_reward_info` */
  function SaveBoost(s: Storage, account: Addr, bond: nat, boostAmount: nat, info: RewardInfo)
    : Result<Storage, Error>
  {
    var weight := BoostFor(bond, boostAmount);
    if s.boost.totalWeight < info.boostWeight then Err(WeightUnderflow) else
    var boost := s.boost.(totalWeight := s.boost.totalWeight - info.boostWeight + weight);
    if bond == 0 && info.pendingReward == 0 then
      Ok(s.(boost := boost, rewards := s.rewards - {account}))
    else
      Ok(s.(
        boost := boost,
        rewards := s.rewards[account := info.(boostWeight := weight, activeBoost := boostAmount)]))
  }

  // ----- bonding, each after the indexes are brought up to date -----

  function BondCore(s: Storage, sender: Addr, amount: nat, boostAmount: nat): Result<Storage, Error> {
    var info :- PullPendingRewards(s, sender);
    var bond := Bonded(s, sender) + amount;
    SaveBoost(
      s.(bonds := s.bonds[sender := bond], base := s.base.(totalWeight := s.base.totalWeight + amount)),
      sender, bond, boostAmount, info)
  }

  function Bond(s: Storage, now: nat, sender: Addr, amount: nat, boostAmount: nat): Result<Storage, Error> {
    if amount < s.cfg.minBondAmount then Err(InvalidBond) else
    var s1 :- UpdateRewardIndexes(s, now);
    BondCore(s1, sender, amount, boostAmount)
  }

  function UnbondCore(s: Storage, sender: Addr, amount: Option<nat>, boostAmount: nat): Result<Storage, Error> {
    var info :- PullPendingRewards(s, sender);
    if sender !in s.bonds then Err(InvalidUnbond) else
    var current := s.bonds[sender];
    if amount.Some? && amount.value > current then Err(InvalidUnbond) else
    var unbonded := if amount.Some? then amount.value else current;
    var bond := current - unbonded;
    if bond > 0 && bond < s.cfg.minBondAmount then Err(InvalidUnbond) else
    if s.base.totalWeight < unbonded then Err(WeightUnderflow) else
    SaveBoost(
      s.(
        base := s.base.(totalWeight := s.base.totalWeight - unbonded),
        bonds := if bond == 0 then s.bonds - {sender} else s.bonds[sender := bond]),
      sender, bond, boostAmount, info)
  }

  function Unbond(s: Storage, now: nat, sender: Addr, amount: Option<nat>, boostAmount: nat)
    : Result<Storage, Error>
  {
    var s1 :- UpdateRewardIndexes(s, now);
    UnbondCore(s1, sender, amount, boostAmount)
  }

  function RefreshCore(s: Storage, account: Addr, boostAmount: nat): Result<Storage, Error> {
    var info :- PullPendingRewards(s, account);
    SaveBoost(s, account, Bonded(s, account), boostAmount, info)
  }

  /** `refresh_boost` */
  function RefreshBoost(s: Storage, now: nat, account: Addr, boostAmount: nat): Result<Storage, Error> {
    var s1 :- UpdateRewardIndexes(s, now);
    RefreshCore(s1, account, boostAmount)
  }

  function ActivateBoost(s: Storage, now: nat, sender: Addr, boostAmount: nat): Result<Storage, Error> {
    var s1 :- RefreshBoost(s, now, sender, boostAmount);
    if Bonded(s, sender) == 0 then Err(InvalidActivateBoost) else Ok(s1)
  }

  function PrivilegedRefreshBoost(s: Storage, now: nat, caller: Addr, account: Addr, boostAmount: nat)
    : Result<Storage, Error>
  {
    if caller != s.cfg.boostContract then Err(Unauthorized)
    else RefreshBoost(s, now, account, boostAmount)
  }

  // ----- vesting -----

  const TIME_UNIT: nat := 86_400

  const MAX_UPDATE_VEST_PER_TX: nat := 50

  function VestAt(vests: Vests, key: (Addr, nat)): nat {
    if key in vests then vests[key] else 0
  }

  function PendingOf(s: Storage, account: Addr): nat {
    if account in s.pendingWithdraw then s.pendingWithdraw[account] else 0
  }

  /** the entries of an account the loop looks at, in time order */
  function PagedVests(vests: Vests, account: Addr): seq<nat> {
    Take(Ascending(set k | k in vests.Keys && k.0 == account :: k.1), MAX_UPDATE_VEST_PER_TX)
  }

  function SumVests(vests: Vests, account: Addr, times: seq<nat>): nat {
    if times == [] then 0 else VestAt(vests, (account, times[0])) + SumVests(vests, account, times[1..])
  }

  lemma NoVests(vests: Vests, account: Addr)
    ensures SumVests(vests, account, []) == 0
  {
  }

  lemma SumVestsHead(vests: Vests, account: Addr, t: nat, rest: seq<nat>)
    ensures SumVests(vests, account, [t] + rest) == VestAt(vests, (account, t)) + SumVests(vests, account, rest)
  {
    assert ([t] + rest)[1..] == rest;
  }

  function RemoveVests(vests: Vests, account: Addr, times: seq<nat>): Vests {
    if times == [] then vests else RemoveVests(vests - {(account, times[0])}, account, times[1..])
  }

  function UpdateVest(s: Storage, now: nat, account: Addr): Storage {
    var due := Due(PagedVests(s.vests, account), now);
    var canWithdraw := PendingOf(s, account) + SumVests(s.vests, account, due);
    s.(
      vests := RemoveVests(s.vests, account, due),
      pendingWithdraw := if canWithdraw == 0 then s.pendingWithdraw - {account}
                         else s.pendingWithdraw[account := canWithdraw])
  }

  /** when rewards withdrawn at `now` become claimable */
  function VestEnd(cfg: Config, now: nat): nat {
    var end := now + cfg.vestingPeriod;
    end - end % TIME_UNIT
  }

  function ScheduleVest(s: Storage, now: nat, account: Addr, amount: nat): Storage {
    if amount == 0 then s
    else
      var key := (account, VestEnd(s.cfg, now));
      s.(vests := s.vests[key := VestAt(s.vests, key) + amount])
  }

  /** `_withdraw_rewards_single` */
  function WithdrawSingle(s: Storage, now: nat, account: Addr): Result<Storage, Error> {
    var info :- PullPendingRewards(s, account);
    var rewards :=
      if Bonded(s, account) == 0 then s.rewards - {account}
      else s.rewards[account := info.(pendingReward := 0)];
    Ok(ScheduleVest(UpdateVest(s.(rewards := rewards), now, account), now, account, info.pendingReward))
  }

  function WithdrawRewards(s: Storage, now: nat, sender: Addr): Result<Storage, Error> {
    var s1 :- UpdateRewardIndexes(s, now);
    WithdrawSingle(s1, now, sender)
  }

  /** the reward records after `startAfter`, in address order */
  function PagedAccounts(rewards: map<Addr, RewardInfo>, limit: nat, startAfter: Option<Addr>): seq<Addr> {
    Take(Ascending(set a | a in rewards.Keys && (startAfter.Some? ==> startAfter.value < a)), limit)
  }

  function WithdrawEach(s: Storage, now: nat, accounts: seq<Addr>): Result<Storage, Error>
    decreases |accounts|
  {
    if accounts == [] then Ok(s)
    else
      var s1 :- WithdrawSingle(s, now, accounts[0]);
      WithdrawEach(s1, now, accounts[1..])
  }

  datatype BulkOutcome = BulkOutcome(store: Storage, last: Option<Addr>)

  function WithdrawRewardsBulk(s: Storage, now: nat, caller: Addr, limit: nat, startAfter: Option<Addr>)
    : Result<BulkOutcome, Error>
  {
    if caller != s.cfg.operator then Err(Unauthorized) else
    var s1 :- UpdateRewardIndexes(s, now);
    var accounts := PagedAccounts(s1.rewards, limit, startAfter);
    var s2 :- WithdrawEach(s1, now, accounts);
    Ok(BulkOutcome(s2, if accounts == [] then None else Some(accounts[|accounts| - 1])))
  }

  datatype ClaimOutcome = ClaimOutcome(store: Storage, paid: nat)

  function ClaimWithdrawnRewards(s: Storage, now: nat, sender: Addr): Result<ClaimOutcome, Error> {
    var s1 := UpdateVest(s, now, sender);
    var amount := PendingOf(s1, sender);
    if amount == 0 then Err(InvalidClaim)
    else Ok(ClaimOutcome(s1.(pendingWithdraw := s1.pendingWithdraw - {sender}), amount))
  }

  // ----- configuration -----

  /** starts a new schedule over what is left, when the old one is running */
  function Reschedule(s: Storage, now: nat): Result<Storage, Error> {
    var schedule := s.cfg.schedule;
    if schedule.start < now < schedule.end then
      var distributed := s.base.totalDistributed + s.boost.totalDistributed;
      if schedule.amount < distributed then Err(EmissionUnderflow)
      else Ok(s.(
        cfg := s.cfg.(schedule := Schedule(now, schedule.end, schedule.amount - distributed)),
        base := s.base.(totalDistributed := 0),
        boost := s.boost.(totalDistributed := 0)))
    else Ok(s)
  }

  function ChangeRatio(s: Storage, now: nat, ratio: nat): Result<Storage, Error> {
    if ratio > E then Err(InvalidBasePoolRatio) else
    var s1 :- UpdateRewardIndexes(s, now);
    var s2 :- Reschedule(s1, now);
    Ok(s2.(cfg := s2.cfg.(basePoolRatio := ratio)))
  }

  function UpdateConfig(s: Storage, now: nat, caller: Addr, minBond: Option<nat>, ratio: Option<nat>)
    : Result<Storage, Error>
  {
    if caller != s.cfg.owner then Err(Unauthorized) else
    var s1 :- if ratio.Some? then ChangeRatio(s, now, ratio.value) else Ok(s);
    Ok(if minBond.Some? then s1.(cfg := s1.cfg.(minBondAmount := minBond.value)) else s1)
  }
}
