/** The LP staking contract in place: storage items are fields, calls are methods, and each
    method does exactly what `LpStakingModel` says of the stored values. */
module LpStakingContract {
  import opened Addresses
  import opened Results
  import opened FixedPoint
  import opened Sums
  import Model = LpStakingModel

  /** the rest of a fold over the schedules, after `distributed` was added up */
  ghost predicate FoldsTo(whole: Result<seq<nat>, Model.Error>, distributed: nat, rest: Result<seq<nat>, Model.Error>) {
    match rest
    case Ok(r) => whole.Ok? && SumSeq(whole.value) == distributed + SumSeq(r)
    case Err(e) => whole == Err(e)
  }

  class LpStaking {
    var cfg: Model.Config
    var pools: Model.Pools
    var rewards: Model.Rewards
    var orders: Model.Orders
    var stakers: set<(Addr, Addr)>

    function Store(): Model.Storage
      reads this
    {
      Model.Storage(cfg, pools, rewards, orders, stakers)
    }

    constructor (owner: Addr, prismToken: Addr, schedule: seq<Model.Entry>, news: seq<Model.NewPool>, now: nat)
      requires Model.Instantiate(owner, prismToken, schedule, news, now).Ok?
      ensures Store() == Model.Instantiate(owner, prismToken, schedule, news, now).value
    {
      cfg := Model.Config(owner, prismToken, schedule, Model.FirstWeight(news));
      pools := Model.FirstPools(news, now);
      rewards, orders, stakers := map[], map[], {};
    }

    /** the storage of an aborted transaction is the storage before it */
    method Rollback(before: Model.Storage)
      modifies this
      ensures Store() == before
    {
      cfg, pools, rewards, orders, stakers := before.cfg, before.pools, before.rewards, before.orders, before.stakers;
    }

    // ----- rewards -----

    /** `compute_pool_reward`: adds up what the schedules release, and hands it to the index */
    static method ComputePoolReward(config: Model.Config, before: Model.Pool, now: nat)
      returns (r: Result<Model.Pool, Model.Error>)
      ensures r == Model.ComputePoolReward(config, before, now)
    {
      hide Ratio, MulDec;
      var pool := before;
      var distributed: nat := 0;
      ghost var whole := Model.EntryRewards(config.schedule, config.totalWeight, before, now);
      assert config.schedule[0..] == config.schedule;
      for i := 0 to |config.schedule|
        invariant pool == before
        invariant FoldsTo(whole, distributed, Model.EntryRewards(config.schedule[i..], config.totalWeight, before, now))
      {
        var s := config.schedule[i];
        assert config.schedule[i..][1..] == config.schedule[i + 1..];
        ghost var rest := Model.EntryRewards(config.schedule[i + 1..], config.totalWeight, before, now);
        ghost var here := Model.EntryReward(s, config.totalWeight, before, now);
        assert rest.Ok? && here.Ok? ==> ([here.value] + rest.value)[1..] == rest.value;
        if !(s.start > now || s.end < pool.lastDistributed) {
          var until, from := Min(s.end, now), Max(s.start, pool.lastDistributed);
          if until < from {
            return Err(Model.ClockUnderflow);
          }
          if s.end <= s.start {
            return Err(Model.EmptySchedule);
          }
          if config.totalWeight == 0 {
            return Err(Model.NoWeight);
          }
          var poolAmount := MulDec(s.amount, Ratio(pool.weight, config.totalWeight));
          var perSecond := Ratio(poolAmount, s.end - s.start);
          distributed := distributed + MulDec(until - from, perSecond);
        }
      }
      assert config.schedule[|config.schedule|..] == [];
      pool := pool.(lastDistributed := now);
      if pool.totalBond == 0 {
        pool := pool.(pendingReward := pool.pendingReward + distributed);
      } else {
        pool := pool.(rewardIndex := pool.rewardIndex + Ratio(pool.pendingReward + distributed, pool.totalBond));
        pool := pool.(pendingReward := 0);
      }
      return Ok(pool);
    }

    /** `compute_staker_reward` */
    static method ComputeStakerReward(pool: Model.Pool, before: Model.RewardInfo)
      returns (r: Result<Model.RewardInfo, Model.Error>)
      ensures r == Model.ComputeStakerReward(pool, before)
    {
      var info := before;
      if MulDec(info.bond, pool.rewardIndex) < MulDec(info.bond, info.rewardIndex) {
        return Err(Model.CreditUnderflow);
      }
      var pending := MulDec(info.bond, pool.rewardIndex) - MulDec(info.bond, info.rewardIndex);
      info := info.(rewardIndex := pool.rewardIndex);
      info := info.(pendingReward := info.pendingReward + pending);
      return Ok(info);
    }

    // ----- unbond orders -----

    /** `get_withdrawable_amount`: folds over one order more than may be released */
    method GetWithdrawable(staker: Addr, token: Addr, now: nat, period: nat)
      returns (amount: nat, released: seq<nat>, count: nat)
      ensures var scanned := Model.Scanned(orders, staker, token);
              && released == Model.Expired(scanned, 0, now, period)
              && amount == Model.SumOrders(orders, staker, token, released)
              && count == |scanned|
    {
      hide Model.Scanned, Model.OrderAt;
      var scanned := Model.Scanned(orders, staker, token);
      ghost var expired := Model.Expired(scanned, 0, now, period);
      amount, released, count := 0, [], 0;
      assert scanned[0..] == scanned;
      assert [] + expired == expired;
      for i := 0 to |scanned|
        invariant count == i
        invariant released + Model.Expired(scanned[i..], i, now, period) == expired
        invariant amount + Model.SumOrders(orders, staker, token, Model.Expired(scanned[i..], i, now, period))
                  == Model.SumOrders(orders, staker, token, expired)
      {
        var time := scanned[i];
        assert scanned[i..][1..] == scanned[i + 1..];
        ghost var rest := Model.Expired(scanned[i + 1..], i + 1, now, period);
        count := count + 1;
        if count <= Model.MAX_ORDER_WITHDRAW_PER_TX && time + period < now {
          assert ([time] + rest)[1..] == rest;
          assert released + ([time] + rest) == released + [time] + rest;
          released := released + [time];
          amount := amount + Model.OrderAt(orders, (staker, token, time));
        }
      }
      assert scanned[|scanned|..] == [];
      assert released + [] == released;
    }

    method RemoveWithdrawn(staker: Addr, token: Addr, released: seq<nat>)
      modifies `orders
      ensures orders == Model.RemoveOrders(old(orders), staker, token, released)
    {
      assert released[0..] == released;
      for i := 0 to |released|
        invariant Model.RemoveOrders(orders, staker, token, released[i..])
                  == Model.RemoveOrders(old(orders), staker, token, released)
      {
        assert released[i..][1..] == released[i + 1..];
        orders := orders - {(staker, token, released[i])};
      }
    }

    /** `pull_expired_withdraw_orders` */
    method PullExpired(staker: Addr, token: Addr, before: Model.RewardInfo, now: nat, period: nat)
      returns (info: Model.RewardInfo, ordersPending: bool)
      modifies `orders
      ensures Model.PullExpired(old(orders), staker, token, before, now, period)
              == Model.Pulled(info, orders, ordersPending)
    {
      hide Model.Scanned, Model.Expired, Model.SumOrders, Model.RemoveOrders;
      var amount, released, count := GetWithdrawable(staker, token, now, period);
      info := before.(withdrawable := before.withdrawable + amount);
      RemoveWithdrawn(staker, token, released);
      ordersPending := count > |released|;
    }

    /** `update_or_remove_staker_rewards` */
    method UpdateOrRemove(staker: Addr, token: Addr, info: Model.RewardInfo, ordersPending: bool)
      modifies `rewards, `stakers
      ensures Store() == Model.UpdateOrRemove(old(Store()), staker, token, info, ordersPending)
    {
      if info.pendingReward == 0 && info.bond == 0 && info.withdrawable == 0 && !ordersPending {
        rewards := rewards - {(staker, token)};
        stakers := stakers - {(token, staker)};
      } else {
        rewards := rewards[(staker, token) := info];
      }
    }

    // ----- staking -----

    method Bond(now: nat, token: Addr, sender: Addr, amount: nat) returns (r: Result<(), Model.Error>)
      modifies this
      ensures match Model.Bond(old(Store()), now, token, sender, amount)
              case Ok(s) => r.Ok? && Store() == s
              case Err(e) => r == Err(e) && Store() == old(Store())
    {
      hide Model.PullExpired, Model.ComputePoolReward, Model.ComputeStakerReward;
      if token !in pools {
        return Err(Model.InvalidStakingToken);
      }
      var before := Store();
      var info := if (sender, token) in rewards then rewards[(sender, token)] else Model.RewardInfo(0, 0, 0, 0);
      var pending: bool;
      info, pending := PullExpired(sender, token, info, now, pools[token].unbondPeriod);
      var updated := ComputePoolReward(cfg, pools[token], now);
      if updated.Err? {
        Rollback(before);
        return Err(updated.error);
      }
      var pool := updated.value;
      var credited := ComputeStakerReward(pool, info);
      if credited.Err? {
        Rollback(before);
        return Err(credited.error);
      }
      info := credited.value;
      pool := pool.(totalBond := pool.totalBond + amount);
      info := info.(bond := info.bond + amount);
      rewards := rewards[(sender, token) := info];
      stakers := stakers + {(token, sender)};
      pools := pools[token := pool];
      return Ok(());
    }

    /** Returns the LP tokens sent at once, if any. */
    method Unbond(now: nat, sender: Addr, token: Addr, amount: Option<nat>) returns (r: Result<nat, Model.Error>)
      modifies this
      ensures match Model.Unbond(old(Store()), now, sender, token, amount)
              case Ok(o) => r == Ok(o.sent) && Store() == o.store
              case Err(e) => r == Err(e) && Store() == old(Store())
    {
      hide Model.PullExpired, Model.ComputePoolReward, Model.ComputeStakerReward, Model.UpdateOrRemove;
      if token !in pools {
        return Err(Model.InvalidStakingToken);
      }
      if (sender, token) !in rewards {
        return Err(Model.NothingStaked);
      }
      var before := Store();
      var pool := pools[token];
      var info, ordersPending := PullExpired(sender, token, rewards[(sender, token)], now, pool.unbondPeriod);
      if info.bond == 0 {
        Rollback(before);
        return Err(Model.NothingAvailableToUnbond);
      }
      if amount.Some? && info.bond < amount.value {
        Rollback(before);
        return Err(Model.InvalidUnbondAmount);
      }
      var unbonded := if amount.Some? then amount.value else info.bond;
      var updated := ComputePoolReward(cfg, pool, now);
      if updated.Err? {
        Rollback(before);
        return Err(updated.error);
      }
      pool := updated.value;
      var credited := ComputeStakerReward(pool, info);
      if credited.Err? {
        Rollback(before);
        return Err(credited.error);
      }
      info := credited.value;
      if pool.totalBond < unbonded || info.bond < unbonded {
        Rollback(before);
        return Err(Model.BondUnderflow);
      }
      pool := pool.(totalBond := pool.totalBond - unbonded);
      info := info.(bond := info.bond - unbonded);
      var sent: nat := 0;
      if pool.unbondPeriod == 0 {
        sent := unbonded;
      } else {
        if (sender, token, now) in orders {
          Rollback(before);
          return Err(Model.UnbondOrderOverwrite);
        }
        orders := orders[(sender, token, now) := unbonded];
        pool := pool.(totalPendingWithdraw := pool.totalPendingWithdraw + unbonded);
        ordersPending := true;
      }
      pools := pools[token := pool];
      UpdateOrRemove(sender, token, info, ordersPending);
      return Ok(sent);
    }

    /** Returns the LP tokens sent. */
    method ClaimUnbonded(now: nat, sender: Addr, token: Addr) returns (r: Result<nat, Model.Error>)
      modifies this
      ensures match Model.ClaimUnbonded(old(Store()), now, sender, token)
              case Ok(o) => r == Ok(o.sent) && Store() == o.store
              case Err(e) => r == Err(e) && Store() == old(Store())
    {
      hide Model.PullExpired, Model.UpdateOrRemove;
      if token !in pools {
        return Err(Model.InvalidStakingToken);
      }
      if (sender, token) !in rewards {
        return Err(Model.NothingStaked);
      }
      var before := Store();
      var pool := pools[token];
      var info, ordersPending := PullExpired(sender, token, rewards[(sender, token)], now, pool.unbondPeriod);
      if info.withdrawable == 0 {
        Rollback(before);
        return Err(Model.NothingAvailableToWithdraw);
      }
      var amount := info.withdrawable;
      info := info.(withdrawable := 0);
      if pool.totalPendingWithdraw < amount {
        Rollback(before);
        return Err(Model.PendingUnderflow);
      }
      pool := pool.(totalPendingWithdraw := pool.totalPendingWithdraw - amount);
      pools := pools[token := pool];
      UpdateOrRemove(sender, token, info, ordersPending);
      return Ok(amount);
    }

    /** one round of the loop of `claim_rewards` */
    method ClaimOne(now: nat, sender: Addr, token: Addr) returns (r: Result<nat, Model.Error>)
      modifies this
      ensures match Model.ClaimOne(old(Store()), now, sender, token)
              case Ok(o) => r == Ok(o.sent) && Store() == o.store
              case Err(e) => r == Err(e) && Store() == old(Store())
    {
      hide Model.PullExpired, Model.ComputePoolReward, Model.ComputeStakerReward, Model.UpdateOrRemove;
      if (sender, token) !in rewards || token !in pools {
        return Err(Model.InvalidStakingToken);
      }
      var before := Store();
      var pool := pools[token];
      var info, ordersPending := PullExpired(sender, token, rewards[(sender, token)], now, pool.unbondPeriod);
      var updated := ComputePoolReward(cfg, pool, now);
      if updated.Err? {
        Rollback(before);
        return Err(updated.error);
      }
      pool := updated.value;
      var credited := ComputeStakerReward(pool, info);
      if credited.Err? {
        Rollback(before);
        return Err(credited.error);
      }
      info := credited.value;
      var amount := info.pendingReward;
      info := info.(pendingReward := 0);
      pools := pools[token := pool];
      UpdateOrRemove(sender, token, info, ordersPending);
      return Ok(amount);
    }

    /** Returns the PRISM sent. */
    method ClaimRewards(now: nat, sender: Addr, token: Option<Addr>) returns (r: Result<nat, Model.Error>)
      modifies this
      ensures match Model.ClaimRewards(old(Store()), now, sender, token)
              case Ok(o) => r == Ok(o.sent) && Store() == o.store
              case Err(e) => r == Err(e) && Store() == old(Store())
    {
      hide Model.ClaimOne, Model.StakedTokens;
      var before := Store();
      var tokens := if token.Some? then [token.value] else Model.StakedTokens(rewards, sender);
      var amount: nat := 0;
      ghost var whole := Model.ClaimEach(before, now, sender, tokens);
      assert tokens[0..] == tokens;
      for i := 0 to |tokens|
        invariant match Model.ClaimEach(Store(), now, sender, tokens[i..])
                  case Ok(o) => whole == Ok(Model.Outcome(o.store, amount + o.sent))
                  case Err(e) => whole == Err(e)
      {
        assert tokens[i..][1..] == tokens[i + 1..];
        var claimed := ClaimOne(now, sender, tokens[i]);
        if claimed.Err? {
          Rollback(before);
          return Err(claimed.error);
        }
        amount := amount + claimed.value;
      }
      assert tokens[|tokens|..] == [];
      return Ok(amount);
    }

    method AutoStakeHook(now: nat, token: Addr, sender: Addr, balance: nat) returns (r: Result<(), Model.Error>)
      modifies this
      ensures match Model.AutoStake(old(Store()), now, token, sender, balance)
              case Ok(s) => r.Ok? && Store() == s
              case Err(e) => r == Err(e) && Store() == old(Store())
    {
      hide Model.Bond;
      if token !in pools {
        return Err(Model.InvalidStakingToken);
      }
      var pool := pools[token];
      if balance < pool.totalBond + pool.totalPendingWithdraw {
        return Err(Model.BalanceUnderflow);
      }
      r := Bond(now, token, sender, balance - pool.totalBond - pool.totalPendingWithdraw);
    }

    // ----- administration -----

    method AddDistributionSchedule(now: nat, caller: Addr, added: seq<Model.Entry>) returns (r: Result<(), Model.Error>)
      modifies `cfg
      ensures match Model.AddSchedule(old(Store()), now, caller, added)
              case Ok(s) => r.Ok? && Store() == s
              case Err(e) => r == Err(e) && Store() == old(Store())
    {
      if cfg.owner != caller {
        return Err(Model.Unauthorized);
      }
      for i := 0 to |added|
        invariant forall j | 0 <= j < i ::
                    !(added[j].start < now || added[j].end <= added[j].start || added[j].amount == 0)
        invariant cfg == old(cfg)
      {
        var e := added[i];
        if e.start < now || e.end <= e.start || e.amount == 0 {
          assert e in added;
          return Err(Model.InvalidDistributionSchedule);
        }
      }
      cfg := cfg.(schedule := cfg.schedule + added);
      return Ok(());
    }

    /** settles every pool before a new one joins */
    static method SettlePools(config: Model.Config, before: Model.Pools, tokens: seq<Addr>, token: Addr, now: nat)
      returns (r: Result<Model.Pools, Model.Error>)
      requires forall t | t in tokens :: t in before
      ensures r == Model.RegisterEach(config, before, tokens, token, now)
    {
      hide Model.ComputePoolReward;
      var settled := before;
      ghost var whole := Model.RegisterEach(config, before, tokens, token, now);
      assert tokens[0..] == tokens;
      for i := 0 to |tokens|
        invariant forall t | t in tokens :: t in settled
        invariant Model.RegisterEach(config, settled, tokens[i..], token, now) == whole
      {
        assert tokens[i..][1..] == tokens[i + 1..];
        if tokens[i] == token {
          return Err(Model.AlreadyExists);
        }
        var updated := ComputePoolReward(config, settled[tokens[i]], now);
        if updated.Err? {
          return Err(updated.error);
        }
        settled := settled[tokens[i] := updated.value];
      }
      assert tokens[|tokens|..] == [];
      return Ok(settled);
    }

    method RegisterStakingToken(now: nat, caller: Addr, token: Addr, period: nat, weight: nat)
      returns (r: Result<(), Model.Error>)
      modifies `pools, `cfg
      ensures match Model.Register(old(Store()), now, caller, token, period, weight)
              case Ok(s) => r.Ok? && Store() == s
              case Err(e) => r == Err(e) && Store() == old(Store())
    {
      hide Model.RegisterEach;
      if cfg.owner != caller {
        return Err(Model.Unauthorized);
      }
      var settled := SettlePools(cfg, pools, Ascending(pools.Keys), token, now);
      if settled.Err? {
        return Err(settled.error);
      }
      pools := settled.value[token := Model.Pool(now, weight, 0, 0, 0, 0, period)];
      cfg := cfg.(totalWeight := cfg.totalWeight + weight);
      return Ok(());
    }

    /** the loop of `update_staking_token`: changes the total weight on the way */
    static method ReweightPools(
        config: Model.Config, before: Model.Pools, tokens: seq<Addr>, token: Addr, weight: nat, now: nat)
      returns (r: Result<Model.Reweighted, Model.Error>)
      requires forall t | t in tokens :: t in before
      ensures r == Model.UpdateEach(config, before, tokens, token, weight, now, false)
    {
      hide Model.ComputePoolReward;
      var current, settled, found := config, before, false;
      ghost var whole := Model.UpdateEach(config, before, tokens, token, weight, now, false);
      assert tokens[0..] == tokens;
      for i := 0 to |tokens|
        invariant forall t | t in tokens :: t in settled
        invariant Model.UpdateEach(current, settled, tokens[i..], token, weight, now, found) == whole
      {
        assert tokens[i..][1..] == tokens[i + 1..];
        var updated := ComputePoolReward(current, settled[tokens[i]], now);
        if updated.Err? {
          return Err(updated.error);
        }
        var pool := updated.value;
        if tokens[i] == token {
          found := true;
          if current.totalWeight < pool.weight {
            return Err(Model.WeightUnderflow);
          }
          current := current.(totalWeight := current.totalWeight - pool.weight + weight);
          pool := pool.(weight := weight);
        }
        settled := settled[tokens[i] := pool];
      }
      assert tokens[|tokens|..] == [];
      return Ok(Model.Reweighted(current, settled, found));
    }

    method Reweight(now: nat, token: Addr, weight: nat) returns (r: Result<(), Model.Error>)
      modifies `pools, `cfg
      ensures match Model.Reweight(old(Store()), now, token, weight)
              case Ok(s) => r.Ok? && Store() == s
              case Err(e) => r == Err(e) && Store() == old(Store())
    {
      hide Model.UpdateEach;
      var settled := ReweightPools(cfg, pools, Ascending(pools.Keys), token, weight, now);
      if settled.Err? {
        return Err(settled.error);
      }
      if !settled.value.found {
        return Err(Model.InvalidStakingToken);
      }
      pools, cfg := settled.value.pools, settled.value.cfg;
      return Ok(());
    }

    method UpdateStakingToken(now: nat, caller: Addr, token: Addr, period: Option<nat>, weight: Option<nat>)
      returns (r: Result<(), Model.Error>)
      modifies this
      ensures match Model.UpdateToken(old(Store()), now, caller, token, period, weight)
              case Ok(s) => r.Ok? && Store() == s
              case Err(e) => r == Err(e) && Store() == old(Store())
    {
      hide Model.Reweight;
      if cfg.owner != caller {
        return Err(Model.Unauthorized);
      }
      var before := Store();
      if weight.Some? {
        r := Reweight(now, token, weight.value);
        if r.Err? {
          return;
        }
      }
      if period.Some? {
        if token !in pools {
          Rollback(before);
          return Err(Model.InvalidStakingToken);
        }
        pools := pools[token := pools[token].(unbondPeriod := period.value)];
      }
      return Ok(());
    }
  }
}
