/** The launch pool contract in place: storage items are fields, calls are methods, and each
    method does exactly what `LaunchPoolModel` says of the stored values.  A failing call is
    rolled back, as an aborted transaction is. */
module LaunchPoolContract {
  import opened Addresses
  import opened Results
  import opened FixedPoint
  import opened Sums
  import Model = LaunchPoolModel

  class LaunchPool {
    var cfg: Model.Config
    var base: Model.DistributionStatus
    var boost: Model.DistributionStatus
    var bonds: map<Addr, nat>
    var rewards: map<Addr, Model.RewardInfo>
    var vests: Model.Vests
    var pendingWithdraw: map<Addr, nat>

    function Store(): Model.Storage
      reads this
    {
      Model.Storage(cfg, base, boost, bonds, rewards, vests, pendingWithdraw)
    }

    constructor (cfg: Model.Config)
      requires Model.Instantiate(cfg).Ok?
      ensures Store() == Model.Instantiate(cfg).value
    {
      this.cfg := cfg;
      base := Model.DistributionStatus(0, 0, 0, 0);
      boost := Model.DistributionStatus(0, 0, 0, 0);
      bonds, rewards, vests, pendingWithdraw := map[], map[], map[], map[];
    }

    /** the storage of an aborted transaction is the storage before it */
    method Rollback(before: Model.Storage)
      modifies this
      ensures Store() == before
    {
      cfg, base, boost := before.cfg, before.base, before.boost;
      bonds, rewards := before.bonds, before.rewards;
      vests, pendingWithdraw := before.vests, before.pendingWithdraw;
    }

    // ----- reward indexes -----

    /** `_update_reward_index`: updates the given status */
    static method UpdateRewardIndex(
        now: nat, status: Model.DistributionStatus, schedule: Model.Schedule, ratio: nat)
      returns (r: Result<Model.DistributionStatus, Model.Error>)
      ensures r == Model.UpdateRewardIndex(now, status, schedule, ratio)
    {
      var st := status;
      if now < schedule.start {
        return Ok(st);
      }
      if schedule.end <= schedule.start {
        return Err(Model.EmptySchedule);
      }
      var denom := schedule.end - schedule.start;
      var total := MulDec(MultiplyRatio(schedule.amount, Min(now - schedule.start, denom), denom), ratio);
      if total < st.totalDistributed {
        return Err(Model.EmissionUnderflow);
      }
      var here := total - st.totalDistributed;
      st := st.(totalDistributed := total);
      if st.totalWeight == 0 {
        st := st.(pendingReward := st.pendingReward + here);
      } else {
        here := here + st.pendingReward;
        assert here == status.pendingReward + (total - status.totalDistributed);
        st := st.(rewardIndex := st.rewardIndex + Ratio(here, st.totalWeight));
        st := st.(pendingReward := 0);
      }
      return Ok(st);
    }

    method UpdateRewardIndexes(now: nat) returns (r: Result<(), Model.Error>)
      modifies `base, `boost
      ensures match Model.UpdateRewardIndexes(old(Store()), now)
              case Ok(s) => r.Ok? && Store() == s
              case Err(e) => r == Err(e) && Store() == old(Store())
    {
      hide Model.UpdateRewardIndex;
      var newBase := UpdateRewardIndex(now, base, cfg.schedule, cfg.basePoolRatio);
      if newBase.Err? {
        return Err(newBase.error);
      }
      if cfg.basePoolRatio > E {
        return Err(Model.InvalidBasePoolRatio);
      }
      var newBoost := UpdateRewardIndex(now, boost, cfg.schedule, E - cfg.basePoolRatio);
      if newBoost.Err? {
        return Err(newBoost.error);
      }
      base := newBase.value;
      boost := newBoost.value;
      return Ok(());
    }

    /** `_pull_pending_rewards`: reads storage only */
    method PullPendingRewards(account: Addr) returns (r: Result<Model.RewardInfo, Model.Error>)
      ensures r == Model.PullPendingRewards(Store(), account)
    {
      var bond := if account in bonds then bonds[account] else 0;
      var info := if account in rewards then rewards[account]
                  else Model.RewardInfo(base.rewardIndex, boost.rewardIndex, 0, 0, 0);
      if MulDec(bond, base.rewardIndex) < MulDec(bond, info.baseIndex) {
        return Err(Model.CreditUnderflow);
      }
      var basePending := MulDec(bond, base.rewardIndex) - MulDec(bond, info.baseIndex);
      if MulDec(info.boostWeight, boost.rewardIndex) < MulDec(info.boostWeight, info.boostIndex) {
        return Err(Model.CreditUnderflow);
      }
      var boostPending := MulDec(info.boostWeight, boost.rewardIndex) - MulDec(info.boostWeight, info.boostIndex);
      info := info.(pendingReward := info.pendingReward + (basePending + boostPending));
      info := info.(baseIndex := base.rewardIndex);
      info := info.(boostIndex := boost.rewardIndex);
      return Ok(info);
    }

    /** `update_and_save_boost_weight_and_reward_info` */
    method SaveBoost(account: Addr, bond: nat, boostAmount: nat, pulled: Model.RewardInfo)
      returns (r: Result<(), Model.Error>)
      modifies `boost, `rewards
      ensures match Model.SaveBoost(old(Store()), account, bond, boostAmount, pulled)
              case Ok(s) => r.Ok? && Store() == s
              case Err(e) => r == Err(e) && Store() == old(Store())
    {
      var info := pulled;
      var weight := Model.ISqrt(bond * boostAmount);
      if boost.totalWeight < info.boostWeight {
        return Err(Model.WeightUnderflow);
      }
      boost := boost.(totalWeight := boost.totalWeight - info.boostWeight + weight);
      if bond == 0 && info.pendingReward == 0 {
        rewards := rewards - {account};
      } else {
        info := info.(boostWeight := weight);
        info := info.(activeBoost := boostAmount);
        rewards := rewards[account := info];
      }
      return Ok(());
    }

    // ----- bonding -----

    method BondCore(sender: Addr, amount: nat, boostAmount: nat) returns (r: Result<(), Model.Error>)
      modifies this
      ensures match Model.BondCore(old(Store()), sender, amount, boostAmount)
              case Ok(s) => r.Ok? && Store() == s
              case Err(e) => r == Err(e)
    {
      hide Model.PullPendingRewards, Model.SaveBoost;
      var info := PullPendingRewards(sender);
      if info.Err? {
        return Err(info.error);
      }
      var current := if sender in bonds then bonds[sender] else 0;
      bonds := bonds[sender := current + amount];
      base := base.(totalWeight := base.totalWeight + amount);
      r := SaveBoost(sender, current + amount, boostAmount, info.value);
    }

    method Bond(now: nat, sender: Addr, amount: nat, boostAmount: nat) returns (r: Result<(), Model.Error>)
      modifies this
      ensures match Model.Bond(old(Store()), now, sender, amount, boostAmount)
              case Ok(s) => r.Ok? && Store() == s
              case Err(e) => r == Err(e) && Store() == old(Store())
    {
      hide Model.UpdateRewardIndexes, Model.BondCore;
      if amount < cfg.minBondAmount {
        return Err(Model.InvalidBond);
      }
      var before := Store();
      r := UpdateRewardIndexes(now);
      if r.Ok? {
        r := BondCore(sender, amount, boostAmount);
      }
      if r.Err? {
        Rollback(before);
      }
    }

    method UnbondCore(sender: Addr, amount: Option<nat>, boostAmount: nat) returns (r: Result<(), Model.Error>)
      modifies this
      ensures match Model.UnbondCore(old(Store()), sender, amount, boostAmount)
              case Ok(s) => r.Ok? && Store() == s
              case Err(e) => r == Err(e)
    {
      hide Model.PullPendingRewards, Model.SaveBoost;
      var info := PullPendingRewards(sender);
      if info.Err? {
        return Err(info.error);
      }
      if sender !in bonds {
        return Err(Model.InvalidUnbond);
      }
      var current := bonds[sender];
      var unbonded := current;
      if amount.Some? {
        if amount.value > current {
          return Err(Model.InvalidUnbond);
        }
        unbonded := amount.value;
      }
      var left := current - unbonded;
      if left > 0 && left < cfg.minBondAmount {
        return Err(Model.InvalidUnbond);
      }
      if base.totalWeight < unbonded {
        return Err(Model.WeightUnderflow);
      }
      base := base.(totalWeight := base.totalWeight - unbonded);
      if left == 0 {
        bonds := bonds - {sender};
      } else {
        bonds := bonds[sender := left];
      }
      r := SaveBoost(sender, left, boostAmount, info.value);
    }

    method Unbond(now: nat, sender: Addr, amount: Option<nat>, boostAmount: nat) returns (r: Result<(), Model.Error>)
      modifies this
      ensures match Model.Unbond(old(Store()), now, sender, amount, boostAmount)
              case Ok(s) => r.Ok? && Store() == s
              case Err(e) => r == Err(e) && Store() == old(Store())
    {
      hide Model.UpdateRewardIndexes, Model.UnbondCore;
      var before := Store();
      r := UpdateRewardIndexes(now);
      if r.Ok? {
        r := UnbondCore(sender, amount, boostAmount);
      }
      if r.Err? {
        Rollback(before);
      }
    }

    /** `refresh_boost`: returns the current bond */
    method RefreshBoost(now: nat, account: Addr, boostAmount: nat) returns (r: Result<nat, Model.Error>)
      modifies this
      ensures match Model.RefreshBoost(old(Store()), now, account, boostAmount)
              case Ok(s) => r == Ok(Model.Bonded(old(Store()), account)) && Store() == s
              case Err(e) => r == Err(e) && Store() == old(Store())
    {
      hide Model.UpdateRewardIndex, Model.PullPendingRewards, Model.SaveBoost;
      var before := Store();
      var updated := UpdateRewardIndexes(now);
      if updated.Err? {
        return Err(updated.error);
      }
      var info := PullPendingRewards(account);
      if info.Err? {
        Rollback(before);
        return Err(info.error);
      }
      var current := if account in bonds then bonds[account] else 0;
      var saved := SaveBoost(account, current, boostAmount, info.value);
      if saved.Err? {
        Rollback(before);
        return Err(saved.error);
      }
      return Ok(current);
    }

    method PrivilegedRefreshBoost(now: nat, caller: Addr, account: Addr, boostAmount: nat)
      returns (r: Result<nat, Model.Error>)
      modifies this
      ensures match Model.PrivilegedRefreshBoost(old(Store()), now, caller, account, boostAmount)
              case Ok(s) => r.Ok? && Store() == s
              case Err(e) => r == Err(e) && Store() == old(Store())
    {
      hide Model.RefreshBoost;
      if caller != cfg.boostContract {
        return Err(Model.Unauthorized);
      }
      r := RefreshBoost(now, account, boostAmount);
    }

    method ActivateBoost(now: nat, sender: Addr, boostAmount: nat) returns (r: Result<nat, Model.Error>)
      modifies this
      ensures match Model.ActivateBoost(old(Store()), now, sender, boostAmount)
              case Ok(s) => r.Ok? && Store() == s
              case Err(e) => r == Err(e) && Store() == old(Store())
    {
      hide Model.RefreshBoost;
      var before := Store();
      r := RefreshBoost(now, sender, boostAmount);
      if r.Ok? && r.value == 0 {
        Rollback(before);
        return Err(Model.InvalidActivateBoost);
      }
    }

    // ----- vesting -----

    /** the first loop of `update_vest`: adds up the entries that are due */
    method CollectDue(now: nat, account: Addr, already: nat) returns (canWithdraw: nat, toDelete: seq<nat>)
      ensures toDelete == Due(Model.PagedVests(vests, account), now)
      ensures canWithdraw == already + Model.SumVests(vests, account, toDelete)
    {
      hide Model.PagedVests, Model.VestAt, Model.SumVests, Due;
      canWithdraw := already;
      toDelete := [];
      var times := Model.PagedVests(vests, account);
      ghost var due := Due(times, now);
      var i := 0;
      assert times[0..] == times && [] + due == due;
      while i < |times| && times[i] <= now
        invariant i <= |times|
        invariant toDelete + Due(times[i..], now) == due
        invariant canWithdraw + Model.SumVests(vests, account, Due(times[i..], now))
                  == already + Model.SumVests(vests, account, due)
      {
        ghost var rest := Due(times[i + 1..], now);
        DueNext(times, i, now);
        Model.SumVestsHead(vests, account, times[i], rest);
        assert toDelete + ([times[i]] + rest) == toDelete + [times[i]] + rest;
        canWithdraw := canWithdraw + Model.VestAt(vests, (account, times[i]));
        toDelete := toDelete + [times[i]];
        i := i + 1;
      }
      DueStops(times, i, now);
      assert toDelete == due;
      Model.NoVests(vests, account);
    }

    /** its second loop: removes them */
    method RemoveVests(account: Addr, toDelete: seq<nat>)
      modifies `vests
      ensures vests == Model.RemoveVests(old(vests), account, toDelete)
    {
      for j := 0 to |toDelete|
        invariant Model.RemoveVests(vests, account, toDelete[j..]) == Model.RemoveVests(old(vests), account, toDelete)
      {
        assert toDelete[j..][1..] == toDelete[j + 1..];
        vests := vests - {(account, toDelete[j])};
      }
    }

    method UpdateVest(now: nat, account: Addr)
      modifies `vests, `pendingWithdraw
      ensures Store() == Model.UpdateVest(old(Store()), now, account)
    {
      hide Model.PagedVests, Due, Model.SumVests, Model.RemoveVests;
      var already := if account in pendingWithdraw then pendingWithdraw[account] else 0;
      var canWithdraw, toDelete := CollectDue(now, account, already);
      RemoveVests(account, toDelete);
      if canWithdraw == 0 {
        pendingWithdraw := pendingWithdraw - {account};
      } else {
        pendingWithdraw := pendingWithdraw[account := canWithdraw];
      }
    }

    /** `_withdraw_rewards_single` */
    method WithdrawSingle(now: nat, account: Addr) returns (r: Result<nat, Model.Error>)
      modifies this
      ensures match Model.WithdrawSingle(old(Store()), now, account)
              case Ok(s) => r.Ok? && Store() == s
              case Err(e) => r == Err(e) && Store() == old(Store())
    {
      hide Model.PullPendingRewards, Model.UpdateVest;
      var pulled := PullPendingRewards(account);
      if pulled.Err? {
        return Err(pulled.error);
      }
      var info := pulled.value;
      var toWithdraw := info.pendingReward;
      info := info.(pendingReward := 0);
      if account !in bonds || bonds[account] == 0 {
        rewards := rewards - {account};
      } else {
        rewards := rewards[account := info];
      }
      ghost var m := Store();
      UpdateVest(now, account);
      assert Store() == Model.UpdateVest(m, now, account) && cfg == m.cfg;
      if toWithdraw != 0 {
        var endTime := now + cfg.vestingPeriod;
        endTime := endTime - endTime % Model.TIME_UNIT;
        var original := if (account, endTime) in vests then vests[(account, endTime)] else 0;
        vests := vests[(account, endTime) := original + toWithdraw];
      }
      return Ok(toWithdraw);
    }

    method WithdrawRewards(now: nat, sender: Addr) returns (r: Result<nat, Model.Error>)
      modifies this
      ensures match Model.WithdrawRewards(old(Store()), now, sender)
              case Ok(s) => r.Ok? && Store() == s
              case Err(e) => r == Err(e) && Store() == old(Store())
    {
      hide Model.UpdateRewardIndexes, Model.WithdrawSingle;
      var before := Store();
      var updated := UpdateRewardIndexes(now);
      if updated.Err? {
        return Err(updated.error);
      }
      r := WithdrawSingle(now, sender);
      if r.Err? {
        Rollback(before);
      }
    }

    /** Returns the last account of the page, to start the next one after. */
    method WithdrawRewardsBulk(now: nat, caller: Addr, limit: nat, startAfter: Option<Addr>)
      returns (r: Result<Option<Addr>, Model.Error>)
      modifies this
      ensures match Model.WithdrawRewardsBulk(old(Store()), now, caller, limit, startAfter)
              case Ok(o) => r == Ok(o.last) && Store() == o.store
              case Err(e) => r == Err(e) && Store() == old(Store())
    {
      hide Model.UpdateRewardIndexes, Model.WithdrawSingle, Model.PagedAccounts;
      if caller != cfg.operator {
        return Err(Model.Unauthorized);
      }
      var before := Store();
      var updated := UpdateRewardIndexes(now);
      if updated.Err? {
        return Err(updated.error);
      }
      var accounts := Model.PagedAccounts(rewards, limit, startAfter);
      ghost var whole := Model.WithdrawEach(Store(), now, accounts);
      for i := 0 to |accounts|
        invariant Model.WithdrawEach(Store(), now, accounts[i..]) == whole
      {
        assert accounts[i..][1..] == accounts[i + 1..];
        var single := WithdrawSingle(now, accounts[i]);
        if single.Err? {
          Rollback(before);
          return Err(single.error);
        }
      }
      return Ok(if accounts == [] then None else Some(accounts[|accounts| - 1]));
    }

    /** Returns the PRISM paid out for the account. */
    method ClaimWithdrawnRewards(now: nat, sender: Addr) returns (r: Result<nat, Model.Error>)
      modifies this
      ensures match Model.ClaimWithdrawnRewards(old(Store()), now, sender)
              case Ok(o) => r == Ok(o.paid) && Store() == o.store
              case Err(e) => r == Err(e) && Store() == old(Store())
    {
      hide Model.UpdateVest;
      var before := Store();
      UpdateVest(now, sender);
      var amount := if sender in pendingWithdraw then pendingWithdraw[sender] else 0;
      if amount == 0 {
        Rollback(before);
        return Err(Model.InvalidClaim);
      }
      pendingWithdraw := pendingWithdraw - {sender};
      return Ok(amount);
    }

    // ----- configuration -----

    method ChangeRatio(now: nat, ratio: nat) returns (r: Result<(), Model.Error>)
      modifies this
      ensures match Model.ChangeRatio(old(Store()), now, ratio)
              case Ok(s) => r.Ok? && Store() == s
              case Err(e) => r == Err(e) && Store() == old(Store())
    {
      hide Model.UpdateRewardIndexes;
      if ratio > E {
        return Err(Model.InvalidBasePoolRatio);
      }
      var before := Store();
      r := UpdateRewardIndexes(now);
      if r.Err? {
        return;
      }
      var schedule := cfg.schedule;
      if now > schedule.start && now < schedule.end {
        var distributed := base.totalDistributed + boost.totalDistributed;
        if schedule.amount < distributed {
          Rollback(before);
          return Err(Model.EmissionUnderflow);
        }
        cfg := cfg.(schedule := Model.Schedule(now, schedule.end, schedule.amount - distributed));
        base := base.(totalDistributed := 0);
        boost := boost.(totalDistributed := 0);
      }
      cfg := cfg.(basePoolRatio := ratio);
      return Ok(());
    }

    method UpdateConfig(now: nat, caller: Addr, minBond: Option<nat>, ratio: Option<nat>)
      returns (r: Result<(), Model.Error>)
      modifies this
      ensures match Model.UpdateConfig(old(Store()), now, caller, minBond, ratio)
              case Ok(s) => r.Ok? && Store() == s
              case Err(e) => r == Err(e) && Store() == old(Store())
    {
      hide Model.ChangeRatio;
      if caller != cfg.owner {
        return Err(Model.Unauthorized);
      }
      if ratio.Some? {
        r := ChangeRatio(now, ratio.value);
        if r.Err? {
          return;
        }
      }
      if minBond.Some? {
        cfg := cfg.(minBondAmount := minBond.value);
      }
      return Ok(());
    }
  }
}
