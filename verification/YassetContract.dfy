/** The yAsset staking contract in place: storage items are fields, calls are methods, and
    each method does exactly what `YassetModel` says of the stored values. */
module YassetContract {
  import opened Addresses
  import opened Results
  import opened FixedPoint
  import Model = YassetModel

  /** the rest of a fold that appends to what was already sent */
  ghost predicate SendsTo(
      whole: Result<Model.Outcome, Model.Error>, sent: seq<Model.Deposit>, rest: Result<Model.Outcome, Model.Error>)
  {
    match rest
    case Ok(o) => whole == Ok(Model.Outcome(o.store, sent + o.sent))
    case Err(e) => whole == Err(e)
  }

  lemma SendsOn(
      whole: Result<Model.Outcome, Model.Error>, sent: seq<Model.Deposit>,
      mid: Result<Model.Outcome, Model.Error>, more: seq<Model.Deposit>, rest: Result<Model.Outcome, Model.Error>)
    requires SendsTo(whole, sent, mid) && SendsTo(mid, more, rest)
    ensures SendsTo(whole, sent + more, rest)
  {
    if rest.Ok? {
      assert sent + (more + rest.value.sent) == sent + more + rest.value.sent;
    }
  }

  lemma SendsAll(whole: Result<Model.Outcome, Model.Error>)
    ensures SendsTo(whole, [], whole)
  {
    assert whole.Ok? ==> [] + whole.value.sent == whole.value.sent;
  }

  lemma SentAll(whole: Result<Model.Outcome, Model.Error>, sent: seq<Model.Deposit>, s: Model.Storage)
    requires SendsTo(whole, sent, Ok(Model.Outcome(s, [])))
    ensures whole == Ok(Model.Outcome(s, sent))
  {
    assert sent + [] == sent;
  }

  lemma FailsWith(whole: Result<Model.Outcome, Model.Error>, sent: seq<Model.Deposit>, e: Model.Error)
    requires SendsTo(whole, sent, Err(e))
    ensures whole == Err(e)
  {
  }

  lemma NoDeposits(s: Model.Storage, portion: nat, assets: seq<Model.Deposit>)
    requires assets == []
    ensures Model.DepositEach(s, portion, assets) == Ok(Model.Outcome(s, []))
  {
  }

  lemma DepositNext(s: Model.Storage, portion: nat, assets: seq<Model.Deposit>, i: nat, reward: nat)
    requires i < |assets| && assets[i].asset in s.whitelist
    requires Model.StakersReward(assets[i].amount, portion, s.protocolFee) == Ok(reward)
    ensures reward <= assets[i].amount
    ensures SendsTo(
              Model.DepositEach(s, portion, assets[i..]), [Model.Deposit(assets[i].asset, assets[i].amount - reward)],
              Model.DepositEach(Model.RaiseIndex(s, assets[i].asset, reward), portion, assets[i + 1..]))
  {
    hide Model.StakersReward, Model.RaiseIndex;
    assert assets[i..][1..] == assets[i + 1..];
  }

  lemma DepositFails(s: Model.Storage, portion: nat, assets: seq<Model.Deposit>, i: nat)
    requires i < |assets|
    ensures assets[i].asset !in s.whitelist ==>
              Model.DepositEach(s, portion, assets[i..]) == Err(Model.NotWhitelisted)
    ensures assets[i].asset in s.whitelist && Model.StakersReward(assets[i].amount, portion, s.protocolFee).Err? ==>
              Model.DepositEach(s, portion, assets[i..])
              == Err(Model.StakersReward(assets[i].amount, portion, s.protocolFee).error)
  {
    hide Model.StakersReward, Model.RaiseIndex;
  }

  class YassetStaking {
    var protocolFee: nat
    var whitelist: seq<Model.Asset>
    var totalBond: nat
    var pools: map<Model.Asset, nat>
    var rewards: Model.Rewards
    var bonds: map<Addr, nat>

    function Store(): Model.Storage
      reads this
    {
      Model.Storage(protocolFee, whitelist, totalBond, pools, rewards, bonds)
    }

    constructor (protocolFee: nat, pluna: Model.Asset, yluna: Model.Asset)
      requires Model.Instantiate(protocolFee, pluna, yluna).Ok?
      ensures Store() == Model.Instantiate(protocolFee, pluna, yluna).value
    {
      this.protocolFee, whitelist, totalBond := protocolFee, [pluna, yluna], 0;
      pools, rewards, bonds := map[], map[], map[];
    }

    /** the storage of an aborted transaction is the storage before it */
    method Rollback(before: Model.Storage)
      modifies this
      ensures Store() == before
    {
      protocolFee, whitelist, totalBond := before.protocolFee, before.whitelist, before.totalBond;
      pools, rewards, bonds := before.pools, before.rewards, before.bonds;
    }

    /** Returns what is sent to the collector. */
    method DepositRewards(vaultBond: nat, assets: seq<Model.Deposit>) returns (r: Result<seq<Model.Deposit>, Model.Error>)
      modifies this
      ensures match Model.DepositRewards(old(Store()), vaultBond, assets)
              case Ok(o) => r == Ok(o.sent) && Store() == o.store
              case Err(e) => r == Err(e) && Store() == old(Store())
    {
      hide Model.StakersReward, Model.DepositEach, Ratio, SendsTo;
      var before := Store();
      var portion := Model.StakersPortion(totalBond, vaultBond);
      if portion.Err? {
        return Err(portion.error);
      }
      var sent: seq<Model.Deposit> := [];
      ghost var whole := Model.DepositEach(before, portion.value, assets);
      assert assets[0..] == assets;
      SendsAll(whole);
      for i := 0 to |assets|
        invariant SendsTo(whole, sent, Model.DepositEach(Store(), portion.value, assets[i..]))
      {
        var asset, amount := assets[i].asset, assets[i].amount;
        ghost var current := Store();
        DepositFails(current, portion.value, assets, i);
        if asset !in whitelist {
          FailsWith(whole, sent, Model.NotWhitelisted);
          Rollback(before);
          return Err(Model.NotWhitelisted);
        }
        var reward := Model.StakersReward(amount, portion.value, protocolFee);
        if reward.Err? {
          FailsWith(whole, sent, reward.error);
          Rollback(before);
          return Err(reward.error);
        }
        DepositNext(current, portion.value, assets, i, reward.value);
        if totalBond != 0 {
          var index := if asset in pools then pools[asset] else 0;
          pools := pools[asset := index + Ratio(reward.value, totalBond)];
        }
        assert Store() == Model.RaiseIndex(current, asset, reward.value);
        SendsOn(whole, sent, Model.DepositEach(current, portion.value, assets[i..]),
                [Model.Deposit(asset, amount - reward.value)],
                Model.DepositEach(Store(), portion.value, assets[i + 1..]));
        sent := sent + [Model.Deposit(asset, amount - reward.value)];
      }
      NoDeposits(Store(), portion.value, assets[|assets|..]);
      SentAll(whole, sent, Store());
      return Ok(sent);
    }

    /** `compute_asset_rewards`: reads storage only */
    method ComputeAssetRewards(staker: Addr, bond: nat, asset: Model.Asset) returns (r: Result<Model.RewardInfo, Model.Error>)
      ensures r == Model.ComputeAssetRewards(Store(), staker, bond, asset)
    {
      var index := if asset in pools then pools[asset] else 0;
      var info := Model.RewardInfo(0, 0);
      if (staker, asset) in rewards {
        info := rewards[(staker, asset)];
        if MulDec(bond, index) < MulDec(bond, info.index) {
          return Err(Model.CreditUnderflow);
        }
        info := info.(pendingReward := info.pendingReward + (MulDec(bond, index) - MulDec(bond, info.index)));
      }
      info := info.(index := index);
      return Ok(info);
    }

    /** `compute_all_rewards`: settles the staker in every given asset */
    method ComputeAllRewards(staker: Addr, bond: nat, assets: seq<Model.Asset>) returns (r: Result<(), Model.Error>)
      modifies `rewards
      ensures match Model.ComputeAllRewards(old(Store()), staker, bond, assets)
              case Ok(s) => r.Ok? && Store() == s
              case Err(e) => r == Err(e) && Store() == old(Store())
    {
      hide Model.ComputeAssetRewards;
      var before := rewards;
      ghost var whole := Model.ComputeAllRewards(Store(), staker, bond, assets);
      assert assets[0..] == assets;
      for i := 0 to |assets|
        invariant Model.ComputeAllRewards(Store(), staker, bond, assets[i..]) == whole
      {
        assert assets[i..][1..] == assets[i + 1..];
        var info := ComputeAssetRewards(staker, bond, assets[i]);
        if info.Err? {
          rewards := before;
          return Err(info.error);
        }
        rewards := rewards[(staker, assets[i]) := info.value];
      }
      assert assets[|assets|..] == [];
      return Ok(());
    }

    method Bond(staker: Addr, amount: nat) returns (r: Result<(), Model.Error>)
      modifies `rewards, `totalBond, `bonds
      ensures match Model.Bond(old(Store()), staker, amount)
              case Ok(s) => r.Ok? && Store() == s
              case Err(e) => r == Err(e) && Store() == old(Store())
    {
      hide Model.ComputeAllRewards;
      var bondTotal := totalBond;
      var bond := if staker in bonds then bonds[staker] else 0;
      r := ComputeAllRewards(staker, bond, whitelist);
      if r.Err? {
        return;
      }
      bond := bond + amount;
      totalBond := bondTotal + amount;
      bonds := bonds[staker := bond];
      return Ok(());
    }

    /** Returns the yLuna sent back. */
    method Unbond(staker: Addr, amount: Option<nat>) returns (r: Result<nat, Model.Error>)
      modifies `rewards, `totalBond, `bonds
      ensures match Model.Unbond(old(Store()), staker, amount)
              case Ok(s) => r.Ok? && r.value == old(totalBond) - totalBond && Store() == s
              case Err(e) => r == Err(e) && Store() == old(Store())
    {
      hide Model.ComputeAllRewards;
      if staker !in bonds {
        return Err(Model.NoTokensBonded);
      }
      var bondTotal, bond, rewardsBefore := totalBond, bonds[staker], rewards;
      var settled := ComputeAllRewards(staker, bond, whitelist);
      if settled.Err? {
        return Err(settled.error);
      }
      var unbonded := bond;
      if amount.Some? {
        if amount.value > bond {
          rewards := rewardsBefore;
          return Err(Model.UnbondTooMuch);
        }
        unbonded := amount.value;
      }
      if unbonded > bondTotal {
        rewards := rewardsBefore;
        return Err(Model.UnbondMoreThanTotal);
      }
      bond := bond - unbonded;
      totalBond := bondTotal - unbonded;
      bonds := bonds[staker := bond];
      return Ok(unbonded);
    }

    /** Returns the rewards sent to the staker. */
    method ClaimRewards(staker: Addr) returns (r: Result<seq<Model.Deposit>, Model.Error>)
      modifies this
      ensures match Model.ClaimRewards(old(Store()), staker)
              case Ok(o) => r == Ok(o.sent) && Store() == o.store
              case Err(e) => r == Err(e) && Store() == old(Store())
    {
      hide Model.ComputeAssetRewards;
      if staker !in bonds {
        return Err(Model.NoTokensBonded);
      }
      var before := Store();
      var bond, assets := bonds[staker], whitelist;
      var sent: seq<Model.Deposit> := [];
      ghost var whole := Model.ClaimEach(before, staker, bond, assets);
      assert assets[0..] == assets;
      assert whole.Ok? ==> [] + whole.value.sent == whole.value.sent;
      for i := 0 to |assets|
        invariant SendsTo(whole, sent, Model.ClaimEach(Store(), staker, bond, assets[i..]))
      {
        assert assets[i..][1..] == assets[i + 1..];
        var info := ComputeAssetRewards(staker, bond, assets[i]);
        if info.Err? {
          Rollback(before);
          return Err(info.error);
        }
        var claimed := info.value.pendingReward;
        rewards := rewards[(staker, assets[i]) := info.value.(pendingReward := 0)];
        if claimed != 0 {
          var message := [Model.Deposit(assets[i], claimed)];
          ghost var rest := Model.ClaimEach(Store(), staker, bond, assets[i + 1..]);
          assert rest.Ok? ==> sent + (message + rest.value.sent) == sent + message + rest.value.sent;
          sent := sent + message;
        }
      }
      assert assets[|assets|..] == [];
      assert sent + [] == sent;
      return Ok(sent);
    }

    /** the rewards part of `convert_and_claim_rewards`: returns what is handed on */
    method ConvertAndClaimRewards(staker: Addr) returns (r: Result<seq<Model.Deposit>, Model.Error>)
      modifies this
      ensures match Model.ConvertAndClaim(old(Store()), staker)
              case Ok(o) => r == Ok(o.sent) && Store() == o.store
              case Err(e) => r == Err(e) && Store() == old(Store())
    {
      hide Model.ComputeAssetRewards;
      if staker !in bonds {
        return Err(Model.NoTokensBonded);
      }
      var before := Store();
      var bond, assets := bonds[staker], whitelist;
      var sent: seq<Model.Deposit> := [];
      ghost var whole := Model.ConvertEach(before, staker, bond, assets);
      assert assets[0..] == assets;
      assert whole.Ok? ==> [] + whole.value.sent == whole.value.sent;
      for i := 0 to |assets|
        invariant SendsTo(whole, sent, Model.ConvertEach(Store(), staker, bond, assets[i..]))
      {
        assert assets[i..][1..] == assets[i + 1..];
        var info := ComputeAssetRewards(staker, bond, assets[i]);
        if info.Err? {
          Rollback(before);
          return Err(info.error);
        }
        var claimed := info.value.pendingReward;
        if claimed == 0 {
          continue;
        }
        rewards := rewards[(staker, assets[i]) := info.value.(pendingReward := 0)];
        var message := [Model.Deposit(assets[i], claimed)];
        ghost var rest := Model.ConvertEach(Store(), staker, bond, assets[i + 1..]);
        assert rest.Ok? ==> sent + (message + rest.value.sent) == sent + message + rest.value.sent;
        sent := sent + message;
      }
      assert assets[|assets|..] == [];
      assert sent + [] == sent;
      return Ok(sent);
    }

    method WhitelistRewardAsset(asset: Model.Asset)
      modifies `whitelist
      ensures Store() == Model.Whitelist(old(Store()), asset)
    {
      whitelist := whitelist + [asset];
    }

    method RemoveWhitelistedRewardAsset(asset: Model.Asset) returns (r: Result<(), Model.Error>)
      modifies `whitelist
      ensures match Model.RemoveAsset(old(Store()), asset)
              case Ok(s) => r.Ok? && Store() == s
              case Err(e) => r == Err(e) && Store() == old(Store())
    {
      if asset !in whitelist {
        return Err(Model.NotWhitelisted);
      }
      var p := Model.Position(whitelist, asset);
      whitelist := whitelist[..p] + whitelist[p + 1..];
      return Ok(());
    }

    method UpdateProtocolFee(fee: nat) returns (r: Result<(), Model.Error>)
      modifies `protocolFee
      ensures match Model.SetProtocolFee(old(Store()), fee)
              case Ok(s) => r.Ok? && Store() == s
              case Err(e) => r == Err(e) && Store() == old(Store())
    {
      if fee > Model.MAX_PROTOCOL_FEE {
        return Err(Model.FeeTooLarge);
      }
      protocolFee := fee;
      return Ok(());
    }
  }
}
