/** When a deposit of rewards is accepted: the fee stays within its limit over every run, so only
    an asset that is not listed, or an empty vault, can turn a deposit away. */
module YassetDeposits {
  import opened Addresses
  import opened Results
  import opened FixedPoint
  import opened YassetModel
  import opened YassetRuns

  /** nothing but the owner's setting touches the fee */
  lemma {:induction false} DepositKeepsFee(s: Storage, portion: nat, assets: seq<Deposit>)
    requires DepositEach(s, portion, assets).Ok?
    ensures DepositEach(s, portion, assets).value.store.protocolFee == s.protocolFee
    decreases |assets|
  {
    hide StakersReward;
    if assets != [] {
      var reward := StakersReward(assets[0].amount, portion, s.protocolFee).value;
      DepositKeepsFee(RaiseIndex(s, assets[0].asset, reward), portion, assets[1..]);
    }
  }

  lemma {:induction false} ClaimKeepsFee(s: Storage, staker: Addr, bond: nat, assets: seq<Asset>)
    requires ClaimEach(s, staker, bond, assets).Ok?
    ensures ClaimEach(s, staker, bond, assets).value.store.protocolFee == s.protocolFee
    decreases |assets|
  {
    hide ComputeAssetRewards;
    if assets != [] {
      var info := ComputeAssetRewards(s, staker, bond, assets[0]).value;
      ClaimKeepsFee(s.(rewards := s.rewards[(staker, assets[0]) := info.(pendingReward := 0)]), staker, bond, assets[1..]);
    }
  }

  lemma {:induction false} ConvertKeepsFee(s: Storage, staker: Addr, bond: nat, assets: seq<Asset>)
    requires ConvertEach(s, staker, bond, assets).Ok?
    ensures ConvertEach(s, staker, bond, assets).value.store.protocolFee == s.protocolFee
    decreases |assets|
  {
    hide ComputeAssetRewards;
    if assets != [] {
      var info := ComputeAssetRewards(s, staker, bond, assets[0]).value;
      if info.pendingReward == 0 {
        ConvertKeepsFee(s, staker, bond, assets[1..]);
      } else {
        ConvertKeepsFee(s.(rewards := s.rewards[(staker, assets[0]) := info.(pendingReward := 0)]), staker, bond, assets[1..]);
      }
    }
  }

  lemma StepFee(w: World, op: Op)
    ensures var fee, fee' := w.store.protocolFee, Step(w, op).store.protocolFee;
            fee' == if op.SetFee? && 2 * op.fee <= 1_000_000_000_000_000_000 then op.fee else fee
  {
    hide DepositEach, ClaimEach, ConvertEach, ComputeAllRewards, RebondTally, PourTally, ClaimTally, ConvertTally;
    var s := w.store;
    match op
    case Stake(staker, amount) =>
      if Bond(s, staker, amount).Ok? {
        SettlesRewardsOnly(s, staker, BondAt(s.bonds, staker), s.whitelist);
      }
    case Unstake(staker, part) =>
      if Unbond(s, staker, part).Ok? {
        UnbondExact(s, staker, part);
      }
    case Pour(vaultBond, assets) =>
      if DepositRewards(s, vaultBond, assets).Ok? {
        DepositKeepsFee(s, StakersPortion(s.totalBond, vaultBond).value, assets);
      }
    case Claim(staker) =>
      if ClaimRewards(s, staker).Ok? {
        ClaimKeepsFee(s, staker, s.bonds[staker], s.whitelist);
      }
    case Convert(staker) =>
      if ConvertAndClaim(s, staker).Ok? {
        ConvertKeepsFee(s, staker, s.bonds[staker], s.whitelist);
      }
    case _ =>
  }

  /** The fee starts within one half and never leaves it: a higher one is refused at
      instantiation and by every later setting, and nothing else changes it. */
  lemma {:induction false} FeeAtMostHalf(w: World, ops: seq<Op>)
    requires 2 * w.store.protocolFee <= 1_000_000_000_000_000_000
    ensures 2 * Run(w, ops).store.protocolFee <= 1_000_000_000_000_000_000
    decreases |ops|
  {
    hide Step;
    if ops != [] {
      StepFee(w, ops[0]);
      FeeAtMostHalf(Step(w, ops[0]), ops[1..]);
    }
  }

  predicate AllListed(whitelist: seq<Asset>, assets: seq<Deposit>) {
    forall d | d in assets :: d.asset in whitelist
  }

  lemma {:induction false} DepositEachIff(s: Storage, portion: nat, assets: seq<Deposit>)
    requires portion <= E && s.protocolFee <= E
    ensures DepositEach(s, portion, assets).Ok? <==> AllListed(s.whitelist, assets)
    decreases |assets|
  {
    if assets != [] {
      assert assets == [assets[0]] + assets[1..];
      RewardPossible(assets[0].amount, portion, s.protocolFee);
      hide StakersReward;
      var reward := StakersReward(assets[0].amount, portion, s.protocolFee).value;
      DepositEachIff(RaiseIndex(s, assets[0].asset, reward), portion, assets[1..]);
    }
  }

  lemma RewardPossible(amount: nat, portion: nat, fee: nat)
    requires portion <= E && fee <= E
    ensures StakersReward(amount, portion, fee).Ok?
  {
    hide MulDec;
    MulDecAtMost(amount, portion);
    MulDecAtMost(MulDec(amount, portion), fee);
  }

  /** In every reachable state a deposit is accepted exactly when all its assets are listed, and
      the vault is not empty while anything is staked. */
  lemma DepositSucceedsIff(fee: nat, pluna: Asset, yluna: Asset, ops: seq<Op>, vaultBond: nat, assets: seq<Deposit>)
    requires Instantiate(fee, pluna, yluna).Ok?
    ensures var s := Run(Start(Instantiate(fee, pluna, yluna).value), ops).store;
            DepositRewards(s, vaultBond, assets).Ok?
            <==> (s.totalBond > 0 ==> vaultBond > 0) && forall d | d in assets :: d.asset in s.whitelist
  {
    hide Run, DepositEach;
    var w := Start(Instantiate(fee, pluna, yluna).value);
    FeeAtMostHalf(w, ops);
    var s := Run(w, ops).store;
    if s.totalBond > 0 ==> vaultBond > 0 {
      DepositEachIff(s, StakersPortion(s.totalBond, vaultBond).value, assets);
    }
  }
}
