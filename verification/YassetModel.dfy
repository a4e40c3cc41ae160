/** yAsset staking on values: staked yLuna earns whatever whitelisted assets are deposited. */
module YassetModel {
  import opened Addresses
  import opened Results
  import opened FixedPoint

  /** a reward asset, by its token contract; native coins cannot be whitelisted */
  type Asset = Addr

  datatype RewardInfo = RewardInfo(index: nat, pendingReward: nat)

  /** staker, then asset */
  type RewardKey = (Addr, Asset)

  type Rewards = map<RewardKey, RewardInfo>

  datatype Storage = Storage(
    protocolFee: nat,
    whitelist: seq<Asset>,
    totalBond: nat,
    pools: map<Asset, nat>,
    rewards: Rewards,
    bonds: map<Addr, nat>)

  datatype Error =
    | NotWhitelisted
    | FeeUnderflow
    | DivideByZero
    | NoTokensBonded
    | UnbondTooMuch
    | UnbondMoreThanTotal
    | CreditUnderflow
    | FeeTooLarge

  const MAX_PROTOCOL_FEE: nat := E / 2

  function Instantiate(protocolFee: nat, pluna: Asset, yluna: Asset): Result<Storage, Error> {
    if protocolFee > MAX_PROTOCOL_FEE then Err(FeeTooLarge)
    else Ok(Storage(protocolFee, [pluna, yluna], 0, map[], map[], map[]))
  }

  function IndexOf(pools: map<Asset, nat>, asset: Asset): nat {
    if asset in pools then pools[asset] else 0
  }

  function BondAt(bonds: map<Addr, nat>, staker: Addr): nat {
    if staker in bonds then bonds[staker] else 0
  }

  // ----- deposits -----

  datatype Deposit = Deposit(asset: Asset, amount: nat)

  /** the part of the vault's yLuna that is staked here */
  function StakersPortion(totalBond: nat, vaultBond: nat): Result<nat, Error> {
    if totalBond == 0 then Ok(0)
    else if vaultBond == 0 then Err(DivideByZero)
    else Ok(Min(Ratio(totalBond, vaultBond), E))
  }

  /** what the stakers get of a deposit, after the protocol's fee */
  function StakersReward(amount: nat, portion: nat, fee: nat): (r: Result<nat, Error>)
    ensures r.Ok? ==> r.value <= amount
  {
    var ofStakers := MulDec(amount, portion);
    if ofStakers < MulDec(ofStakers, fee) then Err(FeeUnderflow)
    else if amount < ofStakers - MulDec(ofStakers, fee) then Err(FeeUnderflow)
    else Ok(ofStakers - MulDec(ofStakers, fee))
  }

  /** the storage after a call, and the amounts sent away, in order */
  datatype Outcome = Outcome(store: Storage, sent: seq<Deposit>)

  function RaiseIndex(s: Storage, asset: Asset, reward: nat): Storage {
    if s.totalBond == 0 then s
    else s.(pools := s.pools[asset := IndexOf(s.pools, asset) + Ratio(reward, s.totalBond)])
  }

  function DepositEach(s: Storage, portion: nat, assets: seq<Deposit>): Result<Outcome, Error>
    decreases |assets|
  {
    if assets == [] then Ok(Outcome(s, []))
    else
      var asset, amount := assets[0].asset, assets[0].amount;
      if asset !in s.whitelist then Err(NotWhitelisted) else
      var reward :- StakersReward(amount, portion, s.protocolFee);
      var rest :- DepositEach(RaiseIndex(s, asset, reward), portion, assets[1..]);
      Ok(Outcome(rest.store, [Deposit(asset, amount - reward)] + rest.sent))
  }

  /** `deposit_rewards`: what the stakers do not get is sent to the collector */
  function DepositRewards(s: Storage, vaultBond: nat, assets: seq<Deposit>): Result<Outcome, Error> {
    var portion :- StakersPortion(s.totalBond, vaultBond);
    DepositEach(s, portion, assets)
  }

  // ----- settling -----

  /** `compute_asset_rewards` */
  function ComputeAssetRewards(s: Storage, staker: Addr, bond: nat, asset: Asset): Result<RewardInfo, Error> {
    var g := IndexOf(s.pools, asset);
    if (staker, asset) !in s.rewards then Ok(RewardInfo(g, 0))
    else
      var info := s.rewards[(staker, asset)];
      if MulDec(bond, g) < MulDec(bond, info.index) then Err(CreditUnderflow)
      else Ok(RewardInfo(g, info.pendingReward + (MulDec(bond, g) - MulDec(bond, info.index))))
  }

  /** `compute_all_rewards` */
  function ComputeAllRewards(s: Storage, staker: Addr, bond: nat, assets: seq<Asset>): Result<Storage, Error>
    decreases |assets|
  {
    if assets == [] then Ok(s)
    else
      var info :- ComputeAssetRewards(s, staker, bond, assets[0]);
      ComputeAllRewards(s.(rewards := s.rewards[(staker, assets[0]) := info]), staker, bond, assets[1..])
  }

  // ----- bonding -----

  function Bond(s: Storage, staker: Addr, amount: nat): Result<Storage, Error> {
    var current := BondAt(s.bonds, staker);
    var s1 :- ComputeAllRewards(s, staker, current, s.whitelist);
    Ok(s1.(totalBond := s.totalBond + amount, bonds := s1.bonds[staker := current + amount]))
  }

  function Unbond(s: Storage, staker: Addr, amount: Option<nat>): Result<Storage, Error> {
    if staker !in s.bonds then Err(NoTokensBonded)
    else
      var current := s.bonds[staker];
      var s1 :- ComputeAllRewards(s, staker, current, s.whitelist);
      var unbonded := if amount.Some? then amount.value else current;
      if unbonded > current then Err(UnbondTooMuch)
      else if unbonded > s.totalBond then Err(UnbondMoreThanTotal)
      else Ok(s1.(totalBond := s.totalBond - unbonded, bonds := s1.bonds[staker := current - unbonded]))
  }

  // ----- claiming -----

  function ClaimEach(s: Storage, staker: Addr, bond: nat, assets: seq<Asset>): Result<Outcome, Error>
    decreases |assets|
  {
    if assets == [] then Ok(Outcome(s, []))
    else
      var info :- ComputeAssetRewards(s, staker, bond, assets[0]);
      var s1 := s.(rewards := s.rewards[(staker, assets[0]) := info.(pendingReward := 0)]);
      var rest :- ClaimEach(s1, staker, bond, assets[1..]);
      Ok(Outcome(
        rest.store,
        if info.pendingReward == 0 then rest.sent else [Deposit(assets[0], info.pendingReward)] + rest.sent))
  }

  /** `claim_rewards`: pays everything out */
  function ClaimRewards(s: Storage, staker: Addr): Result<Outcome, Error> {
    if staker !in s.bonds then Err(NoTokensBonded)
    else ClaimEach(s, staker, s.bonds[staker], s.whitelist)
  }

  function ConvertEach(s: Storage, staker: Addr, bond: nat, assets: seq<Asset>): Result<Outcome, Error>
    decreases |assets|
  {
    if assets == [] then Ok(Outcome(s, []))
    else
      var info :- ComputeAssetRewards(s, staker, bond, assets[0]);
      if info.pendingReward == 0 then ConvertEach(s, staker, bond, assets[1..])
      else
        var s1 := s.(rewards := s.rewards[(staker, assets[0]) := info.(pendingReward := 0)]);
        var rest :- ConvertEach(s1, staker, bond, assets[1..]);
        Ok(Outcome(rest.store, [Deposit(assets[0], info.pendingReward)] + rest.sent))
  }

  /** `convert_and_claim_rewards`: hands everything on to be swapped, and does not touch the
      records of assets with nothing pending */
  function ConvertAndClaim(s: Storage, staker: Addr): Result<Outcome, Error> {
    if staker !in s.bonds then Err(NoTokensBonded)
    else ConvertEach(s, staker, s.bonds[staker], s.whitelist)
  }

  // ----- the whitelist -----

  function Whitelist(s: Storage, asset: Asset): Storage {
    s.(whitelist := s.whitelist + [asset])
  }

  /** the first position of an asset in the list */
  function Position(assets: seq<Asset>, asset: Asset): (p: nat)
    requires asset in assets
    ensures p < |assets| && assets[p] == asset && asset !in assets[..p]
  {
    if assets[0] == asset then 0 else
      var p := Position(assets[1..], asset);
      assert assets[..p + 1] == [assets[0]] + assets[1..][..p];
      p + 1
  }

  function RemoveAsset(s: Storage, asset: Asset): Result<Storage, Error> {
    if asset !in s.whitelist then Err(NotWhitelisted)
    else
      var p := Position(s.whitelist, asset);
      Ok(s.(whitelist := s.whitelist[..p] + s.whitelist[p + 1..]))
  }

  function SetProtocolFee(s: Storage, fee: nat): Result<Storage, Error> {
    if fee > MAX_PROTOCOL_FEE then Err(FeeTooLarge) else Ok(s.(protocolFee := fee))
  }
}
