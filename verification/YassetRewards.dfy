/** Rewards of yAsset staking: deposits, settlements, and the law of one asset. */
module YassetRewards {
  import opened Addresses
  import opened Results
  import opened FixedPoint
  import opened Sums
  import opened RewardIndex
  import opened YassetModel

  // ----- a deposit -----

  /** The stakers' reward of a deposit is at most their exact share of it, and the rest goes
      to the collector; with a fee within its limit nothing underflows. */
  lemma DepositSplit(amount: nat, totalBond: nat, vaultBond: nat, fee: nat)
    requires fee <= E && totalBond > 0 && vaultBond > 0
    ensures var portion := StakersPortion(totalBond, vaultBond);
            && portion.Ok?
            && StakersReward(amount, portion.value, fee).Ok?
            && StakersReward(amount, portion.value, fee).value <= amount
            && StakersReward(amount, portion.value, fee).value * vaultBond <= amount * totalBond
  {
    var portion := StakersPortion(totalBond, vaultBond).value;
    var ofStakers := MulDec(amount, portion);
    MulDecAtMost(amount, portion);
    MulDecAtMost(ofStakers, fee);
    RatioBounds(totalBond, vaultBond);
    MulDecBounds(amount, portion);
    MulMono(portion, Ratio(totalBond, vaultBond), vaultBond);
    RateAtMost(amount, totalBond, vaultBond, portion, ofStakers, E);
    var reward := StakersReward(amount, portion, fee).value;
    MulMono(reward, ofStakers, vaultBond);
  }

  /** What a deposit brings the stakers: the part of it that their stake is of the vault's bond,
      all of it when they stake at least as much, less the protocol's fee; each step is rounded
      down once. */
  lemma DepositExact(amount: nat, totalBond: nat, vaultBond: nat, fee: nat) returns (ofStakers: nat)
    requires fee <= E && totalBond > 0 && vaultBond > 0
    ensures StakersPortion(totalBond, vaultBond).Ok?
    ensures var r := StakersReward(amount, StakersPortion(totalBond, vaultBond).value, fee);
            && r.Ok?
            && (totalBond >= vaultBond ==> ofStakers == amount)
            && (totalBond < vaultBond ==>
                  && ofStakers * vaultBond <= amount * totalBond
                  && (amount <= E ==> amount * totalBond < (ofStakers + 2) * vaultBond))
            && (r.value - 1) * E < ofStakers * (E - fee) <= r.value * E
  {
    var portion := StakersPortion(totalBond, vaultBond).value;
    ofStakers := MulDec(amount, portion);
    MulDecAtMost(amount, portion);
    MulDecAtMost(ofStakers, fee);
    RatioBounds(totalBond, vaultBond);
    MulDecBounds(amount, portion);
    MulDecBounds(ofStakers, fee);
    FullPortion(totalBond, vaultBond);
    if totalBond >= vaultBond {
      DivUnique(amount * E, E, amount);
    } else {
      RateAtMost(amount, totalBond, vaultBond, portion, ofStakers, E);
      if amount <= E {
        RateAtLeast(amount, totalBond, vaultBond, portion, ofStakers, E);
      }
    }
    AfterFee(ofStakers, MulDec(ofStakers, fee), fee, E);
  }

  lemma FullPortion(totalBond: nat, vaultBond: nat)
    requires vaultBond > 0
    ensures totalBond >= vaultBond ==> Ratio(totalBond, vaultBond) >= E
    ensures totalBond < vaultBond ==> Ratio(totalBond, vaultBond) < E
  {
    if totalBond >= vaultBond {
      MulMono(vaultBond, totalBond, E);
      DivAtLeast(totalBond * E, vaultBond, E);
    } else {
      MulMono(totalBond + 1, vaultBond, E);
      DivAtLeast(totalBond * E, vaultBond, E);
    }
  }

  lemma AfterFee(gross: nat, taken: nat, fee: nat, e: nat)
    requires e > 0 && fee <= e && taken <= gross
    requires taken * e <= gross * fee < taken * e + e
    ensures (gross - taken - 1) * e < gross * (e - fee) <= (gross - taken) * e
  {
    assert gross * (e - fee) == gross * e - gross * fee;
    assert (gross - taken) * e == gross * e - taken * e;
    assert (gross - taken - 1) * e == gross * e - taken * e - e;
  }

  /** A reward reaches the index of its asset, rounded down once over all stakes, and no other
      index; without a stake nothing is raised. */
  lemma RaiseExact(s: Storage, asset: Asset, reward: nat)
    ensures var s' := RaiseIndex(s, asset, reward);
            var rise := IndexOf(s'.pools, asset) - IndexOf(s.pools, asset);
            && (if s.totalBond == 0 then rise == 0 else rise * s.totalBond <= reward * E < (rise + 1) * s.totalBond)
            && (forall a | a != asset :: IndexOf(s'.pools, a) == IndexOf(s.pools, a))
            && s' == s.(pools := s'.pools)
  {
    if s.totalBond > 0 {
      RatioBounds(reward, s.totalBond);
    }
  }

  // ----- the history of a run -----

  /** each asset's ledger, what was paid of it, and what stakers gained by raising their stake
      while a record of theirs could not be settled */
  datatype Tally = Tally(ledgers: map<Asset, Ledger>, paid: map<Asset, int>, phantom: map<Asset, nat>)

  function LedgerAt(t: Tally, asset: Asset): Ledger {
    if asset in t.ledgers then t.ledgers[asset] else Ledger(0, 0, 0)
  }

  function PaidAt(t: Tally, asset: Asset): int {
    if asset in t.paid then t.paid[asset] else 0
  }

  function PhantomAt(t: Tally, asset: Asset): nat {
    if asset in t.phantom then t.phantom[asset] else 0
  }

  /** the ledger with the gains counted as if they had been deposited */
  function Granted(t: Tally, asset: Asset): Ledger {
    LedgerAt(t, asset).(emitted := LedgerAt(t, asset).emitted + PhantomAt(t, asset))
  }

  // ----- the invariant -----

  ghost function BondPart(bonds: map<Addr, nat>): Addr -> int {
    (a: Addr) => BondAt(bonds, a)
  }

  ghost function BondSum(bonds: map<Addr, nat>): int {
    Sum(bonds.Keys, BondPart(bonds))
  }

  /** one asset's records as stakes: every record counts with its staker's bond */
  ghost function StakesOf(s: Storage, asset: Asset): Stakes<RewardKey> {
    map k | k in s.rewards && k.1 == asset :: Stake(BondAt(s.bonds, k.0), s.rewards[k].index)
  }

  ghost function PendingPart(rewards: Rewards, asset: Asset): RewardKey -> int {
    (k: RewardKey) => if k in rewards && k.1 == asset then rewards[k].pendingReward else 0
  }

  ghost function PendingSum(rewards: Rewards, asset: Asset): int {
    Sum(rewards.Keys, PendingPart(rewards, asset))
  }

  ghost predicate AssetConserved(s: Storage, asset: Asset, l: Ledger) {
    Conserved(StakesOf(s, asset), IndexOf(s.pools, asset), s.totalBond, 0, l)
  }

  /** the law of one reward asset, and where its credits are */
  ghost predicate AssetSound(s: Storage, asset: Asset, t: Tally) {
    && AssetConserved(s, asset, Granted(t, asset))
    && PendingSum(s.rewards, asset) + PaidAt(t, asset) == LedgerAt(t, asset).credited
  }

  /** The total is the sum of the bonds, and only known stakers have records. */
  ghost predicate BondsInv(s: Storage) {
    && s.totalBond == BondSum(s.bonds)
    && (forall k | k in s.rewards :: k.0 in s.bonds)
  }

  ghost predicate Sound(s: Storage, t: Tally) {
    BondsInv(s) && forall asset :: AssetSound(s, asset, t)
  }

  // ----- one settlement -----

  lemma RecordSettles(s: Storage, staker: Addr, asset: Asset, l: Ledger)
    requires AssetConserved(s, asset, l)
    ensures var bond, g := BondAt(s.bonds, staker), IndexOf(s.pools, asset);
            && ComputeAssetRewards(s, staker, bond, asset).Ok?
            && var info, before := ComputeAssetRewards(s, staker, bond, asset).value, PendingAt(s.rewards, staker, asset);
               && info.index == g
               && info.pendingReward == before + Credit(StakeAt(StakesOf(s, asset), (staker, asset), g), g)
  {
    var key: RewardKey := (staker, asset);
    var g := IndexOf(s.pools, asset);
    if key in s.rewards {
      assert StakesOf(s, asset)[key] == Stake(BondAt(s.bonds, staker), s.rewards[key].index);
      hide TotalWeight, TotalPotential;
      CreditNonneg(StakesOf(s, asset)[key], g);
    } else {
      assert key !in StakesOf(s, asset);
      assert MulDec(0, g) == 0;
    }
  }

  function PendingAt(rewards: Rewards, staker: Addr, asset: Asset): nat {
    if (staker, asset) in rewards then rewards[(staker, asset)].pendingReward else 0
  }

  /** the staker's records after all whitelisted assets were settled */
  ghost predicate AllSettled(s: Storage, s': Storage, staker: Addr, assets: seq<Asset>) {
    && (forall k | k in s'.rewards :: k in s.rewards || (k.0 == staker && k.1 in assets))
    && (forall k | k in s.rewards :: k in s'.rewards)
    && (forall k | k in s.rewards && !(k.0 == staker && k.1 in assets) :: s'.rewards[k] == s.rewards[k])
    && (forall a | a in assets ::
          && (staker, a) in s'.rewards
          && ComputeAssetRewards(s, staker, BondAt(s.bonds, staker), a) == Ok(s'.rewards[(staker, a)]))
  }

  /** settling a settled record again changes nothing */
  lemma SettledTwice(s: Storage, s1: Storage, staker: Addr, bond: nat, asset: Asset, other: Asset)
    requires ComputeAssetRewards(s, staker, bond, asset).Ok?
    requires s1 == s.(rewards := s.rewards[(staker, asset) := ComputeAssetRewards(s, staker, bond, asset).value])
    ensures ComputeAssetRewards(s1, staker, bond, other) == ComputeAssetRewards(s, staker, bond, other)
  {
  }

  lemma {:induction false} SettlesAll(s: Storage, staker: Addr, assets: seq<Asset>)
    requires forall a | a in assets :: ComputeAssetRewards(s, staker, BondAt(s.bonds, staker), a).Ok?
    ensures ComputeAllRewards(s, staker, BondAt(s.bonds, staker), assets).Ok?
    ensures var s' := ComputeAllRewards(s, staker, BondAt(s.bonds, staker), assets).value;
            s' == s.(rewards := s'.rewards) && AllSettled(s, s', staker, assets)
    decreases |assets|
  {
    hide ComputeAssetRewards;
    if assets != [] {
      var bond, a := BondAt(s.bonds, staker), assets[0];
      assert assets == [a] + assets[1..];
      var s1 := s.(rewards := s.rewards[(staker, a) := ComputeAssetRewards(s, staker, bond, a).value]);
      forall b ensures ComputeAssetRewards(s1, staker, bond, b) == ComputeAssetRewards(s, staker, bond, b) {
        SettledTwice(s, s1, staker, bond, a, b);
      }
      SettlesAll(s1, staker, assets[1..]);
    }
  }

  // ----- weights -----

  /** the records' weights are different stakers' bonds */
  lemma StakesWithinBonds(s: Storage, asset: Asset)
    requires forall k | k in s.rewards :: k.0 in s.bonds
    ensures TotalWeight(StakesOf(s, asset)) <= BondSum(s.bonds)
  {
    var stakes := StakesOf(s, asset);
    SumInjected(stakes.Keys, s.bonds.Keys, (k: RewardKey) => k.0, WeightOf(stakes), BondPart(s.bonds));
  }

  lemma BondMoved(bonds: map<Addr, nat>, staker: Addr, bond: nat)
    ensures BondSum(bonds[staker := bond]) == BondSum(bonds) - BondAt(bonds, staker) + bond
  {
    var after := bonds[staker := bond];
    SumUpdate(bonds.Keys, after.Keys, staker, BondPart(bonds), BondPart(after));
  }

  lemma PendingMoved(rewards: Rewards, rewards': Rewards, staker: Addr, asset: Asset)
    requires forall k | k in rewards && k != (staker, asset) && k.1 == asset :: k in rewards' && rewards'[k] == rewards[k]
    requires forall k | k in rewards' && k != (staker, asset) && k.1 == asset :: k in rewards
    ensures PendingSum(rewards', asset)
            == PendingSum(rewards, asset) - PendingAt(rewards, staker, asset) + PendingAt(rewards', staker, asset)
  {
    var key: RewardKey := (staker, asset);
    var f, g := PendingPart(rewards, asset), PendingPart(rewards', asset);
    var s, t := rewards.Keys + rewards'.Keys + {key}, rewards.Keys + rewards'.Keys + {key};
    SumExtend(rewards.Keys, s, f);
    SumExtend(rewards'.Keys, t, g);
    SumUpdate(s, t, key, f, g);
  }

  // ----- one staker is settled in one asset and gets a bond -----

  /** the parts of two storages one asset's law depends on */
  ghost predicate AssetTouched(s: Storage, s': Storage, staker: Addr, bond: nat, asset: Asset) {
    && s'.pools == s.pools
    && BondAt(s'.bonds, staker) == bond
    && (forall a | a != staker :: BondAt(s'.bonds, a) == BondAt(s.bonds, a))
    && (staker, asset) in s'.rewards && s'.rewards[(staker, asset)].index == IndexOf(s.pools, asset)
    && (forall k | k in s.rewards && k != (staker, asset) && k.1 == asset ::
          k in s'.rewards && s'.rewards[k] == s.rewards[k])
    && (forall k | k in s'.rewards && k != (staker, asset) && k.1 == asset :: k in s.rewards)
  }

  ghost function TouchedLedger(s: Storage, staker: Addr, bond: nat, asset: Asset, l: Ledger): Ledger {
    var g := IndexOf(s.pools, asset);
    Touched(l, StakeAt(StakesOf(s, asset), (staker, asset), g), bond, g)
  }

  lemma TouchSound(s: Storage, s': Storage, staker: Addr, bond: nat, asset: Asset, l: Ledger)
    requires AssetConserved(s, asset, l) && AssetTouched(s, s', staker, bond, asset)
    requires BondsInv(s')
    ensures AssetConserved(s', asset, TouchedLedger(s, staker, bond, asset, l))
  {
    var g := IndexOf(s.pools, asset);
    StakesTouched(s, s', staker, bond, asset);
    StakesWithinBonds(s', asset);
    hide AssetTouched, StakesOf, Conserved, BondSum, TotalWeight, Touched;
    assert s'.pools == s.pools by { SamePools(s, s', staker, bond, asset); }
    TouchConservesWithin(StakesOf(s, asset), StakesOf(s', asset), g, s.totalBond, s'.totalBond, 0, l, (staker, asset), bond);
  }

  lemma SamePools(s: Storage, s': Storage, staker: Addr, bond: nat, asset: Asset)
    requires AssetTouched(s, s', staker, bond, asset)
    ensures s'.pools == s.pools
  {
  }

  lemma StakesTouched(s: Storage, s': Storage, staker: Addr, bond: nat, asset: Asset)
    requires AssetTouched(s, s', staker, bond, asset)
    ensures StakesOf(s', asset)
            == StakesOf(s, asset)[(staker, asset) := Stake(bond, IndexOf(s.pools, asset))]
  {
    var key: RewardKey := (staker, asset);
    var stakes, stakes' := StakesOf(s, asset), StakesOf(s', asset);
    forall k ensures k in stakes' <==> k in stakes || k == key {
    }
    forall k | k in stakes' ensures stakes'[k] == if k == key then Stake(bond, IndexOf(s.pools, asset)) else stakes[k] {
    }
  }

  // ----- one staker gets a bond while an asset is not settled -----

  /** the gain of a staker whose bond changes while the asset is not on the whitelist */
  function Gain(s: Storage, staker: Addr, bond: nat, asset: Asset): nat {
    if asset in s.whitelist || (staker, asset) !in s.rewards then 0
    else Phantom(Stake(BondAt(s.bonds, staker), s.rewards[(staker, asset)].index), bond, IndexOf(s.pools, asset))
  }

  /** the ledger after that: a change of weight, and no credit */
  function UnlistedLedger(s: Storage, staker: Addr, bond: nat, asset: Asset, l: Ledger): Ledger {
    if (staker, asset) !in s.rewards || bond == BondAt(s.bonds, staker) then l else l.(changes := l.changes + 1)
  }

  /** the asset's records are the same, and only the staker's bond differs */
  ghost predicate AssetUnsettled(s: Storage, s': Storage, staker: Addr, bond: nat, asset: Asset) {
    && s'.pools == s.pools
    && BondAt(s'.bonds, staker) == bond
    && (forall a | a != staker :: BondAt(s'.bonds, a) == BondAt(s.bonds, a))
    && (forall k: RewardKey | k.1 == asset :: k in s'.rewards <==> k in s.rewards)
    && (forall k: RewardKey | k.1 == asset && k in s.rewards :: s'.rewards[k] == s.rewards[k])
  }

  lemma UnsettledStakes(s: Storage, s': Storage, staker: Addr, bond: nat, asset: Asset)
    requires AssetUnsettled(s, s', staker, bond, asset)
    ensures var stakes, key := StakesOf(s, asset), (staker, asset);
            StakesOf(s', asset) == if key in stakes then stakes[key := Stake(bond, stakes[key].index)] else stakes
    ensures (staker, asset) in StakesOf(s, asset) <==> (staker, asset) in s.rewards
    ensures (staker, asset) in s.rewards ==>
              StakesOf(s, asset)[(staker, asset)] == Stake(BondAt(s.bonds, staker), s.rewards[(staker, asset)].index)
  {
    hide BondAt;
    var key: RewardKey := (staker, asset);
    var stakes, stakes' := StakesOf(s, asset), StakesOf(s', asset);
    assert stakes'.Keys == stakes.Keys;
    forall k | k in stakes
      ensures stakes'[k] == if k == key then Stake(bond, stakes[key].index) else stakes[k]
    {
    }
  }

  lemma UnsettledPending(s: Storage, s': Storage, staker: Addr, bond: nat, asset: Asset)
    requires AssetUnsettled(s, s', staker, bond, asset)
    ensures PendingSum(s'.rewards, asset) == PendingSum(s.rewards, asset)
  {
    hide BondAt;
    var all := s.rewards.Keys + s'.rewards.Keys;
    SumExtend(s.rewards.Keys, all, PendingPart(s.rewards, asset));
    SumExtend(s'.rewards.Keys, all, PendingPart(s'.rewards, asset));
    SumCongruent(all, PendingPart(s.rewards, asset), PendingPart(s'.rewards, asset));
  }

  lemma UnsettledSound(s: Storage, s': Storage, staker: Addr, bond: nat, asset: Asset, l: Ledger)
    requires AssetConserved(s, asset, l) && AssetUnsettled(s, s', staker, bond, asset)
    requires asset !in s.whitelist && BondsInv(s')
    ensures var l' := UnlistedLedger(s, staker, bond, asset, l);
            AssetConserved(s', asset, l'.(emitted := l'.emitted + Gain(s, staker, bond, asset)))
  {
    var g := IndexOf(s.pools, asset);
    UnsettledStakes(s, s', staker, bond, asset);
    StakesWithinBonds(s', asset);
    assert s'.pools == s.pools;
    hide AssetUnsettled, StakesOf, Conserved, BondSum, TotalWeight, Phantom, PendingSum;
    if (staker, asset) in s.rewards {
      ReweighedConserves(StakesOf(s, asset), StakesOf(s', asset), g, s.totalBond, s'.totalBond, 0, l, (staker, asset), bond);
    } else {
      TotalChanges(StakesOf(s, asset), g, s.totalBond, s'.totalBond, 0, l);
    }
  }
}
