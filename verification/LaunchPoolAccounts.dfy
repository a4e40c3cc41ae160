/** Weights and rewards of the launch pool's accounts: what every settlement keeps. */
module LaunchPoolAccounts {
  import opened Addresses
  import opened Results
  import opened FixedPoint
  import opened Sums
  import opened RewardIndex
  import opened LaunchPoolModel

  ghost function BaseStakes(s: Storage): Stakes<Addr> {
    map a | a in s.rewards :: Stake(Bonded(s, a), s.rewards[a].baseIndex)
  }

  ghost function BoostStakes(s: Storage): Stakes<Addr> {
    map a | a in s.rewards :: Stake(s.rewards[a].boostWeight, s.rewards[a].boostIndex)
  }

  ghost function BondOf(bonds: map<Addr, nat>): Addr -> int {
    a => if a in bonds then bonds[a] else 0
  }

  function PendingReward(s: Storage, a: Addr): nat {
    if a in s.rewards then s.rewards[a].pendingReward else 0
  }

  function BoostWeight(s: Storage, a: Addr): nat {
    if a in s.rewards then s.rewards[a].boostWeight else 0
  }

  /** The pools' total weights are the sums of the accounts' weights; an account without a
      bond has no boost weight, and one with a bond has a reward record. */
  ghost predicate WeightsInv(s: Storage) {
    && s.base.totalWeight == Sum(s.bonds.Keys, BondOf(s.bonds))
    && s.boost.totalWeight == TotalWeight(BoostStakes(s))
    && (forall a | a in s.rewards :: Bonded(s, a) == 0 ==> s.rewards[a].boostWeight == 0)
    && (forall a | a in s.bonds :: s.bonds[a] > 0 ==> a in s.rewards)
    && (forall a | a in s.rewards ::
          s.rewards[a].baseIndex <= s.base.rewardIndex && s.rewards[a].boostIndex <= s.boost.rewardIndex)
  }

  /** the base weight, summed over the reward records, is the pool's total weight */
  lemma BaseWeightIsBonds(s: Storage)
    requires WeightsInv(s)
    ensures TotalWeight(BaseStakes(s)) == s.base.totalWeight
  {
    var keys := s.bonds.Keys + s.rewards.Keys;
    assert BaseStakes(s).Keys == s.rewards.Keys;
    SumExtend(s.bonds.Keys, keys, BondOf(s.bonds));
    SumExtend(s.rewards.Keys, keys, WeightOf(BaseStakes(s)));
    SumCongruent(keys, BondOf(s.bonds), WeightOf(BaseStakes(s)));
  }

  // ----- what settling one account does -----

  /** the account's bond is `bond`, nobody else's record is touched */
  ghost predicate BondSet(s: Storage, s': Storage, a: Addr, bond: nat) {
    || s'.bonds == s.bonds[a := bond]
    || (bond == 0 && s'.bonds == s.bonds - {a})
    || (bond == Bonded(s, a) && s'.bonds == s.bonds)
  }

  /** the account's record is settled at the current indexes, or gone with both weights zero */
  ghost predicate RecordSet(s: Storage, s': Storage, a: Addr, bond: nat, weight: nat) {
    || (bond == 0 && weight == 0 && s'.rewards == s.rewards - {a})
    || (a in s'.rewards
        && s'.rewards[a].baseIndex == s.base.rewardIndex
        && s'.rewards[a].boostIndex == s.boost.rewardIndex
        && s'.rewards[a].boostWeight == weight
        && s'.rewards == s.rewards[a := s'.rewards[a]])
  }

  /** One account is settled and gets new weights; both total weights follow. */
  ghost predicate SettlesAt(s: Storage, s': Storage, a: Addr, bond: nat, weight: nat) {
    && s'.cfg == s.cfg
    && BondSet(s, s', a, bond)
    && RecordSet(s, s', a, bond, weight)
    && s.base.totalWeight + bond >= Bonded(s, a)
    && s.boost.totalWeight + weight >= BoostWeight(s, a)
    && s'.base == s.base.(totalWeight := s.base.totalWeight + bond - Bonded(s, a))
    && s'.boost == s.boost.(totalWeight := s.boost.totalWeight + weight - BoostWeight(s, a))
  }

  /** what a settlement credits from both pools together */
  ghost function Credits(s: Storage, a: Addr): int {
    Credit(StakeAt(BaseStakes(s), a, s.base.rewardIndex), s.base.rewardIndex)
    + Credit(StakeAt(BoostStakes(s), a, s.boost.rewardIndex), s.boost.rewardIndex)
  }

  /** the settlement never underflows, and adds exactly the credits */
  lemma PullCredits(s: Storage, a: Addr)
    requires WeightsInv(s)
    ensures PullPendingRewards(s, a).Ok?
    ensures var info := PullPendingRewards(s, a).value;
            && info.pendingReward == PendingReward(s, a) + Credits(s, a)
            && info.baseIndex == s.base.rewardIndex
            && info.boostIndex == s.boost.rewardIndex
            && info.boostWeight == BoostWeight(s, a)
  {
    CreditNonneg(StakeAt(BaseStakes(s), a, s.base.rewardIndex), s.base.rewardIndex);
    CreditNonneg(StakeAt(BoostStakes(s), a, s.boost.rewardIndex), s.boost.rewardIndex);
    if a !in s.rewards {
      assert Bonded(s, a) == 0;
      assert MulDec(0, s.base.rewardIndex) == 0 && MulDec(0, s.boost.rewardIndex) == 0;
    }
  }

  lemma BoostWithinTotal(s: Storage, a: Addr)
    requires WeightsInv(s)
    ensures BoostWeight(s, a) <= s.boost.totalWeight
  {
    if a in s.rewards {
      SumAtLeastOne(BoostStakes(s).Keys, a, WeightOf(BoostStakes(s)));
    }
  }

  lemma BondWithinTotal(s: Storage, a: Addr)
    requires WeightsInv(s)
    ensures Bonded(s, a) <= s.base.totalWeight
  {
    if a in s.bonds {
      SumAtLeastOne(s.bonds.Keys, a, BondOf(s.bonds));
    }
  }

  lemma NoBondNoBoost(boostAmount: nat)
    ensures BoostFor(0, boostAmount) == 0
  {
  }

  lemma SaveBoostResult(s: Storage, account: Addr, bond: nat, boostAmount: nat, info: RewardInfo)
    requires info.boostWeight <= s.boost.totalWeight
    ensures SaveBoost(s, account, bond, boostAmount, info).Ok?
    ensures var s' := SaveBoost(s, account, bond, boostAmount, info).value;
            var weight := BoostFor(bond, boostAmount);
            s' == s.(
              boost := s.boost.(totalWeight := s.boost.totalWeight - info.boostWeight + weight),
              rewards := if bond == 0 && info.pendingReward == 0 then s.rewards - {account}
                         else s.rewards[account := info.(boostWeight := weight, activeBoost := boostAmount)])
  {
    hide BoostFor;
  }

  /** the storage with an account's new bond and record, once its rewards were pulled */
  ghost function SavedAt(
      s: Storage, a: Addr, bonds: map<Addr, nat>, bond: nat, weight: nat, boostAmount: nat, info: RewardInfo): Storage
    requires s.base.totalWeight + bond >= Bonded(s, a) && info.boostWeight <= s.boost.totalWeight
  {
    s.(
      bonds := bonds,
      base := s.base.(totalWeight := s.base.totalWeight + bond - Bonded(s, a)),
      boost := s.boost.(totalWeight := s.boost.totalWeight - info.boostWeight + weight),
      rewards := if bond == 0 && info.pendingReward == 0 then s.rewards - {a}
                 else s.rewards[a := info.(boostWeight := weight, activeBoost := boostAmount)])
  }

  lemma SavedSettles(
      s: Storage, a: Addr, bonds: map<Addr, nat>, bond: nat, weight: nat, boostAmount: nat, info: RewardInfo)
    requires s.base.totalWeight + bond >= Bonded(s, a) && info.boostWeight <= s.boost.totalWeight
    requires info.boostWeight == BoostWeight(s, a)
    requires info.baseIndex == s.base.rewardIndex && info.boostIndex == s.boost.rewardIndex
    requires bond == 0 ==> weight == 0
    requires BondSet(s, s.(bonds := bonds), a, bond)
    ensures var s' := SavedAt(s, a, bonds, bond, weight, boostAmount, info);
            && SettlesAt(s, s', a, bond, weight)
            && PendingReward(s', a) == info.pendingReward
            && s'.vests == s.vests && s'.pendingWithdraw == s.pendingWithdraw
  {
  }

  lemma BondForm(s: Storage, sender: Addr, amount: nat, boostAmount: nat, info: RewardInfo)
    requires PullPendingRewards(s, sender) == Ok(info)
    requires info.boostWeight <= s.boost.totalWeight
    ensures var bond := Bonded(s, sender) + amount;
            BondCore(s, sender, amount, boostAmount)
            == Ok(SavedAt(s, sender, s.bonds[sender := bond], bond, BoostFor(bond, boostAmount), boostAmount, info))
  {
    hide PullPendingRewards, BoostFor, SaveBoost;
    var bond := Bonded(s, sender) + amount;
    var m := s.(bonds := s.bonds[sender := bond], base := s.base.(totalWeight := s.base.totalWeight + amount));
    SaveBoostResult(m, sender, bond, boostAmount, info);
  }

  /** a bond always settles, and raises the account's base weight by the amount */
  lemma BondSettles(s: Storage, sender: Addr, amount: nat, boostAmount: nat)
    requires WeightsInv(s)
    ensures BondCore(s, sender, amount, boostAmount).Ok?
    ensures var s' := BondCore(s, sender, amount, boostAmount).value;
            var bond := Bonded(s, sender) + amount;
            && SettlesAt(s, s', sender, bond, BoostFor(bond, boostAmount))
            && PendingReward(s', sender) == PendingReward(s, sender) + Credits(s, sender)
            && s'.vests == s.vests && s'.pendingWithdraw == s.pendingWithdraw
  {
    hide PullPendingRewards, WeightsInv, Credits, BoostFor, SettlesAt, PendingReward, BondCore, SavedAt;
    PullCredits(s, sender);
    BoostWithinTotal(s, sender);
    NoBondNoBoost(boostAmount);
    var info, bond := PullPendingRewards(s, sender).value, Bonded(s, sender) + amount;
    BondForm(s, sender, amount, boostAmount, info);
    SavedSettles(s, sender, s.bonds[sender := bond], bond, BoostFor(bond, boostAmount), boostAmount, info);
  }

  function Unbonded(s: Storage, sender: Addr, amount: Option<nat>): nat {
    if amount.Some? then amount.value else Bonded(s, sender)
  }

  predicate UnbondAllowed(s: Storage, sender: Addr, amount: Option<nat>) {
    && sender in s.bonds
    && Unbonded(s, sender, amount) <= s.bonds[sender]
    && (s.bonds[sender] == Unbonded(s, sender, amount)
        || s.bonds[sender] - Unbonded(s, sender, amount) >= s.cfg.minBondAmount)
  }

  lemma UnbondForm(s: Storage, sender: Addr, amount: Option<nat>, boostAmount: nat, info: RewardInfo)
    requires PullPendingRewards(s, sender) == Ok(info)
    requires info.boostWeight <= s.boost.totalWeight && Bonded(s, sender) <= s.base.totalWeight
    ensures UnbondCore(s, sender, amount, boostAmount).Ok? <==> UnbondAllowed(s, sender, amount)
    ensures UnbondAllowed(s, sender, amount) ==>
              var bond := Bonded(s, sender) - Unbonded(s, sender, amount);
              var bonds := if bond == 0 then s.bonds - {sender} else s.bonds[sender := bond];
              UnbondCore(s, sender, amount, boostAmount)
              == Ok(SavedAt(s, sender, bonds, bond, BoostFor(bond, boostAmount), boostAmount, info))
  {
    hide PullPendingRewards, BoostFor, SaveBoost;
    if UnbondAllowed(s, sender, amount) {
      var unbonded := Unbonded(s, sender, amount);
      var bond := s.bonds[sender] - unbonded;
      var m := s.(
        base := s.base.(totalWeight := s.base.totalWeight - unbonded),
        bonds := if bond == 0 then s.bonds - {sender} else s.bonds[sender := bond]);
      SaveBoostResult(m, sender, bond, boostAmount, info);
    }
  }

  /** An unbond settles exactly when the account has a bond record covering the amount and
      what stays is nothing or at least the minimum. */
  lemma UnbondSettles(s: Storage, sender: Addr, amount: Option<nat>, boostAmount: nat)
    requires WeightsInv(s)
    ensures UnbondCore(s, sender, amount, boostAmount).Ok? <==> UnbondAllowed(s, sender, amount)
    ensures UnbondAllowed(s, sender, amount) ==>
              var s' := UnbondCore(s, sender, amount, boostAmount).value;
              var bond := Bonded(s, sender) - Unbonded(s, sender, amount);
              && SettlesAt(s, s', sender, bond, BoostFor(bond, boostAmount))
              && PendingReward(s', sender) == PendingReward(s, sender) + Credits(s, sender)
              && s'.vests == s.vests && s'.pendingWithdraw == s.pendingWithdraw
  {
    hide PullPendingRewards, WeightsInv, Credits, BoostFor, SettlesAt, PendingReward, UnbondCore, SavedAt;
    PullCredits(s, sender);
    BoostWithinTotal(s, sender);
    BondWithinTotal(s, sender);
    NoBondNoBoost(boostAmount);
    var info := PullPendingRewards(s, sender).value;
    UnbondForm(s, sender, amount, boostAmount, info);
    if UnbondAllowed(s, sender, amount) {
      var bond := Bonded(s, sender) - Unbonded(s, sender, amount);
      var bonds := if bond == 0 then s.bonds - {sender} else s.bonds[sender := bond];
      SavedSettles(s, sender, bonds, bond, BoostFor(bond, boostAmount), boostAmount, info);
    }
  }

  /** refreshing the boost changes the boost weight only */
  lemma RefreshSettles(s: Storage, account: Addr, boostAmount: nat)
    requires WeightsInv(s)
    ensures RefreshCore(s, account, boostAmount).Ok?
    ensures var s' := RefreshCore(s, account, boostAmount).value;
            && SettlesAt(s, s', account, Bonded(s, account), BoostFor(Bonded(s, account), boostAmount))
            && PendingReward(s', account) == PendingReward(s, account) + Credits(s, account)
            && s'.vests == s.vests && s'.pendingWithdraw == s.pendingWithdraw
  {
    hide PullPendingRewards, WeightsInv, Credits, BoostFor, SaveBoost, SettlesAt, PendingReward;
    PullCredits(s, account);
    BoostWithinTotal(s, account);
    NoBondNoBoost(boostAmount);
    var info, bond := PullPendingRewards(s, account).value, Bonded(s, account);
    SaveBoostResult(s, account, bond, boostAmount, info);
    SavedSettles(s, account, s.bonds, bond, BoostFor(bond, boostAmount), boostAmount, info);
  }

  // ----- every settlement keeps the weights and the conservation law -----

  lemma SettlesKeepsWeights(s: Storage, s': Storage, a: Addr, bond: nat, weight: nat)
    requires WeightsInv(s) && SettlesAt(s, s', a, bond, weight)
    requires bond == 0 ==> weight == 0
    ensures WeightsInv(s')
  {
    BondTotal(s, s', a, bond);
    BoostTotal(s, s', a, bond, weight);
    SettlesRecords(s, s', a, bond, weight);
    hide TotalWeight, BondOf, BondSet, RecordSet, Bonded;
  }

  /** the parts of the invariant about single records */
  lemma SettlesRecords(s: Storage, s': Storage, a: Addr, bond: nat, weight: nat)
    requires WeightsInv(s) && SettlesAt(s, s', a, bond, weight)
    requires bond == 0 ==> weight == 0
    ensures forall b | b in s'.rewards :: Bonded(s', b) == 0 ==> s'.rewards[b].boostWeight == 0
    ensures forall b | b in s'.bonds :: s'.bonds[b] > 0 ==> b in s'.rewards
    ensures forall b | b in s'.rewards ::
              s'.rewards[b].baseIndex <= s'.base.rewardIndex && s'.rewards[b].boostIndex <= s'.boost.rewardIndex
  {
    BondRead(s, s', a, bond);
    hide TotalWeight, BondOf, BondSet;
  }

  lemma BondRead(s: Storage, s': Storage, a: Addr, bond: nat)
    requires BondSet(s, s', a, bond)
    ensures Bonded(s', a) == bond
    ensures forall b | b != a :: Bonded(s', b) == Bonded(s, b)
    ensures forall b | b in s'.bonds :: s'.bonds[b] == Bonded(s', b)
    ensures forall b | b in s.bonds :: s.bonds[b] == Bonded(s, b)
    ensures forall b | b in s'.bonds && b != a :: b in s.bonds
  {
  }

  lemma BondTotal(s: Storage, s': Storage, a: Addr, bond: nat)
    requires BondSet(s, s', a, bond)
    ensures Sum(s'.bonds.Keys, BondOf(s'.bonds)) == Sum(s.bonds.Keys, BondOf(s.bonds)) + bond - Bonded(s, a)
  {
    SumUpdate(s.bonds.Keys, s'.bonds.Keys, a, BondOf(s.bonds), BondOf(s'.bonds));
  }

  lemma BoostTotal(s: Storage, s': Storage, a: Addr, bond: nat, weight: nat)
    requires RecordSet(s, s', a, bond, weight)
    ensures TotalWeight(BoostStakes(s')) == TotalWeight(BoostStakes(s)) + weight - BoostWeight(s, a)
  {
    SumUpdate(BoostStakes(s).Keys, BoostStakes(s').Keys, a, WeightOf(BoostStakes(s)), WeightOf(BoostStakes(s')));
  }

  lemma SettledStakes(s: Storage, s': Storage, a: Addr, bond: nat, weight: nat)
    requires SettlesAt(s, s', a, bond, weight)
    ensures BaseStakes(s') == BaseStakes(s)[a := Stake(bond, s.base.rewardIndex)]
            || (bond == 0 && BaseStakes(s') == BaseStakes(s) - {a})
    ensures BoostStakes(s') == BoostStakes(s)[a := Stake(weight, s.boost.rewardIndex)]
            || (weight == 0 && BoostStakes(s') == BoostStakes(s) - {a})
  {
    BondRead(s, s', a, bond);
    hide BondSet;
    if bond == 0 && weight == 0 && s'.rewards == s.rewards - {a} {
      assert BaseStakes(s') == BaseStakes(s) - {a};
      assert BoostStakes(s') == BoostStakes(s) - {a};
    } else {
      assert BaseStakes(s') == BaseStakes(s)[a := Stake(bond, s.base.rewardIndex)];
      assert BoostStakes(s') == BoostStakes(s)[a := Stake(weight, s.boost.rewardIndex)];
    }
  }

  /** credits and emission of both pools */
  datatype Ledgers = Ledgers(base: Ledger, boost: Ledger)

  ghost predicate BothConserved(s: Storage, l: Ledgers) {
    && Conserved(BaseStakes(s), s.base.rewardIndex, s.base.totalWeight, s.base.pendingReward, l.base)
    && Conserved(BoostStakes(s), s.boost.rewardIndex, s.boost.totalWeight, s.boost.pendingReward, l.boost)
  }

  /** both ledgers after an account is settled and given new weights */
  ghost function SettledLedgers(s: Storage, l: Ledgers, a: Addr, bond: nat, weight: nat): Ledgers {
    Ledgers(
      Touched(l.base, StakeAt(BaseStakes(s), a, s.base.rewardIndex), bond, s.base.rewardIndex),
      Touched(l.boost, StakeAt(BoostStakes(s), a, s.boost.rewardIndex), weight, s.boost.rewardIndex))
  }

  lemma SettlesConserves(s: Storage, s': Storage, a: Addr, bond: nat, weight: nat, l: Ledgers)
    requires WeightsInv(s) && BothConserved(s, l) && SettlesAt(s, s', a, bond, weight)
    ensures BothConserved(s', SettledLedgers(s, l, a, bond, weight))
    ensures var l' := SettledLedgers(s, l, a, bond, weight);
            l'.base.credited + l'.boost.credited == l.base.credited + l.boost.credited + Credits(s, a)
  {
    SettledStakes(s, s', a, bond, weight);
    assert a !in s.rewards ==> Bonded(s, a) == 0;
    TouchConserves(BaseStakes(s), BaseStakes(s'), s.base.rewardIndex, s.base.totalWeight, s'.base.totalWeight,
                   s.base.pendingReward, l.base, a, bond);
    TouchConserves(BoostStakes(s), BoostStakes(s'), s.boost.rewardIndex, s.boost.totalWeight, s'.boost.totalWeight,
                   s.boost.pendingReward, l.boost, a, weight);
  }

  // ----- an index update keeps both -----

  lemma IndexKeepsStakes(s: Storage, now: nat)
    requires UpdateRewardIndexes(s, now).Ok?
    ensures var s' := UpdateRewardIndexes(s, now).value;
            && BaseStakes(s') == BaseStakes(s) && BoostStakes(s') == BoostStakes(s)
            && s'.base.rewardIndex >= s.base.rewardIndex && s'.boost.rewardIndex >= s.boost.rewardIndex
            && s'.base.totalWeight == s.base.totalWeight && s'.boost.totalWeight == s.boost.totalWeight
  {
  }

  lemma IndexKeepsWeights(s: Storage, now: nat)
    requires WeightsInv(s) && UpdateRewardIndexes(s, now).Ok?
    ensures WeightsInv(UpdateRewardIndexes(s, now).value)
  {
    IndexKeepsStakes(s, now);
    var s' := UpdateRewardIndexes(s, now).value;
    hide UpdateRewardIndexes, TotalWeight;
    assert forall a :: Bonded(s', a) == Bonded(s, a);
  }

  lemma UpdateConserves<K>(
      stakes: Stakes<K>, now: nat, st: DistributionStatus, schedule: Schedule, ratio: nat, l: Ledger)
    requires UpdateRewardIndex(now, st, schedule, ratio).Ok?
    requires Conserved(stakes, st.rewardIndex, st.totalWeight, st.pendingReward, l)
    ensures var st' := UpdateRewardIndex(now, st, schedule, ratio).value;
            && st'.totalDistributed >= st.totalDistributed
            && Conserved(stakes, st'.rewardIndex, st'.totalWeight, st'.pendingReward,
                         l.(emitted := l.emitted + (st'.totalDistributed - st.totalDistributed)))
  {
    hide Conserved;
    var st' := UpdateRewardIndex(now, st, schedule, ratio).value;
    if now >= schedule.start {
      var here := st'.totalDistributed - st.totalDistributed;
      if st.totalWeight == 0 {
        WaitConserves(stakes, st.rewardIndex, st.totalWeight, st.pendingReward, l, here);
      } else {
        DistributeConserves(stakes, st.rewardIndex, st.totalWeight, st.pendingReward, l, here);
      }
    }
  }

  ghost function EmittedLedgers(s: Storage, s': Storage, l: Ledgers): Ledgers {
    Ledgers(
      l.base.(emitted := l.base.emitted + (s'.base.totalDistributed - s.base.totalDistributed)),
      l.boost.(emitted := l.boost.emitted + (s'.boost.totalDistributed - s.boost.totalDistributed)))
  }

  /** Bonding, unbonding and refreshing leave the account with the boost weight that is the
      geometric mean of its bond and its boost, rounded down. */
  lemma BoostIsMean(s: Storage, s': Storage, a: Addr, amount: nat, part: Option<nat>, boostAmount: nat)
    requires WeightsInv(s)
    requires || BondCore(s, a, amount, boostAmount) == Ok(s')
             || UnbondCore(s, a, part, boostAmount) == Ok(s')
             || RefreshCore(s, a, boostAmount) == Ok(s')
    ensures Mean(s', a, boostAmount)
  {
    hide *;
    if BondCore(s, a, amount, boostAmount) == Ok(s') {
      BondSettles(s, a, amount, boostAmount);
      SettledMean(s, s', a, Bonded(s, a) + amount, boostAmount);
    } else if RefreshCore(s, a, boostAmount) == Ok(s') {
      RefreshSettles(s, a, boostAmount);
      SettledMean(s, s', a, Bonded(s, a), boostAmount);
    } else {
      UnbondSettles(s, a, part, boostAmount);
      BondLeft(s, a, part);
      SettledMean(s, s', a, Bonded(s, a) - Unbonded(s, a, part), boostAmount);
    }
  }

  lemma BondLeft(s: Storage, a: Addr, part: Option<nat>)
    requires UnbondAllowed(s, a, part)
    ensures Unbonded(s, a, part) <= Bonded(s, a)
  {
  }

  predicate Mean(s: Storage, a: Addr, boostAmount: nat) {
    var weight := BoostWeight(s, a);
    weight * weight <= Bonded(s, a) * boostAmount < (weight + 1) * (weight + 1)
  }

  lemma SettledMean(s: Storage, s': Storage, a: Addr, bond: nat, boostAmount: nat)
    requires SettlesAt(s, s', a, bond, BoostFor(bond, boostAmount))
    ensures Mean(s', a, boostAmount)
  {
    hide ISqrt;
    MulNonneg(bond, boostAmount);
  }

  lemma IndexConserves(s: Storage, now: nat, l: Ledgers)
    requires BothConserved(s, l) && UpdateRewardIndexes(s, now).Ok?
    ensures var s' := UpdateRewardIndexes(s, now).value;
            BothConserved(s', EmittedLedgers(s, s', l))
  {
    IndexKeepsStakes(s, now);
    UpdateConserves(BaseStakes(s), now, s.base, s.cfg.schedule, s.cfg.basePoolRatio, l.base);
    UpdateConserves(BoostStakes(s), now, s.boost, s.cfg.schedule, E - s.cfg.basePoolRatio, l.boost);
  }
}
