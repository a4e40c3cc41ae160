/** Why yAsset staking must not raise the stake of a stale record: removals from the whitelist
    let stakers be credited for deposits made before their stake. */
module YassetRemovals {
  import opened Addresses
  import opened Results
  import opened FixedPoint
  import opened RewardIndex
  import opened YassetModel
  import opened YassetRewards
  import opened YassetRuns

  // ----- what a raise of a stake is worth -----

  lemma FloorGain(w: nat, k: nat, i: nat, g: nat, e: nat)
    requires e > 0
    ensures var gain := ((w + k) * g / e - (w + k) * i / e) - (w * g / e - w * i / e);
            k * (g - i) - 2 * e < e * gain < k * (g - i) + 2 * e
  {
    DivBounds((w + k) * g, e);
    DivBounds((w + k) * i, e);
    DivBounds(w * g, e);
    DivBounds(w * i, e);
    assert (w + k) * g == w * g + k * g && (w + k) * i == w * i + k * i;
    assert k * (g - i) == k * g - k * i;
    var a, b, c, d := (w + k) * g / e, (w + k) * i / e, w * g / e, w * i / e;
    assert e * (a - b - (c - d)) == a * e - b * e - (c * e - d * e);
  }

  /** what a staker with a record would be paid */
  lemma PayableIs(s: Storage, staker: Addr, asset: Asset)
    requires (staker, asset) in s.rewards && s.rewards[(staker, asset)].index <= IndexOf(s.pools, asset)
    ensures var bond, info := BondAt(s.bonds, staker), s.rewards[(staker, asset)];
            Payable(s, staker, asset)
            == info.pendingReward + (MulDec(bond, IndexOf(s.pools, asset)) - MulDec(bond, info.index))
  {
    var bond, info := BondAt(s.bonds, staker), s.rewards[(staker, asset)];
    MulMono(info.index, IndexOf(s.pools, asset), bond);
    DivMono(bond * info.index, bond * IndexOf(s.pools, asset), E);
  }

  /** the record of an asset after a stake was raised */
  lemma RaisedRecord(w: World, staker: Addr, amount: nat, asset: Asset)
    requires WorldSound(w)
    ensures Bond(w.store, staker, amount).Ok?
    ensures var s, s' := w.store, Bond(w.store, staker, amount).value;
            asset in s.whitelist ==>
              && (staker, asset) in s'.rewards
              && Ok(s'.rewards[(staker, asset)]) == ComputeAssetRewards(s, staker, BondAt(s.bonds, staker), asset)
  {
    hide ComputeAllRewards, ComputeAssetRewards, AssetSound, BondsInv;
    SettledAll(w.store, w.tally, staker);
  }

  /** Raising a stake changes what is payable of an asset exactly where the record is stale,
      and there by the raise times the index it missed, up to less than two units. */
  lemma RaiseGains(w: World, staker: Addr, amount: nat, asset: Asset)
    requires WorldSound(w)
    ensures Bond(w.store, staker, amount).Ok?
    ensures var s, s' := w.store, Bond(w.store, staker, amount).value;
            var gain := Payable(s', staker, asset) - Payable(s, staker, asset);
            if Stale(s, staker, asset) then
              var exact := amount * (IndexOf(s.pools, asset) - s.rewards[(staker, asset)].index);
              exact - 2 * E < E * gain < exact + 2 * E
            else gain == 0
  {
    hide ComputeAllRewards, AssetSound, BondsInv, ComputeAssetRewards, Bond, MulDec;
    StakeSucceeds(w, staker, amount);
    RaisedRecord(w, staker, amount, asset);
    AllPayable(w.store, w.tally, staker);
    RecordsBehind(w, staker, asset);
    var s, s' := w.store, Bond(w.store, staker, amount).value;
    if asset in s.whitelist {
      ClaimInfo(s, staker, asset);
      PayableIs(s', staker, asset);
    } else if (staker, asset) in s.rewards {
      PayableIs(s, staker, asset);
      PayableIs(s', staker, asset);
      if Stale(s, staker, asset) {
        StaleGain(BondAt(s.bonds, staker), amount, s.rewards[(staker, asset)].index, IndexOf(s.pools, asset));
      }
    } else {
      NothingPayable(s, staker, asset);
      NothingPayable(s', staker, asset);
    }
  }

  lemma StaleGain(w: nat, k: nat, i: nat, g: nat)
    ensures var gain := (MulDec(w + k, g) - MulDec(w + k, i)) - (MulDec(w, g) - MulDec(w, i));
            k * (g - i) - 2 * E < E * gain < k * (g - i) + 2 * E
  {
    FloorGain(w, k, i, g, E);
  }

  lemma NothingPayable(s: Storage, staker: Addr, asset: Asset)
    requires (staker, asset) !in s.rewards
    ensures Payable(s, staker, asset) == 0
  {
  }

  lemma RecordsBehind(w: World, staker: Addr, asset: Asset)
    requires WorldSound(w)
    ensures (staker, asset) in w.store.rewards ==> w.store.rewards[(staker, asset)].index <= IndexOf(w.store.pools, asset)
  {
    hide TotalWeight, TotalPotential, PendingSum, BondsInv;
    assert AssetSound(w.store, asset, w.tally);
    var key: RewardKey := (staker, asset);
    if key in w.store.rewards {
      assert key in StakesOf(w.store, asset);
    }
  }

  // ----- the bound fails after every such raise that is large enough -----

  /** the raise, the return of the asset, and the claim */
  function RaiseAndReturn(staker: Addr, amount: nat, asset: Asset): seq<Op> {
    [Op.Stake(staker, amount), AddAsset(asset), Claim(staker)]
  }

  lemma RunThree(w: World, a: Op, b: Op, c: Op)
    ensures Run(w, [a, b, c]) == Step(Step(Step(w, a), b), c)
  {
    hide Step;
    var none: seq<Op> := [];
    assert [a, b, c][1..] == [b, c] && [b, c][1..] == [c] && [c][1..] == none;
    assert forall v :: Run(v, none) == v;
    assert forall v :: Run(v, [c]) == Run(Step(v, c), none);
    assert forall v :: Run(v, [b, c]) == Run(Step(v, b), [c]);
  }

  /** after the raise */
  lemma RaisedWorld(w: World, staker: Addr, amount: nat, asset: Asset)
    requires WorldSound(w) && Stale(w.store, staker, asset) && amount > 0
    ensures var w' := Step(w, Op.Stake(staker, amount));
            && BondAt(w'.store.bonds, staker) == BondAt(w.store.bonds, staker) + amount
            && staker in w'.store.bonds
            && w'.store.pools == w.store.pools
            && (staker, asset) in w'.store.rewards
            && w'.store.rewards[(staker, asset)] == w.store.rewards[(staker, asset)]
            && LedgerAt(w'.tally, asset) == var l := LedgerAt(w.tally, asset); l.(changes := l.changes + 1)
  {
    hide WorldSound, Bond, RebondTally, LedgerAt, TouchedLedger;
    StakeSucceeds(w, staker, amount);
    RebondTallyAt(w.tally, w.store, staker, BondAt(w.store.bonds, staker) + amount, asset);
  }

  /** what the claim credits */
  lemma ClaimedLedger(w: World, staker: Addr, asset: Asset)
    requires WorldSound(w) && asset in w.store.whitelist && staker in w.store.bonds
    requires (staker, asset) in w.store.rewards
    ensures var l, l' := LedgerAt(w.tally, asset), LedgerAt(Step(w, Claim(staker)).tally, asset);
            var stake := RewardIndex.Stake(BondAt(w.store.bonds, staker), w.store.rewards[(staker, asset)].index);
            l' == l.(credited := l.credited + Credit(stake, IndexOf(w.store.pools, asset)))
  {
    hide ClaimEach, Sound, ComputeAssetRewards, Payable, AllClaimed, Credit;
    AllPayable(w.store, w.tally, staker);
    ClaimsAll(w.store, staker, w.store.whitelist);
    StakeThere(w.store, staker, asset);
  }

  lemma StakeThere(s: Storage, staker: Addr, asset: Asset)
    requires (staker, asset) in s.rewards
    ensures StakeAt(StakesOf(s, asset), (staker, asset), IndexOf(s.pools, asset))
            == RewardIndex.Stake(BondAt(s.bonds, staker), s.rewards[(staker, asset)].index)
  {
    var key: RewardKey := (staker, asset);
    assert key in StakesOf(s, asset);
  }

  lemma CreditAtLeast(w: nat, k: nat, i: nat, g: nat, need: int)
    requires i <= g && k * (g - i) >= E * need
    ensures Credit(RewardIndex.Stake(w + k, i), g) >= need
  {
    var a, b := MulDec(w + k, g), MulDec(w + k, i);
    MulDecBounds(w + k, g);
    MulDecBounds(w + k, i);
    assert (w + k) * g - (w + k) * i == (w + k) * (g - i) == w * (g - i) + k * (g - i);
    MulNonneg(w, g - i);
    AtLeast(a - b, need, E);
  }

  lemma AtLeast(credit: int, need: int, e: int)
    requires e > 0 && credit * e > e * need - e
    ensures credit >= need
  {
    assert e * need - e == (need - 1) * e;
    MulCancelLt(need - 1, credit, e);
  }

  /** In every sound state with a stale record, every raise that is large enough breaks the
      bound once the asset is back: the credits exceed deposits and changes together. */
  lemma StaleRaiseOvercredits(w: World, staker: Addr, amount: nat, asset: Asset)
    requires WorldSound(w) && Stale(w.store, staker, asset) && amount > 0
    requires var l := LedgerAt(w.tally, asset);
             amount * (IndexOf(w.store.pools, asset) - w.store.rewards[(staker, asset)].index)
             >= E * (l.emitted + l.changes + 2 - l.credited)
    ensures var l := LedgerAt(Run(w, RaiseAndReturn(staker, amount, asset)).tally, asset);
            l.credited > l.emitted + l.changes
  {
    hide WorldSound, Step, LedgerAt, Run, Credit;
    var w1 := Step(w, Op.Stake(staker, amount));
    var w2 := Step(w1, AddAsset(asset));
    StepSound(w, Op.Stake(staker, amount));
    StepSound(w1, AddAsset(asset));
    RaisedWorld(w, staker, amount, asset);
    Relisted(w1, asset);
    ClaimedLedger(w2, staker, asset);
    RunThree(w, Op.Stake(staker, amount), AddAsset(asset), Claim(staker));
    var l, info := LedgerAt(w.tally, asset), w.store.rewards[(staker, asset)];
    RecordsBehind(w, staker, asset);
    CreditAtLeast(BondAt(w.store.bonds, staker), amount, info.index, IndexOf(w.store.pools, asset),
                  l.emitted + l.changes + 2 - l.credited);
  }

  lemma Relisted(w: World, asset: Asset)
    ensures var w' := Step(w, AddAsset(asset));
            && asset in w'.store.whitelist && w'.tally == w.tally
            && w'.store == w.store.(whitelist := w'.store.whitelist)
  {
  }

  // ----- a run that gets there -----

  function Begun(): World {
    Start(Storage(0, [3, 4], 0, map[], map[], map[]))
  }

  /** one unit is staked, one unit of the asset deposited, and the asset taken off the list */
  function UntilRemoval(): seq<Op> {
    [Op.Stake(7, 1), Pour(1, [Deposit(3, 1)]), DropAsset(3)]
  }

  function AfterRemoval(): Storage {
    Storage(0, [4], 1, map[3 := E], map[(7, 3) := RewardInfo(0, 0), (7, 4) := RewardInfo(0, 0)], map[7 := 1])
  }

  lemma BegunSound()
    ensures Instantiate(0, 3, 4) == Ok(Begun().store) && WorldSound(Begun())
  {
    hide WorldSound;
    StartSound(0, 3, 4);
  }

  lemma FirstStake()
    ensures Bond(Begun().store, 7, 1)
            == Ok(AfterRemoval().(whitelist := [3, 4], pools := map[]))
  {
    var s := Begun().store;
    var r3: Rewards := map[(7, 3) := RewardInfo(0, 0)];
    assert [3, 4][1..] == [4] && [4][1..] == [];
    assert s.rewards[(7, 3) := RewardInfo(0, 0)] == r3;
    var s1 := s.(rewards := r3);
    assert ComputeAssetRewards(s, 7, 0, 3) == Ok(RewardInfo(0, 0));
    assert ComputeAssetRewards(s1, 7, 0, 4) == Ok(RewardInfo(0, 0));
    var s2 := s1.(rewards := r3[(7, 4) := RewardInfo(0, 0)]);
    assert ComputeAllRewards(s2, 7, 0, []) == Ok(s2);
    assert ComputeAllRewards(s1, 7, 0, [4]) == Ok(s2);
    assert ComputeAllRewards(s, 7, 0, [3, 4]) == Ok(s2);
    assert s.bonds[7 := 1] == map[7 := 1];
    assert s2.rewards == AfterRemoval().rewards;
  }

  lemma FirstPour()
    ensures var s := AfterRemoval().(whitelist := [3, 4], pools := map[]);
            && StakersPortion(1, 1) == Ok(E) && StakersReward(1, E, 0) == Ok(1)
            && DepositRewards(s, 1, [Deposit(3, 1)]).Ok?
            && DepositRewards(s, 1, [Deposit(3, 1)]).value.store == AfterRemoval().(whitelist := [3, 4])
  {
    var s := AfterRemoval().(whitelist := [3, 4], pools := map[]);
    assert Ratio(1, 1) == E && MulDec(1, E) == 1 && MulDec(1, 0) == 0;
    var none: seq<Deposit> := [];
    assert [Deposit(3, 1)][1..] == none;
    assert RaiseIndex(s, 3, 1) == AfterRemoval().(whitelist := [3, 4]);
    assert DepositEach(RaiseIndex(s, 3, 1), E, none).Ok?;
  }

  lemma FirstDrop()
    ensures RemoveAsset(AfterRemoval().(whitelist := [3, 4]), 3) == Ok(AfterRemoval())
  {
    var whitelist := [3, 4];
    assert whitelist[0] == 3;
    assert Position(whitelist, 3) == 0;
    assert whitelist[..0] + whitelist[1..] == [4];
  }

  /** the run until the removal, and the asset's ledger */
  lemma RemovalReached()
    ensures Instantiate(0, 3, 4) == Ok(Begun().store)
    ensures var w := Run(Begun(), UntilRemoval());
            WorldSound(w) && w.store == AfterRemoval() && LedgerAt(w.tally, 3) == Ledger(1, 0, 1)
  {
    BegunSound();
    hide WorldSound, Step, Run, LedgerAt, AfterRemoval;
    RunSound(Begun(), UntilRemoval());
    RunThree(Begun(), Op.Stake(7, 1), Pour(1, [Deposit(3, 1)]), DropAsset(3));
    var w1 := Step(Begun(), Op.Stake(7, 1));
    AfterStake(w1);
    var w2 := Step(w1, Pour(1, [Deposit(3, 1)]));
    AfterPour(w1, w2);
    AfterDrop(w2);
  }

  lemma StakeStep(w: World, staker: Addr, amount: nat, s': Storage)
    requires Bond(w.store, staker, amount) == Ok(s')
    ensures Step(w, Op.Stake(staker, amount)) == World(s', RebondTally(w.tally, w.store, staker, BondAt(s'.bonds, staker)))
  {
    hide Bond, RebondTally, BondAt;
  }

  lemma AfterStake(w: World)
    requires w == Step(Begun(), Op.Stake(7, 1))
    ensures w.store == AfterRemoval().(whitelist := [3, 4], pools := map[]) && LedgerAt(w.tally, 3) == Ledger(0, 0, 1)
  {
    hide *;
    FirstStake();
    StakeStep(Begun(), 7, 1, AfterRemoval().(whitelist := [3, 4], pools := map[]));
    BondAfter();
    RebondTallyAt(Begun().tally, Begun().store, 7, 1, 3);
    FreshCredit();
  }

  lemma BondAfter()
    ensures BondAt(AfterRemoval().bonds, 7) == 1
  {
  }

  lemma FreshCredit()
    ensures 3 in Begun().store.whitelist && LedgerAt(Begun().tally, 3) == Ledger(0, 0, 0)
    ensures TouchedLedger(Begun().store, 7, 1, 3, Ledger(0, 0, 0)) == Ledger(0, 0, 1)
  {
    assert (7, 3) !in StakesOf(Begun().store, 3);
    assert MulDec(0, 0) == 0;
  }

  lemma AfterPour(w: World, w': World)
    requires w.store == AfterRemoval().(whitelist := [3, 4], pools := map[]) && LedgerAt(w.tally, 3) == Ledger(0, 0, 1)
    requires w' == Step(w, Pour(1, [Deposit(3, 1)]))
    ensures w'.store == AfterRemoval().(whitelist := [3, 4]) && LedgerAt(w'.tally, 3) == Ledger(1, 0, 1)
  {
    FirstPour();
    hide DepositEach, StakersReward, StakersPortion, RaiseIndex;
    var none: seq<Deposit> := [];
    assert [Deposit(3, 1)][1..] == none;
  }

  lemma AfterDrop(w: World)
    requires w.store == AfterRemoval().(whitelist := [3, 4])
    ensures Step(w, DropAsset(3)) == w.(store := AfterRemoval())
  {
    FirstDrop();
    hide RemoveAsset, AfterRemoval;
  }

  /** A removal from the whitelist really breaks the bound, in a run from instantiation: one
      unit is deposited, and whoever raises the stake meanwhile is credited for all of it. */
  lemma RemovalOvercredits(amount: nat)
    requires amount >= 4
    ensures Instantiate(0, 3, 4) == Ok(Begun().store)
    ensures var w := Run(Run(Begun(), UntilRemoval()), RaiseAndReturn(7, amount, 3));
            var l := LedgerAt(w.tally, 3);
            l.credited > l.emitted + l.changes
  {
    hide WorldSound, Run, LedgerAt;
    RemovalReached();
    assert amount * (E - 0) >= E * 4 by {
      MulMono(4, amount, E);
    }
    StaleRaiseOvercredits(Run(Begun(), UntilRemoval()), 7, amount, 3);
  }
}
