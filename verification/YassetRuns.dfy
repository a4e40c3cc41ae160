/** Every run of yAsset staking: what was paid from each reward asset stays within what was
    deposited for the stakers, up to one unit per change of a stake, and up to what stakers
    gain by raising a stake while one of their records cannot be settled. */
module YassetRuns {
  import opened Addresses
  import opened Results
  import opened FixedPoint
  import opened Sums
  import opened RewardIndex
  import opened YassetModel
  import opened YassetRewards

  datatype World = World(store: Storage, tally: Tally)

  datatype Op =
    | Stake(staker: Addr, amount: nat)
    | Unstake(staker: Addr, part: Option<nat>)
    | Pour(vaultBond: nat, assets: seq<Deposit>)
    | Claim(staker: Addr)
    | Convert(staker: Addr)
    | AddAsset(asset: Asset)
    | DropAsset(asset: Asset)
    | SetFee(fee: nat)

  // ----- keeping the tally -----

  /** what a staker would be paid of an asset now */
  function Payable(s: Storage, staker: Addr, asset: Asset): nat {
    var info := ComputeAssetRewards(s, staker, BondAt(s.bonds, staker), asset);
    if info.Ok? then info.value.pendingReward else 0
  }

  /** all whitelisted assets of a staker were settled */
  ghost function SettleTally(t: Tally, s: Storage, staker: Addr, bond: nat): Tally {
    var assets := Elements(s.whitelist);
    t.(ledgers := map a | a in t.ledgers.Keys + assets ::
         if a in assets then TouchedLedger(s, staker, bond, a, LedgerAt(t, a)) else LedgerAt(t, a))
  }

  /** the assets a staker has a record of */
  function Recorded(s: Storage, staker: Addr): set<Asset> {
    set k | k in s.rewards.Keys && k.0 == staker :: k.1
  }

  /** a bond changed: the whitelisted assets were settled, the staker's other records not */
  ghost function RebondTally(t: Tally, s: Storage, staker: Addr, bond: nat): Tally {
    var listed, recorded := Elements(s.whitelist), Recorded(s, staker);
    t.(
      ledgers := map a | a in t.ledgers.Keys + listed + recorded ::
        if a in listed then TouchedLedger(s, staker, bond, a, LedgerAt(t, a))
        else UnlistedLedger(s, staker, bond, a, LedgerAt(t, a)),
      phantom := map a | a in t.phantom.Keys + recorded :: PhantomAt(t, a) + Gain(s, staker, bond, a))
  }

  ghost function ClaimTally(t: Tally, s: Storage, staker: Addr): Tally {
    var assets := Elements(s.whitelist);
    SettleTally(t, s, staker, BondAt(s.bonds, staker)).(
      paid := map a | a in t.paid.Keys + assets ::
        PaidAt(t, a) + if a in assets then Payable(s, staker, a) else 0)
  }

  /** only assets with something pending are settled and handed on */
  ghost function ConvertTally(t: Tally, s: Storage, staker: Addr): Tally {
    var assets := set a | a in s.whitelist && Payable(s, staker, a) > 0;
    t.(
      ledgers := map a | a in t.ledgers.Keys + assets ::
        if a in assets then TouchedLedger(s, staker, BondAt(s.bonds, staker), a, LedgerAt(t, a)) else LedgerAt(t, a),
      paid := map a | a in t.paid.Keys + assets :: PaidAt(t, a) + if a in assets then Payable(s, staker, a) else 0)
  }

  ghost function PourTally(t: Tally, s: Storage, portion: nat, assets: seq<Deposit>): Tally
    decreases |assets|
  {
    if assets == [] || s.totalBond == 0 || StakersReward(assets[0].amount, portion, s.protocolFee).Err? then t
    else
      var asset, reward := assets[0].asset, StakersReward(assets[0].amount, portion, s.protocolFee).value;
      var l := LedgerAt(t, asset);
      PourTally(
        t.(ledgers := t.ledgers[asset := l.(emitted := l.emitted + reward)]),
        RaiseIndex(s, asset, reward), portion, assets[1..])
  }

  /** a failing call changes nothing */
  ghost function Step(w: World, op: Op): World {
    var s, t := w.store, w.tally;
    match op
    case Stake(staker, amount) =>
      (match Bond(s, staker, amount)
       case Ok(s') => World(s', RebondTally(t, s, staker, BondAt(s'.bonds, staker)))
       case Err(_) => w)
    case Unstake(staker, part) =>
      (match Unbond(s, staker, part)
       case Ok(s') => World(s', RebondTally(t, s, staker, BondAt(s'.bonds, staker)))
       case Err(_) => w)
    case Pour(vaultBond, assets) =>
      (match DepositRewards(s, vaultBond, assets)
       case Ok(o) => World(o.store, PourTally(t, s, StakersPortion(s.totalBond, vaultBond).value, assets))
       case Err(_) => w)
    case Claim(staker) =>
      (match ClaimRewards(s, staker)
       case Ok(o) => World(o.store, ClaimTally(t, s, staker))
       case Err(_) => w)
    case Convert(staker) =>
      (match ConvertAndClaim(s, staker)
       case Ok(o) => World(o.store, ConvertTally(t, s, staker))
       case Err(_) => w)
    case AddAsset(asset) => w.(store := Whitelist(s, asset))
    case DropAsset(asset) =>
      (match RemoveAsset(s, asset)
       case Ok(s') => w.(store := s')
       case Err(_) => w)
    case SetFee(fee) =>
      (match SetProtocolFee(s, fee)
       case Ok(s') => w.(store := s')
       case Err(_) => w)
  }

  ghost function Run(w: World, ops: seq<Op>): World
    decreases |ops|
  {
    if ops == [] then w else Run(Step(w, ops[0]), ops[1..])
  }

  ghost predicate WorldSound(w: World) {
    Sound(w.store, w.tally)
  }

  // ----- settling all assets -----

  lemma SettledAll(s: Storage, t: Tally, staker: Addr)
    requires Sound(s, t)
    ensures ComputeAllRewards(s, staker, BondAt(s.bonds, staker), s.whitelist).Ok?
    ensures var s' := ComputeAllRewards(s, staker, BondAt(s.bonds, staker), s.whitelist).value;
            s' == s.(rewards := s'.rewards) && AllSettled(s, s', staker, s.whitelist)
  {
    hide AssetConserved, PendingSum, ComputeAssetRewards, ComputeAllRewards, AllSettled;
    forall a | a in s.whitelist ensures ComputeAssetRewards(s, staker, BondAt(s.bonds, staker), a).Ok? {
      assert AssetSound(s, a, t);
      RecordSettles(s, staker, a, Granted(t, a));
    }
    SettlesAll(s, staker, s.whitelist);
  }

  /** the storage after the staker's new bond is stored */
  lemma RebondBonds(s: Storage, s': Storage, staker: Addr, bond: nat)
    requires BondsInv(s)
    requires forall k | k in s'.rewards :: k in s.rewards || (k.0 == staker && k.1 in s.whitelist)
    requires s'.bonds == s.bonds[staker := bond] && s'.whitelist == s.whitelist
    requires s'.totalBond == s.totalBond - BondAt(s.bonds, staker) + bond
    ensures BondsInv(s')
  {
    hide BondSum;
    BondMoved(s.bonds, staker, bond);
  }

  lemma SettledTouches(s: Storage, s1: Storage, s': Storage, staker: Addr, bond: nat, asset: Asset)
    requires AllSettled(s, s1, staker, s.whitelist) && asset in s.whitelist
    requires s'.rewards == s1.rewards && s'.pools == s.pools && s'.bonds == s.bonds[staker := bond]
    ensures AssetTouched(s, s', staker, bond, asset)
    ensures Ok(s'.rewards[(staker, asset)]) == ComputeAssetRewards(s, staker, BondAt(s.bonds, staker), asset)
  {
  }

  lemma UnlistedUntouched(s: Storage, s1: Storage, s': Storage, staker: Addr, bond: nat, asset: Asset)
    requires AllSettled(s, s1, staker, s.whitelist) && asset !in s.whitelist
    requires s'.rewards == s1.rewards && s'.pools == s.pools && s'.bonds == s.bonds[staker := bond]
    ensures AssetUnsettled(s, s', staker, bond, asset)
  {
  }

  /** the tally of a changed bond, asset by asset */
  lemma RebondTallyAt(t: Tally, s: Storage, staker: Addr, bond: nat, asset: Asset)
    ensures var t' := RebondTally(t, s, staker, bond);
            && LedgerAt(t', asset)
               == (if asset in s.whitelist then TouchedLedger(s, staker, bond, asset, LedgerAt(t, asset))
                   else UnlistedLedger(s, staker, bond, asset, LedgerAt(t, asset)))
            && PaidAt(t', asset) == PaidAt(t, asset)
            && PhantomAt(t', asset) == PhantomAt(t, asset) + Gain(s, staker, bond, asset)
            && (asset in s.whitelist ==> Gain(s, staker, bond, asset) == 0)
  {
    hide TouchedLedger, Phantom;
    var key: RewardKey := (staker, asset);
    if key in s.rewards {
      assert key in s.rewards.Keys;
      assert asset in Recorded(s, staker);
    } else if asset in Recorded(s, staker) {
      assert false;
    }
    if asset !in t.ledgers.Keys + Elements(s.whitelist) + Recorded(s, staker) {
      assert asset !in s.whitelist;
    }
  }

  /** granting before or after a settlement is the same */
  lemma GrantedTouched(s: Storage, staker: Addr, bond: nat, asset: Asset, l: Ledger, units: nat)
    ensures TouchedLedger(s, staker, bond, asset, l.(emitted := l.emitted + units))
            == var l' := TouchedLedger(s, staker, bond, asset, l); l'.(emitted := l'.emitted + units)
  {
    hide Credit, StakeAt, StakesOf;
  }

  /** a bond or unbond: every whitelisted asset is settled, and then the bond changes */
  lemma RebondSound(s: Storage, s1: Storage, s': Storage, t: Tally, staker: Addr, bond: nat)
    requires Sound(s, t)
    requires AllSettled(s, s1, staker, s.whitelist) && s1 == s.(rewards := s1.rewards)
    requires s' == s1.(totalBond := s'.totalBond, bonds := s.bonds[staker := bond])
    requires s'.totalBond == s.totalBond - BondAt(s.bonds, staker) + bond
    ensures Sound(s', RebondTally(t, s, staker, bond))
  {
    hide AssetConserved, PendingSum, BondSum, ComputeAssetRewards, AssetTouched, AssetUnsettled, TouchedLedger,
         UnlistedLedger, Gain, RebondTally, LedgerAt, PhantomAt, PaidAt;
    assert forall k | k in s'.rewards :: k in s.rewards || (k.0 == staker && k.1 in s.whitelist);
    RebondBonds(s, s', staker, bond);
    var t' := RebondTally(t, s, staker, bond);
    forall asset ensures AssetSound(s', asset, t') {
      assert AssetSound(s, asset, t);
      RebondTallyAt(t, s, staker, bond, asset);
      if asset in s.whitelist {
        SettledTouches(s, s1, s', staker, bond, asset);
        hide AllSettled;
        ListedSound(s, s', t, t', staker, bond, asset);
      } else {
        UnlistedUntouched(s, s1, s', staker, bond, asset);
        hide AllSettled;
        UnlistedSound(s, s', t, t', staker, bond, asset);
      }
    }
  }

  lemma ListedSound(s: Storage, s': Storage, t: Tally, t': Tally, staker: Addr, bond: nat, asset: Asset)
    requires AssetSound(s, asset, t) && AssetTouched(s, s', staker, bond, asset) && BondsInv(s')
    requires Ok(s'.rewards[(staker, asset)]) == ComputeAssetRewards(s, staker, BondAt(s.bonds, staker), asset)
    requires LedgerAt(t', asset) == TouchedLedger(s, staker, bond, asset, LedgerAt(t, asset))
    requires PaidAt(t', asset) == PaidAt(t, asset) && PhantomAt(t', asset) == PhantomAt(t, asset)
    ensures AssetSound(s', asset, t')
  {
    hide AssetConserved, PendingSum, BondSum, ComputeAssetRewards, TouchedLedger, LedgerAt, PhantomAt, PaidAt;
    TouchSound(s, s', staker, bond, asset, Granted(t, asset));
    TouchedParts(s, s', staker, bond, asset, Granted(t, asset), 0);
    GrantedTouched(s, staker, bond, asset, LedgerAt(t, asset), PhantomAt(t, asset));
  }

  lemma UnlistedSound(s: Storage, s': Storage, t: Tally, t': Tally, staker: Addr, bond: nat, asset: Asset)
    requires AssetSound(s, asset, t) && AssetUnsettled(s, s', staker, bond, asset) && BondsInv(s')
    requires asset !in s.whitelist
    requires LedgerAt(t', asset) == UnlistedLedger(s, staker, bond, asset, LedgerAt(t, asset))
    requires PaidAt(t', asset) == PaidAt(t, asset)
    requires PhantomAt(t', asset) == PhantomAt(t, asset) + Gain(s, staker, bond, asset)
    ensures AssetSound(s', asset, t')
  {
    hide AssetConserved, PendingSum, BondSum, AssetUnsettled, Gain, LedgerAt, PhantomAt, PaidAt;
    UnsettledSound(s, s', staker, bond, asset, Granted(t, asset));
    UnsettledPending(s, s', staker, bond, asset);
  }

  /** what was credited is pending, or was paid just now */
  lemma TouchedParts(s: Storage, s': Storage, staker: Addr, bond: nat, asset: Asset, l: Ledger, paid: int)
    requires AssetConserved(s, asset, l) && AssetTouched(s, s', staker, bond, asset)
    requires PendingAt(s'.rewards, staker, asset) + paid == Payable(s, staker, asset)
    ensures PendingSum(s'.rewards, asset) + paid
            == PendingSum(s.rewards, asset) + TouchedLedger(s, staker, bond, asset, l).credited - l.credited
  {
    hide AssetConserved, PendingSum, ComputeAssetRewards, Credit;
    RecordSettles(s, staker, asset, l);
    PendingMoved(s.rewards, s'.rewards, staker, asset);
  }

  lemma StakeSound(w: World, op: Op)
    requires WorldSound(w) && op.Stake?
    ensures WorldSound(Step(w, op))
  {
    hide Sound, ComputeAllRewards, AllSettled, RebondTally;
    SettledAll(w.store, w.tally, op.staker);
    var s, bond := w.store, BondAt(w.store.bonds, op.staker);
    var s1 := ComputeAllRewards(s, op.staker, bond, s.whitelist).value;
    RebondSound(s, s1, Bond(s, op.staker, op.amount).value, w.tally, op.staker, bond + op.amount);
  }

  lemma UnstakeSound(w: World, op: Op)
    requires WorldSound(w) && op.Unstake?
    ensures WorldSound(Step(w, op))
  {
    hide Sound, ComputeAllRewards, AllSettled, RebondTally;
    SettledAll(w.store, w.tally, op.staker);
    var s, bond := w.store, BondAt(w.store.bonds, op.staker);
    var s1 := ComputeAllRewards(s, op.staker, bond, s.whitelist).value;
    if Unbond(s, op.staker, op.part).Ok? {
      var s' := Unbond(s, op.staker, op.part).value;
      RebondSound(s, s1, s', w.tally, op.staker, BondAt(s'.bonds, op.staker));
    }
  }

  // ----- deposits -----

  lemma PourOne(s: Storage, t: Tally, asset: Asset, reward: nat)
    requires Sound(s, t) && s.totalBond > 0
    ensures var l := LedgerAt(t, asset);
            Sound(RaiseIndex(s, asset, reward), t.(ledgers := t.ledgers[asset := l.(emitted := l.emitted + reward)]))
  {
    hide Conserved, PendingSum, BondSum;
    var l := LedgerAt(t, asset);
    var s' := RaiseIndex(s, asset, reward);
    var t' := t.(ledgers := t.ledgers[asset := l.(emitted := l.emitted + reward)]);
    forall a ensures AssetSound(s', a, t') {
      assert AssetSound(s, a, t);
      assert StakesOf(s', a) == StakesOf(s, a);
      if a == asset {
        DistributeConserves(StakesOf(s, a), IndexOf(s.pools, a), s.totalBond, 0, Granted(t, a), reward);
      }
    }
  }

  lemma NothingRaised(s: Storage, asset: Asset, reward: nat)
    requires s.totalBond == 0
    ensures RaiseIndex(s, asset, reward) == s
  {
  }

  lemma {:induction false} PourEach(s: Storage, t: Tally, portion: nat, assets: seq<Deposit>)
    requires Sound(s, t) && DepositEach(s, portion, assets).Ok?
    ensures Sound(DepositEach(s, portion, assets).value.store, PourTally(t, s, portion, assets))
    decreases |assets|
  {
    hide Sound, StakersReward, RaiseIndex;
    if assets != [] {
      var asset := assets[0].asset;
      var reward := StakersReward(assets[0].amount, portion, s.protocolFee).value;
      if s.totalBond > 0 {
        PourOne(s, t, asset, reward);
        var l := LedgerAt(t, asset);
        PourEach(RaiseIndex(s, asset, reward),
                 t.(ledgers := t.ledgers[asset := l.(emitted := l.emitted + reward)]), portion, assets[1..]);
      } else {
        NothingRaised(s, asset, reward);
        PourEach(s, t, portion, assets[1..]);
        assert PourTally(t, s, portion, assets[1..]) == t;
      }
    }
  }

  /** everything deposited of an asset */
  ghost function DepositedOf(assets: seq<Deposit>, asset: Asset): int {
    if assets == [] then 0 else (if assets[0].asset == asset then assets[0].amount else 0) + DepositedOf(assets[1..], asset)
  }

  /** Of every asset, what is deposited goes to the stakers or is sent on, and the two parts add
      up; only whitelisted assets are taken, and the call stops at the first other one. */
  lemma {:induction false} PourSplits(s: Storage, t: Tally, portion: nat, assets: seq<Deposit>, asset: Asset)
    requires DepositEach(s, portion, assets).Ok? && s.totalBond > 0
    ensures var sent := DepositEach(s, portion, assets).value.sent;
            LedgerAt(PourTally(t, s, portion, assets), asset).emitted - LedgerAt(t, asset).emitted + SentOf(sent, asset)
            == DepositedOf(assets, asset)
    ensures forall i | 0 <= i < |assets| :: assets[i].asset in s.whitelist
    decreases |assets|
  {
    hide StakersReward;
    if assets != [] {
      var a, amount := assets[0].asset, assets[0].amount;
      var reward := StakersReward(amount, portion, s.protocolFee).value;
      var l := LedgerAt(t, a);
      var s1, t1 := RaiseIndex(s, a, reward), t.(ledgers := t.ledgers[a := l.(emitted := l.emitted + reward)]);
      PourSplits(s1, t1, portion, assets[1..], asset);
      var rest := DepositEach(s1, portion, assets[1..]).value.sent;
      assert ([Deposit(a, amount - reward)] + rest)[1..] == rest;
      forall i | 0 <= i < |assets| ensures assets[i].asset in s.whitelist {
        if i > 0 {
          assert assets[1..][i - 1].asset in s1.whitelist;
        }
      }
    }
  }

  /** With nothing staked a deposit is sent on in full, whatever the vault holds, and leaves the
      storage as it is. */
  lemma NobodyStaked(s: Storage, vaultBond: nat, assets: seq<Deposit>, asset: Asset)
    requires s.totalBond == 0 && DepositRewards(s, vaultBond, assets).Ok?
    ensures DepositRewards(s, vaultBond, assets).value.store == s
    ensures SentOf(DepositRewards(s, vaultBond, assets).value.sent, asset) == DepositedOf(assets, asset)
  {
    hide DepositEach, SentOf, DepositedOf;
    AllSentOn(s, assets, asset);
  }

  lemma {:induction false} AllSentOn(s: Storage, assets: seq<Deposit>, asset: Asset)
    requires s.totalBond == 0 && DepositEach(s, 0, assets).Ok?
    ensures DepositEach(s, 0, assets).value.store == s
    ensures SentOf(DepositEach(s, 0, assets).value.sent, asset) == DepositedOf(assets, asset)
    decreases |assets|
  {
    if assets != [] {
      AllSentOn(s, assets[1..], asset);
      assert MulDec(assets[0].amount, 0) == 0 && MulDec(0, s.protocolFee) == 0;
      var rest := DepositEach(s, 0, assets[1..]).value.sent;
      assert ([assets[0]] + rest)[1..] == rest;
    }
  }

  // ----- claiming -----

  ghost function SentOf(sent: seq<Deposit>, asset: Asset): int {
    if sent == [] then 0 else (if sent[0].asset == asset then sent[0].amount else 0) + SentOf(sent[1..], asset)
  }

  /** the staker's records of the given assets are settled with nothing pending */
  ghost predicate AllClaimed(s: Storage, s': Storage, staker: Addr, assets: set<Asset>) {
    && s' == s.(rewards := s'.rewards)
    && (forall k | k in s'.rewards :: k in s.rewards || (k.0 == staker && k.1 in assets))
    && (forall k | k in s.rewards :: k in s'.rewards)
    && (forall k | k in s.rewards && !(k.0 == staker && k.1 in assets) :: s'.rewards[k] == s.rewards[k])
    && (forall a | a in assets ::
          (staker, a) in s'.rewards && s'.rewards[(staker, a)] == RewardInfo(IndexOf(s.pools, a), 0))
  }

  lemma ClaimedOnce(s: Storage, s1: Storage, staker: Addr, asset: Asset, other: Asset)
    requires s1 == s.(rewards := s.rewards[(staker, asset) := RewardInfo(IndexOf(s.pools, asset), 0)])
    requires ComputeAssetRewards(s, staker, BondAt(s.bonds, staker), other).Ok?
    ensures ComputeAssetRewards(s1, staker, BondAt(s.bonds, staker), other).Ok?
    ensures Payable(s1, staker, other) == if other == asset then 0 else Payable(s, staker, other)
  {
  }

  lemma ClaimInfo(s: Storage, staker: Addr, asset: Asset)
    requires ComputeAssetRewards(s, staker, BondAt(s.bonds, staker), asset).Ok?
    ensures ComputeAssetRewards(s, staker, BondAt(s.bonds, staker), asset).value
            == RewardInfo(IndexOf(s.pools, asset), Payable(s, staker, asset))
  {
  }

  /** A claim succeeds, pays of each asset exactly what was payable, once, and leaves nothing
      pending. */
  lemma {:induction false} ClaimsAll(s: Storage, staker: Addr, assets: seq<Asset>)
    requires forall a | a in assets :: ComputeAssetRewards(s, staker, BondAt(s.bonds, staker), a).Ok?
    ensures ClaimEach(s, staker, BondAt(s.bonds, staker), assets).Ok?
    ensures var o := ClaimEach(s, staker, BondAt(s.bonds, staker), assets).value;
            && AllClaimed(s, o.store, staker, Elements(assets))
            && (forall a :: SentOf(o.sent, a) == if a in assets then Payable(s, staker, a) else 0)
    decreases |assets|
  {
    hide ComputeAssetRewards, Payable, AllClaimed;
    var bond := BondAt(s.bonds, staker);
    if assets == [] {
      NothingClaimed(s, staker, Elements(assets));
    } else {
      var a, rest := assets[0], assets[1..];
      assert assets == [a] + rest;
      var s1 := s.(rewards := s.rewards[(staker, a) := RewardInfo(IndexOf(s.pools, a), 0)]);
      ClaimInfo(s, staker, a);
      forall b | b in assets
        ensures ComputeAssetRewards(s1, staker, bond, b).Ok?
        ensures Payable(s1, staker, b) == if b == a then 0 else Payable(s, staker, b)
      {
        ClaimedOnce(s, s1, staker, a, b);
      }
      ClaimsAll(s1, staker, rest);
      var o1 := ClaimEach(s1, staker, bond, rest).value;
      var sent := if Payable(s, staker, a) == 0 then o1.sent else [Deposit(a, Payable(s, staker, a))] + o1.sent;
      assert ClaimEach(s, staker, bond, assets) == Ok(Outcome(o1.store, sent));
      hide ClaimEach;
      OneMoreClaimed(s, s1, o1.store, staker, a, Elements(rest));
      ElementsHead(assets);
      SentHead(a, Payable(s, staker, a), o1.sent);
      hide SentOf;
    }
  }

  lemma NothingClaimed(s: Storage, staker: Addr, assets: set<Asset>)
    requires assets == {}
    ensures AllClaimed(s, s, staker, assets)
  {
  }

  lemma OneMoreClaimed(s: Storage, s1: Storage, s': Storage, staker: Addr, asset: Asset, rest: set<Asset>)
    requires s1 == s.(rewards := s.rewards[(staker, asset) := RewardInfo(IndexOf(s.pools, asset), 0)])
    requires AllClaimed(s1, s', staker, rest)
    ensures AllClaimed(s, s', staker, rest + {asset})
  {
  }

  lemma SentHead(asset: Asset, amount: nat, rest: seq<Deposit>)
    ensures forall a :: SentOf([Deposit(asset, amount)] + rest, a) == (if a == asset then amount else 0) + SentOf(rest, a)
  {
    forall a ensures SentOf([Deposit(asset, amount)] + rest, a) == (if a == asset then amount else 0) + SentOf(rest, a) {
      assert ([Deposit(asset, amount)] + rest)[1..] == rest;
    }
  }

  /** A conversion does the same for the assets with something payable, and leaves the
      records of the others as they are. */
  lemma {:induction false} ConvertsAll(s: Storage, staker: Addr, assets: seq<Asset>)
    requires forall a | a in assets :: ComputeAssetRewards(s, staker, BondAt(s.bonds, staker), a).Ok?
    ensures ConvertEach(s, staker, BondAt(s.bonds, staker), assets).Ok?
    ensures var o := ConvertEach(s, staker, BondAt(s.bonds, staker), assets).value;
            && AllClaimed(s, o.store, staker, set a | a in assets && Payable(s, staker, a) > 0)
            && (forall a :: SentOf(o.sent, a) == if a in assets then Payable(s, staker, a) else 0)
    decreases |assets|
  {
    hide ComputeAssetRewards, Payable, AllClaimed;
    var bond := BondAt(s.bonds, staker);
    if assets == [] {
      NothingClaimed(s, staker, set a | a in assets && Payable(s, staker, a) > 0);
    } else {
      var a, rest := assets[0], assets[1..];
      assert assets == [a] + rest;
      ClaimInfo(s, staker, a);
      if Payable(s, staker, a) == 0 {
        ConvertsAll(s, staker, rest);
        assert (set b | b in assets && Payable(s, staker, b) > 0) == (set b | b in rest && Payable(s, staker, b) > 0);
      } else {
        var s1 := s.(rewards := s.rewards[(staker, a) := RewardInfo(IndexOf(s.pools, a), 0)]);
        forall b | b in assets
          ensures ComputeAssetRewards(s1, staker, bond, b).Ok?
          ensures Payable(s1, staker, b) == if b == a then 0 else Payable(s, staker, b)
        {
          ClaimedOnce(s, s1, staker, a, b);
        }
        ConvertsAll(s1, staker, rest);
        var o1 := ConvertEach(s1, staker, bond, rest).value;
        var due := set b | b in rest && Payable(s1, staker, b) > 0;
        OneMoreClaimed(s, s1, o1.store, staker, a, due);
        assert (set b | b in assets && Payable(s, staker, b) > 0) == due + {a};
        SentHead(a, Payable(s, staker, a), o1.sent);
      }
    }
  }

  lemma ClaimedTouches(s: Storage, s': Storage, staker: Addr, assets: set<Asset>, asset: Asset)
    requires AllClaimed(s, s', staker, assets) && asset in assets
    ensures AssetTouched(s, s', staker, BondAt(s.bonds, staker), asset)
    ensures PendingAt(s'.rewards, staker, asset) == 0
  {
  }

  lemma UnclaimedSame(s: Storage, s': Storage, staker: Addr, assets: set<Asset>, asset: Asset, l: Ledger)
    requires AllClaimed(s, s', staker, assets) && asset !in assets
    requires AssetConserved(s, asset, l)
    ensures AssetConserved(s', asset, l)
    ensures PendingSum(s'.rewards, asset) == PendingSum(s.rewards, asset)
  {
    assert StakesOf(s', asset) == StakesOf(s, asset);
    var all := s.rewards.Keys + s'.rewards.Keys;
    SumExtend(s.rewards.Keys, all, PendingPart(s.rewards, asset));
    SumExtend(s'.rewards.Keys, all, PendingPart(s'.rewards, asset));
    SumCongruent(all, PendingPart(s.rewards, asset), PendingPart(s'.rewards, asset));
  }

  /** paying out settled assets keeps the law of every asset */
  lemma ClaimedSound(s: Storage, s': Storage, t: Tally, t': Tally, staker: Addr, assets: set<Asset>)
    requires Sound(s, t) && staker in s.bonds
    requires AllClaimed(s, s', staker, assets)
    requires forall a :: LedgerAt(t', a) == if a in assets
                           then TouchedLedger(s, staker, BondAt(s.bonds, staker), a, LedgerAt(t, a)) else LedgerAt(t, a)
    requires forall a :: PaidAt(t', a) == PaidAt(t, a) + if a in assets then Payable(s, staker, a) else 0
    requires t'.phantom == t.phantom
    ensures Sound(s', t')
  {
    hide AssetConserved, PendingSum, BondSum, AssetTouched, TouchedLedger, Payable;
    assert BondsInv(s');
    forall asset ensures AssetSound(s', asset, t') {
      assert AssetSound(s, asset, t);
      if asset in assets {
        ClaimedTouches(s, s', staker, assets, asset);
        TouchSound(s, s', staker, BondAt(s.bonds, staker), asset, Granted(t, asset));
        TouchedParts(s, s', staker, BondAt(s.bonds, staker), asset, Granted(t, asset), Payable(s, staker, asset));
        GrantedTouched(s, staker, BondAt(s.bonds, staker), asset, LedgerAt(t, asset), PhantomAt(t, asset));
      } else {
        UnclaimedSame(s, s', staker, assets, asset, Granted(t, asset));
      }
    }
  }

  lemma AllPayable(s: Storage, t: Tally, staker: Addr)
    requires Sound(s, t)
    ensures forall a :: ComputeAssetRewards(s, staker, BondAt(s.bonds, staker), a).Ok?
  {
    hide AssetConserved, PendingSum, ComputeAssetRewards;
    forall a ensures ComputeAssetRewards(s, staker, BondAt(s.bonds, staker), a).Ok? {
      assert AssetSound(s, a, t);
      RecordSettles(s, staker, a, Granted(t, a));
    }
  }

  lemma ClaimSound(w: World, op: Op)
    requires WorldSound(w) && op.Claim?
    ensures WorldSound(Step(w, op))
  {
    hide Sound, ClaimEach, AllClaimed, Payable, TouchedLedger, ComputeAssetRewards;
    var s, t := w.store, w.tally;
    if ClaimRewards(s, op.staker).Ok? {
      AllPayable(s, t, op.staker);
      ClaimsAll(s, op.staker, s.whitelist);
      ClaimedSound(s, ClaimRewards(s, op.staker).value.store, t, ClaimTally(t, s, op.staker), op.staker,
                   Elements(s.whitelist));
    }
  }

  lemma ConvertSound(w: World, op: Op)
    requires WorldSound(w) && op.Convert?
    ensures WorldSound(Step(w, op))
  {
    hide Sound, ConvertEach, AllClaimed, Payable, TouchedLedger, ComputeAssetRewards;
    var s, t := w.store, w.tally;
    if ConvertAndClaim(s, op.staker).Ok? {
      AllPayable(s, t, op.staker);
      ConvertsAll(s, op.staker, s.whitelist);
      ClaimedSound(s, ConvertAndClaim(s, op.staker).value.store, t, ConvertTally(t, s, op.staker), op.staker,
                   set a | a in s.whitelist && Payable(s, op.staker, a) > 0);
    }
  }

  // ----- every run -----

  lemma SettingsSound(w: World, op: Op)
    requires WorldSound(w) && (op.AddAsset? || op.DropAsset? || op.SetFee?)
    ensures WorldSound(Step(w, op))
  {
    hide Conserved, PendingSum, BondSum;
    var s, s' := w.store, Step(w, op).store;
    forall a ensures AssetSound(s', a, w.tally) {
      assert AssetSound(s, a, w.tally);
      assert StakesOf(s', a) == StakesOf(s, a);
    }
  }

  lemma PourSound(w: World, op: Op)
    requires WorldSound(w) && op.Pour?
    ensures WorldSound(Step(w, op))
  {
    hide Sound, DepositEach, PourTally;
    if DepositRewards(w.store, op.vaultBond, op.assets).Ok? {
      PourEach(w.store, w.tally, StakersPortion(w.store.totalBond, op.vaultBond).value, op.assets);
    }
  }

  /** Every transaction keeps the law of every asset. */
  lemma StepSound(w: World, op: Op)
    requires WorldSound(w)
    ensures WorldSound(Step(w, op))
  {
    hide WorldSound, Step;
    match op
    case Stake(_, _) => StakeSound(w, op);
    case Unstake(_, _) => UnstakeSound(w, op);
    case Pour(_, _) => PourSound(w, op);
    case Claim(_) => ClaimSound(w, op);
    case Convert(_) => ConvertSound(w, op);
    case AddAsset(_) => SettingsSound(w, op);
    case DropAsset(_) => SettingsSound(w, op);
    case SetFee(_) => SettingsSound(w, op);
  }

  lemma {:induction false} RunSound(w: World, ops: seq<Op>)
    requires WorldSound(w)
    ensures WorldSound(Run(w, ops))
    decreases |ops|
  {
    hide WorldSound, Step;
    if ops != [] {
      StepSound(w, ops[0]);
      RunSound(Step(w, ops[0]), ops[1..]);
    }
  }

  function Start(s: Storage): World {
    World(s, Tally(map[], map[], map[]))
  }

  lemma StartSound(fee: nat, pluna: Asset, yluna: Asset)
    requires Instantiate(fee, pluna, yluna).Ok?
    ensures WorldSound(Start(Instantiate(fee, pluna, yluna).value))
  {
    var s := Instantiate(fee, pluna, yluna).value;
    var t := Start(s).tally;
    hide Conserved;
    forall a ensures AssetSound(s, a, t) {
      EmptyConserved<RewardKey>(0);
      assert StakesOf(s, a) == map[];
    }
  }

  lemma CreditsAccounted(w: World, asset: Asset)
    requires WorldSound(w)
    ensures var l := LedgerAt(w.tally, asset);
            && PaidAt(w.tally, asset) + PendingSum(w.store.rewards, asset) == l.credited
            && l.credited <= l.emitted + PhantomAt(w.tally, asset) + l.changes
            && (l.changes > 0 ==> l.credited < l.emitted + PhantomAt(w.tally, asset) + l.changes)
  {
    hide BondsInv, StakesOf, Conserved, PendingSum;
    assert AssetSound(w.store, asset, w.tally);
    CreditsBounded(StakesOf(w.store, asset), IndexOf(w.store.pools, asset), w.store.totalBond, 0, Granted(w.tally, asset));
  }

  /** Over every run, whatever assets come and go: the payments of each asset and what is still
      pending are exactly the credits, and the credits exceed what was deposited for the
      stakers by no more than the gains of raised stakes, and less than one unit for each
      change of a stake. */
  lemma CreditsOverRuns(fee: nat, pluna: Asset, yluna: Asset, ops: seq<Op>, asset: Asset)
    requires Instantiate(fee, pluna, yluna).Ok?
    ensures var w := Run(Start(Instantiate(fee, pluna, yluna).value), ops);
            var l := LedgerAt(w.tally, asset);
            && PaidAt(w.tally, asset) + PendingSum(w.store.rewards, asset) == l.credited
            && l.credited <= l.emitted + PhantomAt(w.tally, asset) + l.changes
            && (l.changes > 0 ==> l.credited < l.emitted + PhantomAt(w.tally, asset) + l.changes)
  {
    hide Run, Start, Instantiate, WorldSound, PendingSum;
    StartSound(fee, pluna, yluna);
    RunSound(Start(Instantiate(fee, pluna, yluna).value), ops);
    CreditsAccounted(Run(Start(Instantiate(fee, pluna, yluna).value), ops), asset);
  }

  // ----- when there are gains -----

  /** The staker has a record of the asset that is behind the pool's index, and the asset is
      not on the whitelist, so that no bond settles it. */
  predicate Stale(s: Storage, staker: Addr, asset: Asset) {
    && asset !in s.whitelist
    && (staker, asset) in s.rewards && s.rewards[(staker, asset)].index < IndexOf(s.pools, asset)
  }

  /** the holder of a stale record raises the stake */
  predicate StaleRaise(w: World, op: Op, asset: Asset) {
    op.Stake? && op.amount > 0 && Stale(w.store, op.staker, asset)
  }

  ghost predicate NoStaleRaise(w: World, ops: seq<Op>, asset: Asset)
    decreases |ops|
  {
    ops != [] ==> !StaleRaise(w, ops[0], asset) && NoStaleRaise(Step(w, ops[0]), ops[1..], asset)
  }

  /** exactly a stale raise brings a gain */
  lemma GainIff(w: World, op: Op, asset: Asset)
    requires WorldSound(w)
    ensures PhantomAt(Step(w, op).tally, asset) >= PhantomAt(w.tally, asset)
    ensures PhantomAt(Step(w, op).tally, asset) > PhantomAt(w.tally, asset) <==> StaleRaise(w, op, asset)
  {
    hide WorldSound, ComputeAllRewards, RebondTally, Phantom, DepositEach, PourTally, SettleTally, ClaimEach, ConvertEach,
         TouchedLedger, StakersPortion;
    var s := w.store;
    match op {
      case Stake(staker, amount) =>
        StakeSucceeds(w, staker, amount);
        RebondTallyAt(w.tally, s, staker, BondAt(s.bonds, staker) + amount, asset);
      case Unstake(staker, part) =>
        if Unbond(s, staker, part).Ok? {
          RebondTallyAt(w.tally, s, staker, BondAt(Unbond(s, staker, part).value.bonds, staker), asset);
        }
      case Pour(vaultBond, assets) =>
        if DepositRewards(s, vaultBond, assets).Ok? {
          PourNoGain(w.tally, s, StakersPortion(s.totalBond, vaultBond).value, assets);
        }
      case Claim(staker) => ClaimNoGain(w.tally, s, staker);
      case _ =>
    }
  }

  lemma ClaimNoGain(t: Tally, s: Storage, staker: Addr)
    ensures ClaimTally(t, s, staker).phantom == t.phantom
  {
    hide TouchedLedger, Payable;
  }

  lemma {:induction false} PourNoGain(t: Tally, s: Storage, portion: nat, assets: seq<Deposit>)
    ensures PourTally(t, s, portion, assets).phantom == t.phantom
    decreases |assets|
  {
    hide RaiseIndex, StakersReward;
    if assets != [] && s.totalBond > 0 && StakersReward(assets[0].amount, portion, s.protocolFee).Ok? {
      var asset, reward := assets[0].asset, StakersReward(assets[0].amount, portion, s.protocolFee).value;
      var l := LedgerAt(t, asset);
      PourNoGain(t.(ledgers := t.ledgers[asset := l.(emitted := l.emitted + reward)]),
                 RaiseIndex(s, asset, reward), portion, assets[1..]);
    }
  }

  lemma StakeSucceeds(w: World, staker: Addr, amount: nat)
    requires WorldSound(w)
    ensures Bond(w.store, staker, amount).Ok?
    ensures var s, s' := w.store, Bond(w.store, staker, amount).value;
            && s' == s.(totalBond := s.totalBond + amount, rewards := s'.rewards,
                        bonds := s.bonds[staker := BondAt(s.bonds, staker) + amount])
            && (forall k: RewardKey | k.1 !in s.whitelist ::
                  (k in s'.rewards <==> k in s.rewards) && (k in s.rewards ==> s'.rewards[k] == s.rewards[k]))
  {
    hide ComputeAllRewards, ComputeAssetRewards, AssetSound, BondsInv;
    SettledAll(w.store, w.tally, staker);
  }

  lemma {:induction false} GainsIff(w: World, ops: seq<Op>, asset: Asset)
    requires WorldSound(w)
    ensures PhantomAt(Run(w, ops).tally, asset) >= PhantomAt(w.tally, asset)
    ensures PhantomAt(Run(w, ops).tally, asset) == PhantomAt(w.tally, asset) <==> NoStaleRaise(w, ops, asset)
    decreases |ops|
  {
    hide WorldSound, Step, StaleRaise, PhantomAt;
    if ops != [] {
      GainIff(w, ops[0], asset);
      StepSound(w, ops[0]);
      GainsIff(Step(w, ops[0]), ops[1..], asset);
    }
  }

  /** Over any run in which no holder of a stale record raises a stake, removals from the
      whitelist included, the credits of an asset exceed what was deposited for the stakers by
      less than one unit for each change of a stake. */
  lemma RewardsOverRuns(fee: nat, pluna: Asset, yluna: Asset, ops: seq<Op>, asset: Asset)
    requires Instantiate(fee, pluna, yluna).Ok?
    requires NoStaleRaise(Start(Instantiate(fee, pluna, yluna).value), ops, asset)
    ensures var w := Run(Start(Instantiate(fee, pluna, yluna).value), ops);
            var l := LedgerAt(w.tally, asset);
            && PaidAt(w.tally, asset) + PendingSum(w.store.rewards, asset) == l.credited
            && l.credited <= l.emitted + l.changes
            && (l.changes > 0 ==> l.credited < l.emitted + l.changes)
  {
    var w := Start(Instantiate(fee, pluna, yluna).value);
    assert PhantomAt(w.tally, asset) == 0;
    hide Run, Start, Instantiate, WorldSound, PendingSum, NoStaleRaise, PhantomAt;
    StartSound(fee, pluna, yluna);
    CreditsOverRuns(fee, pluna, yluna, ops, asset);
    GainsIff(w, ops, asset);
  }

  /** In every reachable state nothing can keep a staker from unbonding but asking for more
      than is bonded. */
  lemma UnbondSucceedsIff(fee: nat, pluna: Asset, yluna: Asset, ops: seq<Op>, staker: Addr, part: Option<nat>)
    requires Instantiate(fee, pluna, yluna).Ok?
    ensures var s := Run(Start(Instantiate(fee, pluna, yluna).value), ops).store;
            Unbond(s, staker, part).Ok? <==> staker in s.bonds && (part.Some? ==> part.value <= s.bonds[staker])
  {
    hide Run, Start, Instantiate, WorldSound, Unbond;
    StartSound(fee, pluna, yluna);
    RunSound(Start(Instantiate(fee, pluna, yluna).value), ops);
    SoundUnbonds(Run(Start(Instantiate(fee, pluna, yluna).value), ops), staker, part);
  }

  /** An unbond takes exactly the amount, or all of it, off the staker's bond and the total. */
  lemma UnbondExact(s: Storage, staker: Addr, part: Option<nat>)
    requires Unbond(s, staker, part).Ok?
    ensures var s' := Unbond(s, staker, part).value;
            var unbonded := if part.Some? then part.value else BondAt(s.bonds, staker);
            && s'.totalBond == s.totalBond - unbonded
            && s'.bonds == s.bonds[staker := BondAt(s.bonds, staker) - unbonded]
            && s'.pools == s.pools && s'.whitelist == s.whitelist && s'.protocolFee == s.protocolFee
  {
    SettlesRewardsOnly(s, staker, BondAt(s.bonds, staker), s.whitelist);
    hide ComputeAllRewards;
  }

  lemma {:induction false} SettlesRewardsOnly(s: Storage, staker: Addr, bond: nat, assets: seq<Asset>)
    requires ComputeAllRewards(s, staker, bond, assets).Ok?
    ensures var s' := ComputeAllRewards(s, staker, bond, assets).value; s' == s.(rewards := s'.rewards)
    decreases |assets|
  {
    hide ComputeAssetRewards;
    if assets != [] {
      var info := ComputeAssetRewards(s, staker, bond, assets[0]).value;
      SettlesRewardsOnly(s.(rewards := s.rewards[(staker, assets[0]) := info]), staker, bond, assets[1..]);
    }
  }

  /** Removing an asset succeeds exactly when it is listed, takes one occurrence of it off the
      list, and leaves all others as they are; adding one does the reverse. */
  lemma WhitelistMoves(s: Storage, asset: Asset)
    ensures RemoveAsset(s, asset).Ok? <==> asset in s.whitelist
    ensures RemoveAsset(s, asset).Ok? ==>
              var s' := RemoveAsset(s, asset).value;
              s' == s.(whitelist := s'.whitelist)
              && multiset(s.whitelist) == multiset(s'.whitelist) + multiset{asset}
    ensures Whitelist(s, asset) == s.(whitelist := s.whitelist + [asset])
  {
    if asset in s.whitelist {
      var p := Position(s.whitelist, asset);
      assert s.whitelist == s.whitelist[..p] + [asset] + s.whitelist[p + 1..];
    }
  }

  lemma SoundUnbonds(w: World, staker: Addr, part: Option<nat>)
    requires WorldSound(w)
    ensures Unbond(w.store, staker, part).Ok? <==>
            staker in w.store.bonds && (part.Some? ==> part.value <= w.store.bonds[staker])
  {
    hide ComputeAllRewards, AllSettled, AssetSound;
    SettledAll(w.store, w.tally, staker);
    if staker in w.store.bonds {
      SumAtLeastOne(w.store.bonds.Keys, staker, BondPart(w.store.bonds));
    }
  }
}
