/** Every run of the launch pool: emission, credits, vesting and payouts together. */
module LaunchPoolRuns {
  import opened Addresses
  import opened Results
  import opened Sums
  import opened RewardIndex
  import opened LaunchPoolModel
  import opened LaunchPoolAccounts
  import opened LaunchPoolEmission
  import opened LaunchPoolVesting

  /** the history of a run: emission and credits of both pools, what each account was
      credited and paid, and everything ever put on the vesting schedule */
  datatype Tally = Tally(
    ledgers: Ledgers,
    credited: map<Addr, int>,
    scheduled: Vests,
    claimed: map<Addr, int>)

  function At(m: map<Addr, int>, a: Addr): int {
    if a in m then m[a] else 0
  }

  datatype Op =
    | Bond(sender: Addr, amount: nat, boost: nat)
    | Unbond(sender: Addr, part: Option<nat>, boost: nat)
    | ActivateBoost(sender: Addr, boost: nat)
    | PrivilegedRefresh(caller: Addr, account: Addr, boost: nat)
    | Withdraw(sender: Addr)
    | WithdrawBulk(caller: Addr, limit: nat, startAfter: Option<Addr>)
    | Claim(sender: Addr)
    | UpdateConfig(caller: Addr, minBond: Option<nat>, ratio: Option<nat>)

  function Apply(s: Storage, now: nat, op: Op): Result<Storage, Error> {
    match op
    case Bond(sender, amount, boost) => LaunchPoolModel.Bond(s, now, sender, amount, boost)
    case Unbond(sender, part, boost) => LaunchPoolModel.Unbond(s, now, sender, part, boost)
    case ActivateBoost(sender, boost) => LaunchPoolModel.ActivateBoost(s, now, sender, boost)
    case PrivilegedRefresh(caller, account, boost) => PrivilegedRefreshBoost(s, now, caller, account, boost)
    case Withdraw(sender) => WithdrawRewards(s, now, sender)
    case WithdrawBulk(caller, limit, startAfter) =>
      var o :- WithdrawRewardsBulk(s, now, caller, limit, startAfter);
      Ok(o.store)
    case Claim(sender) =>
      var o :- ClaimWithdrawnRewards(s, now, sender);
      Ok(o.store)
    case UpdateConfig(caller, minBond, ratio) => LaunchPoolModel.UpdateConfig(s, now, caller, minBond, ratio)
  }

  // ----- keeping the tally -----

  /** both indexes were brought up to date */
  ghost function Emit(t: Tally, s: Storage, s': Storage): Tally {
    t.(ledgers := EmittedLedgers(s, s', t.ledgers))
  }

  /** one account was settled and has new weights */
  ghost function Settle(t: Tally, s: Storage, s': Storage, a: Addr): Tally {
    t.(
      ledgers := SettledLedgers(s, t.ledgers, a, Bonded(s', a), BoostWeight(s', a)),
      credited := t.credited[a := At(t.credited, a) + Credits(s, a)])
  }

  /** its rewards were put on the vesting schedule */
  ghost function Vest(t: Tally, s: Storage, now: nat, a: Addr): Tally {
    var key: Key := (a, VestEnd(s.cfg, now));
    t.(scheduled := t.scheduled[key := VestAt(t.scheduled, key) + Withdrawn(s, a)])
  }

  ghost function VestEach(t: Tally, s: Storage, now: nat, accounts: seq<Addr>): Tally
    decreases |accounts|
  {
    if accounts == [] || WithdrawSingle(s, now, accounts[0]).Err? then t
    else
      var s' := WithdrawSingle(s, now, accounts[0]).value;
      VestEach(Vest(Settle(t, s, s', accounts[0]), s, now, accounts[0]), s', now, accounts[1..])
  }

  ghost function Pay(t: Tally, a: Addr, paid: int): Tally {
    t.(claimed := t.claimed[a := At(t.claimed, a) + paid])
  }

  /** the tally after a successful call that led from `s` to `s'` */
  ghost function Recorded(t: Tally, s: Storage, now: nat, op: Op, s': Storage): Tally {
    if op.Claim? then
      var r := ClaimWithdrawnRewards(s, now, op.sender);
      Pay(t, op.sender, if r.Ok? then r.value.paid else 0)
    else if op.UpdateConfig? && op.ratio.None? then t
    else
      var updated := UpdateRewardIndexes(s, now);
      var s1 := if updated.Ok? then updated.value else s;
      var t1 := Emit(t, s, s1);
      match op
      case Bond(sender, _, _) => Settle(t1, s1, s', sender)
      case Unbond(sender, _, _) => Settle(t1, s1, s', sender)
      case ActivateBoost(sender, _) => Settle(t1, s1, s', sender)
      case PrivilegedRefresh(_, account, _) => Settle(t1, s1, s', account)
      case Withdraw(sender) => Vest(Settle(t1, s1, s', sender), s1, now, sender)
      case WithdrawBulk(_, limit, startAfter) =>
        VestEach(t1, s1, now, PagedAccounts(s1.rewards, limit, startAfter))
      case UpdateConfig(_, _, _) => t1
  }

  // ----- runs -----

  datatype World = World(store: Storage, now: nat, tally: Tally)

  /** a failing transaction changes nothing but the time */
  ghost function Step(w: World, now: nat, op: Op): World {
    match Apply(w.store, now, op)
    case Ok(s') => World(s', now, Recorded(w.tally, w.store, now, op, s'))
    case Err(_) => w.(now := now)
  }

  datatype Tx = Tx(now: nat, op: Op)

  ghost function Run(w: World, txs: seq<Tx>): World
    decreases |txs|
  {
    if txs == [] then w else Run(Step(w, txs[0].now, txs[0].op), txs[1..])
  }

  // ----- the invariant -----

  ghost function Emitted(t: Tally): int {
    t.ledgers.base.emitted + t.ledgers.boost.emitted
  }

  ghost function CreditedTotal(t: Tally): int {
    Sum(t.credited.Keys, (a: Addr) => At(t.credited, a))
  }

  /** what has been emitted and what the schedule still holds make up the original amount */
  ghost predicate EmissionBooks(s: Storage, t: Tally, original: nat) {
    Emitted(t) + s.cfg.schedule.amount == original + s.base.totalDistributed + s.boost.totalDistributed
  }

  /** an account's credits are pending or were scheduled; what was scheduled is vesting,
      waiting to be claimed, or was claimed */
  ghost predicate Booked(s: Storage, t: Tally, a: Addr) {
    && At(t.credited, a) == PendingReward(s, a) + VestSum(t.scheduled, a)
    && VestSum(t.scheduled, a) == VestSum(s.vests, a) + PendingOf(s, a) + At(t.claimed, a)
  }

  ghost predicate CreditBooks(t: Tally) {
    CreditedTotal(t) == t.ledgers.base.credited + t.ledgers.boost.credited
  }

  ghost predicate PoolsSound(s: Storage, t: Tally, original: nat) {
    && WeightsInv(s)
    && BothConserved(s, t.ledgers)
    && EmissionBooks(s, t, original)
    && WithinAmount(s)
  }

  ghost predicate BooksSound(s: Storage, t: Tally) {
    CreditBooks(t) && forall a :: Booked(s, t, a)
  }

  /** what every transaction keeps, whatever the schedule, the ratios and the clock do */
  ghost predicate Sound(w: World, original: nat) {
    PoolsSound(w.store, w.tally, original) && BooksSound(w.store, w.tally)
  }

  // ----- an index update -----

  lemma EmitPools(s: Storage, now: nat, t: Tally, original: nat)
    requires PoolsSound(s, t, original) && UpdateRewardIndexes(s, now).Ok?
    ensures var s1 := UpdateRewardIndexes(s, now).value; PoolsSound(s1, Emit(t, s, s1), original)
  {
    UpdateWithinAmount(s, now);
    IndexKeepsWeights(s, now);
    IndexConserves(s, now, t.ledgers);
    hide WeightsInv, BothConserved, UpdateRewardIndexes, WithinAmount;
  }

  lemma EmitBooks(s: Storage, now: nat, t: Tally)
    requires BooksSound(s, t) && UpdateRewardIndexes(s, now).Ok?
    ensures var s1 := UpdateRewardIndexes(s, now).value; BooksSound(s1, Emit(t, s, s1))
  {
    var s1 := UpdateRewardIndexes(s, now).value;
    assert s1.rewards == s.rewards && s1.vests == s.vests && s1.pendingWithdraw == s.pendingWithdraw by {
      hide UpdateRewardIndex;
    }
    SameBooks(s, t, s1, Emit(t, s, s1));
  }

  /** the books only look at records, vests and payable amounts */
  lemma SameBooks(s: Storage, t: Tally, s': Storage, t': Tally)
    requires BooksSound(s, t)
    requires s'.rewards == s.rewards && s'.vests == s.vests && s'.pendingWithdraw == s.pendingWithdraw
    requires t'.credited == t.credited && t'.scheduled == t.scheduled && t'.claimed == t.claimed
    requires t'.ledgers.base.credited == t.ledgers.base.credited
    requires t'.ledgers.boost.credited == t.ledgers.boost.credited
    ensures BooksSound(s', t')
  {
    hide VestSum;
    assert CreditedTotal(t') == CreditedTotal(t);
    forall a ensures Booked(s', t', a) {
      assert Booked(s, t, a);
    }
  }

  // ----- settling one account -----

  lemma SettlePools(s: Storage, s': Storage, t: Tally, original: nat, a: Addr)
    requires PoolsSound(s, t, original)
    requires SettlesAt(s, s', a, Bonded(s', a), BoostWeight(s', a))
    requires Bonded(s', a) == 0 ==> BoostWeight(s', a) == 0
    ensures PoolsSound(s', Settle(t, s, s', a), original)
    ensures var t' := Settle(t, s, s', a);
            t'.ledgers.base.credited + t'.ledgers.boost.credited
            == t.ledgers.base.credited + t.ledgers.boost.credited + Credits(s, a)
  {
    hide WeightsInv, BothConserved, Credit, StakeAt, BaseStakes, BoostStakes, Credits, Bonded, BoostWeight, BondSet, RecordSet;
    var bond, weight := Bonded(s', a), BoostWeight(s', a);
    SettlesKeepsWeights(s, s', a, bond, weight);
    SettlesConserves(s, s', a, bond, weight, t.ledgers);
  }

  lemma SettleCredits(s: Storage, s': Storage, t: Tally, a: Addr)
    ensures CreditedTotal(Settle(t, s, s', a)) == CreditedTotal(t) + Credits(s, a)
  {
    hide Credits, SettledLedgers;
    var t' := Settle(t, s, s', a);
    SumUpdate(t.credited.Keys, t'.credited.Keys, a,
              (b: Addr) => At(t.credited, b), (b: Addr) => At(t'.credited, b));
  }

  /** crediting one account's pending reward keeps the books */
  lemma CreditOne(s: Storage, s': Storage, t: Tally, t': Tally, a: Addr, credits: int)
    requires BooksSound(s, t)
    requires s'.vests == s.vests && s'.pendingWithdraw == s.pendingWithdraw
    requires PendingReward(s', a) == PendingReward(s, a) + credits
    requires forall b | b != a :: PendingReward(s', b) == PendingReward(s, b)
    requires t' == t.(ledgers := t'.ledgers, credited := t.credited[a := At(t.credited, a) + credits])
    requires CreditBooks(t')
    ensures BooksSound(s', t')
  {
    hide VestSum, PendingReward, CreditBooks;
    forall b ensures Booked(s', t', b) {
      assert Booked(s, t, b);
    }
  }

  /** what a bond, an unbond or a refresh does to the books: it credits one account */
  lemma SettleBooks(s: Storage, s': Storage, t: Tally, original: nat, a: Addr)
    requires PoolsSound(s, t, original) && BooksSound(s, t)
    requires SettlesAt(s, s', a, Bonded(s', a), BoostWeight(s', a))
    requires Bonded(s', a) == 0 ==> BoostWeight(s', a) == 0
    requires PendingReward(s', a) == PendingReward(s, a) + Credits(s, a)
    requires s'.vests == s.vests && s'.pendingWithdraw == s.pendingWithdraw
    ensures BooksSound(s', Settle(t, s, s', a))
  {
    hide PoolsSound, SettlesAt, Credits, PendingReward, Booked, CreditBooks, SettledLedgers, Bonded, BoostWeight;
    SettleCreditBooks(s, s', t, original, a);
    OthersPending(s, s', a);
    var t' := Settle(t, s, s', a);
    CreditOne(s, s', t, t', a, Credits(s, a));
  }

  lemma SettleCreditBooks(s: Storage, s': Storage, t: Tally, original: nat, a: Addr)
    requires PoolsSound(s, t, original) && CreditBooks(t)
    requires SettlesAt(s, s', a, Bonded(s', a), BoostWeight(s', a))
    requires Bonded(s', a) == 0 ==> BoostWeight(s', a) == 0
    ensures CreditBooks(Settle(t, s, s', a))
  {
    SettlePools(s, s', t, original, a);
    SettleCredits(s, s', t, a);
    hide PoolsSound, SettlesAt, Credits, CreditedTotal, Settle, Bonded, BoostWeight;
  }

  lemma OthersPending(s: Storage, s': Storage, a: Addr)
    requires SettlesAt(s, s', a, Bonded(s', a), BoostWeight(s', a))
    ensures forall b | b != a :: PendingReward(s', b) == PendingReward(s, b)
  {
  }

  lemma BondedAfter(s: Storage, s': Storage, a: Addr, bond: nat, weight: nat)
    requires SettlesAt(s, s', a, bond, weight)
    ensures Bonded(s', a) == bond && BoostWeight(s', a) == weight
  {
  }

  // ----- withdrawing -----

  lemma ScheduleBooked(s: Storage, s': Storage, t: Tally, t': Tally, b: Addr, credits: int, amount: int)
    requires Booked(s, t, b)
    requires amount - credits == PendingReward(s, b) - PendingReward(s', b)
    requires Holdings(s', b) == Holdings(s, b) + credits
    requires At(t'.credited, b) == At(t.credited, b) + credits && t'.claimed == t.claimed
    requires VestSum(t'.scheduled, b) == VestSum(t.scheduled, b) + amount
    ensures Booked(s', t', b)
  {
    hide VestSum, PendingReward, PendingOf;
  }

  /** crediting an account and scheduling all it has pending keeps the books */
  lemma ScheduleOne(s: Storage, s': Storage, t: Tally, t': Tally, key: Key, credits: int, amount: nat)
    requires BooksSound(s, t)
    requires PendingReward(s', key.0) == 0 && amount == PendingReward(s, key.0) + credits
    requires forall b | b != key.0 :: PendingReward(s', b) == PendingReward(s, b)
    requires forall b :: Holdings(s', b) == Holdings(s, b) + if b == key.0 then credits else 0
    requires t' == t.(
               ledgers := t'.ledgers,
               credited := t.credited[key.0 := At(t.credited, key.0) + credits],
               scheduled := t.scheduled[key := VestAt(t.scheduled, key) + amount])
    requires CreditBooks(t')
    ensures BooksSound(s', t')
  {
    hide VestSum, PendingReward, CreditBooks, VestAt, PendingOf, Booked, Holdings;
    ScheduledSums(t.scheduled, key, amount);
    forall b ensures Booked(s', t', b) {
      assert Booked(s, t, b);
      ScheduleBooked(s, s', t, t', b, if b == key.0 then credits else 0, if b == key.0 then amount else 0);
    }
  }

  lemma VestBooks(s: Storage, s': Storage, now: nat, t: Tally, original: nat, a: Addr)
    requires PoolsSound(s, t, original) && BooksSound(s, t)
    requires WithdrawSingle(s, now, a) == Ok(s')
    ensures PoolsSound(s', Vest(Settle(t, s, s', a), s, now, a), original)
    ensures BooksSound(s', Vest(Settle(t, s, s', a), s, now, a))
  {
    hide WeightsInv, BothConserved, WithinAmount, EmissionBooks, SettlesAt, Credits, PendingReward, Booked, CreditBooks, Settle, Vest, Bonded, BoostWeight, WithdrawSingle, Withdrawn, Holdings,
         VestsGrow, VestEnd;
    NoBondNoWeight(s, a);
    WithdrawSettles(s, now, a);
    BondedAfter(s, s', a, Bonded(s, a), BoostWeight(s, a));
    SettlePools(s, s', t, original, a);
    SettleCreditBooks(s, s', t, original, a);
    OthersPending(s, s', a);
    var settled := Settle(t, s, s', a);
    var t' := Vest(settled, s, now, a);
    var key: Key := (a, VestEnd(s.cfg, now));
    VestForm(t, s, s', now, a);
    ScheduleOne(s, s', t, t', key, Credits(s, a), Withdrawn(s, a));
  }

  lemma NoBondNoWeight(s: Storage, a: Addr)
    requires WeightsInv(s)
    ensures Bonded(s, a) == 0 ==> BoostWeight(s, a) == 0
  {
  }

  lemma VestForm(t: Tally, s: Storage, s': Storage, now: nat, a: Addr)
    ensures var settled := Settle(t, s, s', a);
            var t' := Vest(settled, s, now, a);
            var key: Key := (a, VestEnd(s.cfg, now));
            && t' == t.(
                 ledgers := settled.ledgers,
                 credited := t.credited[a := At(t.credited, a) + Credits(s, a)],
                 scheduled := t.scheduled[key := VestAt(t.scheduled, key) + Withdrawn(s, a)])
            && (CreditBooks(settled) ==> CreditBooks(t'))
            && forall original :: PoolsSound(s', settled, original) ==> PoolsSound(s', t', original)
  {
    hide Credits, SettledLedgers, VestAt, Withdrawn, VestEnd, WeightsInv, BothConserved, WithinAmount;
    var settled := Settle(t, s, s', a);
    assert CreditedTotal(Vest(settled, s, now, a)) == CreditedTotal(settled);
  }

  lemma ScheduledSums(scheduled: Vests, key: Key, amount: nat)
    ensures var after := scheduled[key := VestAt(scheduled, key) + amount];
            forall b :: VestSum(after, b) == VestSum(scheduled, b) + if b == key.0 then amount else 0
  {
    var after := scheduled[key := VestAt(scheduled, key) + amount];
    forall b ensures VestSum(after, b) == VestSum(scheduled, b) + if b == key.0 then amount else 0 {
      SumUpdate(scheduled.Keys, after.Keys, key, VestPart(scheduled, b), VestPart(after, b));
    }
  }

  lemma {:induction false} VestEachSound(s: Storage, now: nat, t: Tally, original: nat, accounts: seq<Addr>)
    requires PoolsSound(s, t, original) && BooksSound(s, t)
    ensures WithdrawEach(s, now, accounts).Ok?
    ensures var s' := WithdrawEach(s, now, accounts).value;
            && PoolsSound(s', VestEach(t, s, now, accounts), original)
            && BooksSound(s', VestEach(t, s, now, accounts))
    decreases |accounts|
  {
    if accounts != [] {
      var a := accounts[0];
      assert WithdrawSingle(s, now, a).Ok? by {
        WithdrawSettles(s, now, a);
      }
      hide PoolsSound, BooksSound, WithdrawSingle, Vest, Settle;
      var s1 := WithdrawSingle(s, now, a).value;
      VestBooks(s, s1, now, t, original, a);
      VestEachSound(s1, now, Vest(Settle(t, s, s1, a), s, now, a), original, accounts[1..]);
    }
  }

  // ----- claiming -----

  lemma PayBooked(s: Storage, s': Storage, t: Tally, t': Tally, b: Addr, paid: int)
    requires Booked(s, t, b) && PendingReward(s', b) == PendingReward(s, b)
    requires Holdings(s', b) == Holdings(s, b) - paid
    requires t' == t.(claimed := t'.claimed) && At(t'.claimed, b) == At(t.claimed, b) + paid
    ensures Booked(s', t', b)
  {
    hide VestSum, PendingReward, PendingOf;
  }

  /** paying an account what it can claim keeps the books */
  lemma PayOne(s: Storage, s': Storage, t: Tally, t': Tally, a: Addr, paid: int)
    requires BooksSound(s, t)
    requires s'.rewards == s.rewards
    requires Holdings(s', a) == Holdings(s, a) - paid
    requires forall b | b != a :: Holdings(s', b) == Holdings(s, b)
    requires t' == t.(claimed := t.claimed[a := At(t.claimed, a) + paid])
    ensures BooksSound(s', t')
  {
    hide Booked, Holdings;
    assert CreditedTotal(t') == CreditedTotal(t);
    forall b ensures Booked(s', t', b) {
      PayBooked(s, s', t, t', b, if b == a then paid else 0);
    }
  }

  lemma ClaimSound(s: Storage, now: nat, t: Tally, original: nat, sender: Addr)
    requires PoolsSound(s, t, original) && BooksSound(s, t)
    requires ClaimWithdrawnRewards(s, now, sender).Ok?
    ensures var o := ClaimWithdrawnRewards(s, now, sender).value;
            PoolsSound(o.store, Pay(t, sender, o.paid), original) && BooksSound(o.store, Pay(t, sender, o.paid))
  {
    hide PoolsSound, BooksSound, ClaimWithdrawnRewards, Holdings, VestAt, PendingOf;
    ClaimPays(s, now, sender);
    var o := ClaimWithdrawnRewards(s, now, sender).value;
    var t' := Pay(t, sender, o.paid);
    SamePools(s, o.store, t, t', original);
    PayOne(s, o.store, t, t', sender, o.paid);
  }

  /** neither weights nor conservation look at what was distributed or at the configuration */
  lemma SameWeights(s: Storage, s': Storage, l: Ledgers)
    requires WeightsInv(s) && BothConserved(s, l)
    requires s'.base == s.base.(totalDistributed := s'.base.totalDistributed)
    requires s'.boost == s.boost.(totalDistributed := s'.boost.totalDistributed)
    requires s'.bonds == s.bonds && s'.rewards == s.rewards
    ensures WeightsInv(s') && BothConserved(s', l)
  {
    hide Conserved, TotalWeight;
    assert BaseStakes(s') == BaseStakes(s) && BoostStakes(s') == BoostStakes(s);
    assert forall a :: Bonded(s', a) == Bonded(s, a);
  }

  lemma SamePools(s: Storage, s': Storage, t: Tally, t': Tally, original: nat)
    requires PoolsSound(s, t, original)
    requires s' == s.(vests := s'.vests, pendingWithdraw := s'.pendingWithdraw)
    requires t'.ledgers == t.ledgers
    ensures PoolsSound(s', t', original)
  {
    SameWeights(s, s', t.ledgers);
    hide WeightsInv, BothConserved;
  }

  // ----- one transaction -----

  lemma SettleSound(s: Storage, s': Storage, now: nat, t: Tally, original: nat, a: Addr, bond: nat, weight: nat)
    requires PoolsSound(s, t, original) && BooksSound(s, t)
    requires SettlesAt(s, s', a, bond, weight) && (bond == 0 ==> weight == 0)
    requires PendingReward(s', a) == PendingReward(s, a) + Credits(s, a)
    requires s'.vests == s.vests && s'.pendingWithdraw == s.pendingWithdraw
    ensures Sound(World(s', now, Settle(t, s, s', a)), original)
  {
    hide PoolsSound, BooksSound, SettlesAt, PendingReward, Credits, Settle;
    BondedAfter(s, s', a, bond, weight);
    hide Bonded, BoostWeight;
    SettlePools(s, s', t, original, a);
    SettleBooks(s, s', t, original, a);
  }

  /** the indexes are brought up to date first */
  lemma EmitSound(w: World, now: nat, original: nat)
    requires Sound(w, original) && UpdateRewardIndexes(w.store, now).Ok?
    ensures var s1 := UpdateRewardIndexes(w.store, now).value;
            PoolsSound(s1, Emit(w.tally, w.store, s1), original) && BooksSound(s1, Emit(w.tally, w.store, s1))
  {
    hide PoolsSound, BooksSound, Emit, UpdateRewardIndexes;
    EmitPools(w.store, now, w.tally, original);
    EmitBooks(w.store, now, w.tally);
  }

  lemma BondSound(s: Storage, s': Storage, now: nat, t: Tally, original: nat, sender: Addr, amount: nat, boost: nat)
    requires PoolsSound(s, t, original) && BooksSound(s, t)
    requires BondCore(s, sender, amount, boost) == Ok(s')
    ensures Sound(World(s', now, Settle(t, s, s', sender)), original)
  {
    hide BothConserved, WithinAmount, EmissionBooks, BooksSound, SettlesAt, PendingReward, Credits, Settle, BondCore, BoostFor, WeightsInv;
    BondSettles(s, sender, amount, boost);
    NoBondNoBoost(boost);
    var bond := Bonded(s, sender) + amount;
    SettleSound(s, s', now, t, original, sender, bond, BoostFor(bond, boost));
  }

  lemma UnbondSound(s: Storage, s': Storage, now: nat, t: Tally, original: nat, sender: Addr, part: Option<nat>, boost: nat)
    requires PoolsSound(s, t, original) && BooksSound(s, t)
    requires UnbondCore(s, sender, part, boost) == Ok(s')
    ensures Sound(World(s', now, Settle(t, s, s', sender)), original)
  {
    hide BothConserved, WithinAmount, EmissionBooks, BooksSound, SettlesAt, PendingReward, Credits, Settle, UnbondCore, BoostFor, WeightsInv;
    UnbondSettles(s, sender, part, boost);
    NoBondNoBoost(boost);
    var bond := Bonded(s, sender) - Unbonded(s, sender, part);
    SettleSound(s, s', now, t, original, sender, bond, BoostFor(bond, boost));
  }

  lemma RefreshSound(s: Storage, s': Storage, now: nat, t: Tally, original: nat, account: Addr, boost: nat)
    requires PoolsSound(s, t, original) && BooksSound(s, t)
    requires RefreshCore(s, account, boost) == Ok(s')
    ensures Sound(World(s', now, Settle(t, s, s', account)), original)
  {
    hide BothConserved, WithinAmount, EmissionBooks, BooksSound, SettlesAt, PendingReward, Credits, Settle, RefreshCore, BoostFor, WeightsInv;
    RefreshSettles(s, account, boost);
    NoBondNoBoost(boost);
    SettleSound(s, s', now, t, original, account, Bonded(s, account), BoostFor(Bonded(s, account), boost));
  }

  lemma RatioSound(w: World, now: nat, original: nat, ratio: nat)
    requires Sound(w, original) && ChangeRatio(w.store, now, ratio).Ok?
    ensures var s1 := UpdateRewardIndexes(w.store, now);
            s1.Ok? && Sound(World(ChangeRatio(w.store, now, ratio).value, now, Emit(w.tally, w.store, s1.value)), original)
  {
    ChangeMovesTotals(w.store, now, ratio);
    EmitSound(w, now, original);
    ChangeWithinAmount(w.store, now, ratio);
    var s1 := UpdateRewardIndexes(w.store, now).value;
    assert s1.cfg == w.store.cfg;
    var s', t1 := ChangeRatio(w.store, now, ratio).value, Emit(w.tally, w.store, s1);
    hide ChangeRatio, UpdateRewardIndexes, WeightsInv, BothConserved, BooksSound, Emit, WithinAmount;
    SameWeights(s1, s', t1.ledgers);
    SameBooks(s1, t1, s', t1);
  }

  lemma MinBondSound(w: World, original: nat, minBond: nat)
    requires Sound(w, original)
    ensures Sound(w.(store := w.store.(cfg := w.store.cfg.(minBondAmount := minBond))), original)
  {
    var s, t := w.store, w.tally;
    var s' := s.(cfg := s.cfg.(minBondAmount := minBond));
    hide BooksSound, WeightsInv, BothConserved;
    SameWeights(s, s', t.ledgers);
    SameBooks(s, t, s', t);
  }

  lemma ConfigSound(w: World, now: nat, original: nat, op: Op)
    requires Sound(w, original) && op.UpdateConfig? && Apply(w.store, now, op).Ok?
    ensures Sound(Step(w, now, op), original)
  {
    hide Sound, ChangeRatio, Emit, UpdateRewardIndexes;
    var changed := w.(now := now);
    assert Sound(changed, original) by {
      SoundAnyTime(w, now, original);
    }
    if op.ratio.Some? {
      RatioSound(w, now, original, op.ratio.value);
      changed := World(ChangeRatio(w.store, now, op.ratio.value).value, now,
                       Emit(w.tally, w.store, UpdateRewardIndexes(w.store, now).value));
    }
    if op.minBond.Some? {
      MinBondSound(changed, original, op.minBond.value);
    }
  }

  lemma SoundAnyTime(w: World, now: nat, original: nat)
    requires Sound(w, original)
    ensures Sound(w.(now := now), original)
  {
    hide PoolsSound, BooksSound;
  }

  /** Every transaction keeps pools and books sound. */
  lemma StepSound(w: World, now: nat, op: Op, original: nat)
    requires Sound(w, original)
    ensures Sound(Step(w, now, op), original)
  {
    hide Sound, PoolsSound, BooksSound, Emit, Settle, Vest, VestEach, Pay;
    var s := w.store;
    if Apply(s, now, op).Err? {
      SoundAnyTime(w, now, original);
    } else if op.UpdateConfig? {
      ConfigSound(w, now, original, op);
    } else if op.Claim? {
      ClaimStep(w, now, op, original);
    } else {
      SettlingStep(w, now, op, original);
    }
  }

  lemma ClaimStep(w: World, now: nat, op: Op, original: nat)
    requires Sound(w, original) && op.Claim? && Apply(w.store, now, op).Ok?
    ensures Sound(Step(w, now, op), original)
  {
    hide PoolsSound, BooksSound, Pay, ClaimWithdrawnRewards;
    ClaimSound(w.store, now, w.tally, original, op.sender);
  }

  lemma UpdatedFirst(s: Storage, now: nat, op: Op)
    requires Apply(s, now, op).Ok? && !op.UpdateConfig? && !op.Claim?
    ensures UpdateRewardIndexes(s, now).Ok?
  {
    hide UpdateRewardIndexes, BondCore, UnbondCore, RefreshCore, WithdrawSingle, WithdrawEach, PagedAccounts, Bonded;
  }

  lemma SettlingStep(w: World, now: nat, op: Op, original: nat)
    requires Sound(w, original) && Apply(w.store, now, op).Ok?
    requires !op.UpdateConfig? && !op.Claim?
    ensures Sound(Step(w, now, op), original)
  {
    UpdatedFirst(w.store, now, op);
    EmitSound(w, now, original);
    hide PoolsSound, BooksSound, Emit, Settle, Vest, VestEach, UpdateRewardIndexes,
         BondCore, UnbondCore, RefreshCore, WithdrawSingle, WithdrawEach, PagedAccounts, Bonded;
    var s' := Apply(w.store, now, op).value;
    var s1 := UpdateRewardIndexes(w.store, now).value;
    var t1 := Emit(w.tally, w.store, s1);
    match op
    case Bond(sender, amount, boost) => BondSound(s1, s', now, t1, original, sender, amount, boost);
    case Unbond(sender, part, boost) => UnbondSound(s1, s', now, t1, original, sender, part, boost);
    case ActivateBoost(sender, boost) => RefreshSound(s1, s', now, t1, original, sender, boost);
    case PrivilegedRefresh(_, account, boost) => RefreshSound(s1, s', now, t1, original, account, boost);
    case Withdraw(sender) => VestBooks(s1, s', now, t1, original, sender);
    case WithdrawBulk(_, limit, startAfter) =>
      VestEachSound(s1, now, t1, original, PagedAccounts(s1.rewards, limit, startAfter));
    case _ =>
  }

  lemma {:induction false} RunSound(w: World, txs: seq<Tx>, original: nat)
    requires Sound(w, original)
    ensures Sound(Run(w, txs), original)
    decreases |txs|
  {
    hide Sound, Step;
    if txs != [] {
      StepSound(w, txs[0].now, txs[0].op, original);
      RunSound(Step(w, txs[0].now, txs[0].op), txs[1..], original);
    }
  }

  // ----- results over every run -----

  function Start(cfg: Config): World {
    var empty := DistributionStatus(0, 0, 0, 0);
    World(
      Storage(cfg, empty, empty, map[], map[], map[], map[]), 0,
      Tally(Ledgers(Ledger(0, 0, 0), Ledger(0, 0, 0)), map[], map[], map[]))
  }

  lemma StartSound(cfg: Config)
    requires Instantiate(cfg).Ok?
    ensures Start(cfg).store == Instantiate(cfg).value
    ensures Sound(Start(cfg), cfg.schedule.amount)
  {
    var s := Start(cfg).store;
    EmptyConserved<Addr>(0);
    assert BaseStakes(s) == map[] && BoostStakes(s) == map[];
  }

  lemma ReachableSound(cfg: Config, txs: seq<Tx>)
    requires Instantiate(cfg).Ok?
    ensures Sound(Run(Start(cfg), txs), cfg.schedule.amount)
  {
    hide Run, Sound, Instantiate;
    StartSound(cfg);
    RunSound(Start(cfg), txs, cfg.schedule.amount);
  }

  /** In every state of every run the base pool's weight is the sum of the bonds and the boost
      pool's the sum of the stored boost weights; an account without a bond has no boost
      weight, and one with a bond has a reward record. */
  lemma WeightsOverRuns(cfg: Config, txs: seq<Tx>)
    requires Instantiate(cfg).Ok?
    ensures var s := Run(Start(cfg), txs).store;
            && s.base.totalWeight == Sum(s.bonds.Keys, BondOf(s.bonds)) == TotalWeight(BaseStakes(s))
            && s.boost.totalWeight == TotalWeight(BoostStakes(s))
            && (forall a :: Bonded(s, a) == 0 ==> BoostWeight(s, a) == 0)
            && (forall a :: Bonded(s, a) > 0 ==> a in s.rewards)
  {
    hide Run, Instantiate, BothConserved, BooksSound, EmissionBooks, TotalWeight, BaseStakes, BoostStakes;
    ReachableSound(cfg, txs);
    BaseWeightIsBonds(Run(Start(cfg), txs).store);
  }

  lemma CreditsWithinEmission(w: World, original: nat)
    requires Sound(w, original)
    ensures var l := w.tally.ledgers;
            CreditedTotal(w.tally) <= Emitted(w.tally) + l.base.changes + l.boost.changes
  {
    var s, l := w.store, w.tally.ledgers;
    CreditsBounded(BaseStakes(s), s.base.rewardIndex, s.base.totalWeight, s.base.pendingReward, l.base);
    CreditsBounded(BoostStakes(s), s.boost.rewardIndex, s.boost.totalWeight, s.boost.pendingReward, l.boost);
    hide CreditedTotal, Conserved, WeightsInv, Booked, BaseStakes, BoostStakes;
  }

  lemma ClaimedWithinCredited(w: World, original: nat)
    requires Sound(w, original)
    ensures Sum(w.tally.claimed.Keys, (a: Addr) => At(w.tally.claimed, a)) <= CreditedTotal(w.tally)
  {
    var t := w.tally;
    var claimed, credited := (a: Addr) => At(t.claimed, a), (a: Addr) => At(t.credited, a);
    var all := t.claimed.Keys + t.credited.Keys;
    forall a ensures At(t.claimed, a) <= At(t.credited, a) {
      assert Booked(w.store, t, a);
      VestSumNonneg(w.store.vests, a);
    }
    SumExtend(t.claimed.Keys, all, claimed);
    SumExtend(t.credited.Keys, all, credited);
    SumMono(all, claimed, credited);
  }

  lemma VestSumNonneg(vests: Vests, a: Addr)
    ensures VestSum(vests, a) >= 0
  {
    SumNonneg(vests.Keys, VestPart(vests, a));
  }

  /** Over every run, whatever its schedule, ratio changes and clock: what was handed to the
      pools stays within the amount the pool was created with; credits stay within that, up to
      one unit for each change of an account's weight, and payouts within the credits; and of
      every account the books say where its credits are. */
  lemma PayoutsWithinOriginal(cfg: Config, txs: seq<Tx>)
    requires Instantiate(cfg).Ok?
    ensures var w := Run(Start(cfg), txs);
            var t := w.tally;
            && Emitted(t) <= cfg.schedule.amount
            && CreditedTotal(t) <= Emitted(t) + t.ledgers.base.changes + t.ledgers.boost.changes
            && Sum(t.claimed.Keys, (a: Addr) => At(t.claimed, a)) <= CreditedTotal(t)
            && (forall a :: At(t.credited, a) == Holdings(w.store, a) + At(t.claimed, a))
  {
    hide Run, Instantiate, WeightsInv, BothConserved, CreditedTotal;
    ReachableSound(cfg, txs);
    var w := Run(Start(cfg), txs);
    CreditsWithinEmission(w, cfg.schedule.amount);
    ClaimedWithinCredited(w, cfg.schedule.amount);
    forall a ensures At(w.tally.credited, a) == Holdings(w.store, a) + At(w.tally.claimed, a) {
      assert Booked(w.store, w.tally, a);
    }
  }
}
