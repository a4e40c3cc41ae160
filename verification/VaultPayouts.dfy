/** What the vault pays: a withdrawal settles exactly the debt it takes off the books, and a
    release makes the finished batches owe what arrived for them, up to rounding. */
module VaultPayouts {
  import opened Addresses
  import opened Results
  import opened FixedPoint
  import opened SignedIntegers
  import opened Sums
  import opened VaultModel
  import opened VaultAllocation
  import opened VaultLifecycle
  import opened VaultSolvency

  // ----- one withdrawal -----

  /** an entry at the rate its batch was released at, rounded down */
  function EntryValue(waitList: WaitList, h: Histories): Key -> int {
    (k: Key) => if k in waitList && k.1 in h then waitList[k] * h[k.1].withdrawRate / E else 0
  }

  /** the entries a call took off the wait list */
  function Taken(s: Storage, s': Storage): set<Key> {
    s.waitList.Keys - s'.waitList.Keys
  }

  /** A withdrawal pays exactly what leaves the debt, that is the sum over the entries it takes
      off, each an entry of the caller in a released batch; and it remembers the coins that
      remain. */
  lemma WithdrawPaysDebt(s: Storage, now: nat, sender: Addr, vaultBalance: nat)
    requires ExecuteWithdrawUnbonded(s, now, sender, vaultBalance).Ok?
    ensures var o := ExecuteWithdrawUnbonded(s, now, sender, vaultBalance).value;
            && o.paid == Owed(s.waitList, o.store.history) - Owed(o.store.waitList, o.store.history)
            && o.paid == Sum(Taken(s, o.store), EntryValue(s.waitList, o.store.history))
            && (forall k | k in Taken(s, o.store) :: k.0 == sender && k.1 in o.store.history && o.store.history[k.1].released)
            && o.store.waitList.Keys <= s.waitList.Keys
            && (forall k | k in o.store.waitList :: o.store.waitList[k] == s.waitList[k])
            && o.store.state.prevVaultBalance == vaultBalance - o.paid
  {
    hide RemoveWaitList, ReleaseBatches, TotalUnbonded, Owed, FinishedAmount, UnbondBatches, PagedBatches;
    WithdrawForm(s, now, sender, vaultBalance);
    PaidEntriesLeave(s, now, sender, vaultBalance);
    var p := ProcessWithdrawRate(s, now - s.params.unbondingPeriod, vaultBalance).value;
    var o := ExecuteWithdrawUnbonded(s, now, sender, vaultBalance).value;
    hide ProcessWithdrawRate;
    RemovalSettles(p, sender);
    RemoveWaitListKeys(p.waitList, UnbondBatches(p, sender), sender);
    TakenIsDebt(s.waitList, o.store.waitList, o.store.history);
  }

  /** the batches an account waits in */
  function WaitingIn(waitList: WaitList, sender: Addr): set<nat> {
    set k | k in waitList.Keys && k.0 == sender :: k.1
  }

  /** A withdrawal takes an entry of the caller off the wait list exactly when its batch is
      released and the caller waits in fewer than thirty earlier batches. */
  lemma WithdrawTakes(s: Storage, now: nat, sender: Addr, vaultBalance: nat, b: nat)
    requires ExecuteWithdrawUnbonded(s, now, sender, vaultBalance).Ok? && (sender, b) in s.waitList
    ensures var s' := ExecuteWithdrawUnbonded(s, now, sender, vaultBalance).value.store;
            (sender, b) !in s'.waitList
            <==> b in s'.history && s'.history[b].released && |Below(WaitingIn(s.waitList, sender), b)| < 30
  {
    PaidEntriesLeave(s, now, sender, vaultBalance);
    hide ExecuteWithdrawUnbonded;
    var key: Key := (sender, b);
    assert key in s.waitList.Keys && b in WaitingIn(s.waitList, sender);
    TakenByRank(WaitingIn(s.waitList, sender), 30, b);
    assert b in PagedBatches(s.waitList, sender) <==> |Below(WaitingIn(s.waitList, sender), b)| < 30;
  }

  /** the debt falls by the amount found for the account */
  lemma RemovalSettles(p: Storage, sender: Addr)
    ensures Owed(RemoveWaitList(p.waitList, UnbondBatches(p, sender), sender), p.history)
            == Owed(p.waitList, p.history) - FinishedAmount(p, sender)
  {
    PayingSettles(p.waitList, p.history, sender, PagedBatches(p.waitList, sender));
  }

  /** entries that stay keep their value, so the debt falls by the value of those that go */
  lemma TakenIsDebt(waitList: WaitList, waitList': WaitList, h: Histories)
    requires waitList'.Keys <= waitList.Keys && forall k | k in waitList' :: waitList'[k] == waitList[k]
    requires forall k | k in waitList && k !in waitList' :: IsReleased(h, k.1)
    ensures Owed(waitList, h) - Owed(waitList', h) == Sum(waitList.Keys - waitList'.Keys, EntryValue(waitList, h))
  {
    var taken := waitList.Keys - waitList'.Keys;
    SumSplit(waitList.Keys, waitList'.Keys, PayoutOf(waitList, h));
    SumCongruent(waitList'.Keys, PayoutOf(waitList, h), PayoutOf(waitList', h));
    SumCongruent(taken, PayoutOf(waitList, h), EntryValue(waitList, h));
  }

  // ----- what is due -----

  lemma DuePrefixOfBatches(s: Storage, cutoff: nat)
    requires Lifecycle(s)
    ensures var end := ReleaseEnd(s.history, s.state.lastProcessedBatch + 1, cutoff);
            forall b | b in s.history && !s.history[b].released :: b < end <==> s.history[b].time <= cutoff
  {
    var first := s.state.lastProcessedBatch + 1;
    var end := ReleaseEnd(s.history, first, cutoff);
    assert !Releasable(s.history, end, cutoff);
    forall b | b in s.history && !s.history[b].released
      ensures b < end <==> s.history[b].time <= cutoff
    {
      assert b >= first;
      if b < end {
        assert Releasable(s.history, b, cutoff);
      } else {
        assert end in s.history;
        assert b > end ==> s.history[end].time < s.history[b].time;
      }
    }
  }

  /** A withdrawal releases exactly the batches whose unbonding period is over: no batch
      early, and none of them late. */
  lemma ReleasesExactlyMature(s: Storage, now: nat, sender: Addr, vaultBalance: nat)
    requires Lifecycle(s) && Accounted(s)
    requires ExecuteWithdrawUnbonded(s, now, sender, vaultBalance).Ok?
    ensures var h, h' := s.history, ExecuteWithdrawUnbonded(s, now, sender, vaultBalance).value.store.history;
            && h'.Keys == h.Keys
            && (forall b | b in h :: h'[b].released <==> h[b].released || h[b].time + s.params.unbondingPeriod <= now)
            && (forall b | b in h && (h[b].released || !h'[b].released) :: h'[b] == h[b])
  {
    hide RemoveWaitList, UnbondBatches, ReleaseBatches, TotalUnbonded, BatchSum, ReleaseEnd;
    WithdrawForm(s, now, sender, vaultBalance);
    var cutoff := now - s.params.unbondingPeriod;
    DuePrefixOfBatches(s, cutoff);
    hide ExecuteWithdrawUnbonded;
    ReleaseKeeps(s, cutoff, vaultBalance);
    ReleasedFrame(s, cutoff, vaultBalance);
  }

  lemma ReleasedFrame(s: Storage, cutoff: nat, vaultBalance: nat)
    requires ProcessWithdrawRate(s, cutoff, vaultBalance).Ok?
    ensures var h, p := s.history, ProcessWithdrawRate(s, cutoff, vaultBalance).value;
            var first := s.state.lastProcessedBatch + 1;
            var end := ReleaseEnd(h, first, cutoff);
            && p.history.Keys == h.Keys
            && p.state.lastProcessedBatch == end - 1
            && (forall b | b in h && !(first <= b < end) :: p.history[b] == h[b])
            && (forall b | first <= b < end :: b in p.history && p.history[b].released)
  {
    hide ReleaseBatches, ReleaseEnd, TotalUnbonded;
    var first := s.state.lastProcessedBatch + 1;
    var total := TotalUnbonded(s.history, first, cutoff);
    if ReleaseEnd(s.history, first, cutoff) > first {
      ReleaseBatchesFrame(s.history, first, cutoff, total, FromSubtraction(total, Arrived(s.state, vaultBalance)));
    }
  }

  // ----- what a release makes the batches owe -----

  /** the rate of every released batch is its part of the allocation, rounded down once */
  lemma {:induction false} ReleasedRates(h: Histories, i: nat, cutoff: nat, total: nat, slashed: SignedInt)
    requires ReleaseBatches(h, i, cutoff, total, slashed).Ok?
    ensures ActualAmounts(NewAmounts(h, i, cutoff), total, slashed).Ok?
    ensures var h', actual := ReleaseBatches(h, i, cutoff, total, slashed).value,
                              ActualAmounts(NewAmounts(h, i, cutoff), total, slashed).value;
            && |actual| == ReleaseEnd(h, i, cutoff) - i
            && forall j | 0 <= j < |actual| :: RateOf(h, h', i + j, actual[j])
    decreases KeysFrom(h, i)
  {
    hide ActualAmount, UnbondedAmount;
    if Releasable(h, i, cutoff) {
      KeysFromShrinks(h, i);
      var b1 := ReleaseBatch(h[i], total, slashed).value;
      var h1, actual := h[i := b1], ActualAmount(UnbondedAmount(h[i]), total, slashed).value;
      assert KeysFrom(h1, i + 1) == KeysFrom(h, i + 1);
      SameNewAmounts(h, h1, i + 1, cutoff);
      SameReleaseEnd(h, h1, i + 1, cutoff);
      RatioBounds(actual, h[i].amount);
      ReleasedRates(h1, i + 1, cutoff, total, slashed);
      ReleaseBatchesFrame(h1, i + 1, cutoff, total, slashed);
      var rest := ActualAmounts(NewAmounts(h1, i + 1, cutoff), total, slashed).value;
      assert NewAmounts(h, i, cutoff)[1..] == NewAmounts(h, i + 1, cutoff);
      RatesPrepended(h, h1, ReleaseBatches(h, i, cutoff, total, slashed).value, i, actual, rest);
    }
  }

  lemma RatesPrepended(h: Histories, h1: Histories, h': Histories, i: nat, actual: nat, rest: seq<nat>)
    requires i in h && i in h1 && h1 == h[i := h1[i]] && RateOf(h, h', i, actual)
    requires forall j | 0 <= j < |rest| :: RateOf(h1, h', i + 1 + j, rest[j])
    ensures forall j | 0 <= j < |rest| + 1 :: RateOf(h, h', i + j, ([actual] + rest)[j])
  {
    forall j | 0 <= j < |rest| + 1 ensures RateOf(h, h', i + j, ([actual] + rest)[j]) {
      if j > 0 {
        assert RateOf(h1, h', i + 1 + (j - 1), rest[j - 1]);
      }
    }
  }

  /** the new rate of a batch is its part of the allocation over its requests, rounded down */
  predicate RateOf(h: Histories, h': Histories, b: nat, actual: nat) {
    && b in h && b in h' && h[b].amount > 0
    && h'[b].withdrawRate * h[b].amount <= actual * E < (h'[b].withdrawRate + 1) * h[b].amount
  }

  ghost function HolderPart(b: nat): Key -> int {
    (k: Key) => if k.1 == b then 1 else 0
  }

  /** how many accounts wait in a batch */
  ghost function Holders(waitList: WaitList, b: nat): int {
    Sum(waitList.Keys, HolderPart(b))
  }

  /** paying many holders at one rate loses less than one unit for each of them */
  lemma {:induction false} SumAtOneRateLow<K>(s: set<K>, amount: K -> int, rate: nat, paid: K -> int, one: K -> int)
    requires forall k | k in s :: amount(k) >= 0 && paid(k) == MulDec(amount(k), rate) && one(k) >= 0
    requires forall k | k in s && amount(k) > 0 :: one(k) == 1
    ensures Sum(s, amount) * rate <= E * (Sum(s, paid) + Sum(s, one))
    decreases s
  {
    if s != {} {
      var k :| k in s;
      SumPick(s, k, amount);
      SumPick(s, k, paid);
      SumPick(s, k, one);
      SumAtOneRateLow(s - {k}, amount, rate, paid, one);
      MulDecBounds(amount(k), rate);
      OneMoreHolder(amount(k), Sum(s - {k}, amount), rate, paid(k) + one(k), Sum(s - {k}, paid) + Sum(s - {k}, one), E);
    }
  }

  lemma OneMoreHolder(a: int, rest: int, rate: int, x: int, y: int, e: int)
    requires a * rate <= e * x && rest * rate <= e * y
    ensures (a + rest) * rate <= e * (x + y)
  {
    assert (a + rest) * rate == a * rate + rest * rate && e * (x + y) == e * x + e * y;
  }

  /** Releasing one batch makes it owe at least its part of the allocation, short of one unit
      for each holder and of what its rate rounds away. */
  lemma ReleaseOneOwesLow(waitList: WaitList, h: Histories, b: nat, released: UnbondHistory, actual: nat)
    requires b in h && !h[b].released && h[b].amount > 0
    requires BatchSum(waitList, b) == h[b].amount
    requires released.released && released.withdrawRate == Ratio(actual, h[b].amount)
    ensures E * actual <= E * (Owed(waitList, h[b := released]) - Owed(waitList, h) + Holders(waitList, b)) + h[b].amount
  {
    var keys, rate := waitList.Keys, released.withdrawRate;
    var after := h[b := released];
    SumPlus(keys, PayoutOf(waitList, h), BatchPayout(waitList, b, rate), PayoutOf(waitList, after));
    assert MulDec(0, rate) == 0;
    SumAtOneRateLow(keys, BatchPart(waitList, b), rate, BatchPayout(waitList, b, rate), HolderPart(b));
    RatioBounds(actual, h[b].amount);
  }

  /** the rounding of all batches a release visits: their holders, and 10^-18 of their amounts */
  ghost function Slack(waitList: WaitList, h: Histories, i: nat, cutoff: nat): int
    decreases KeysFrom(h, i)
  {
    if Releasable(h, i, cutoff) then
      KeysFromShrinks(h, i);
      E * Holders(waitList, i) + h[i].amount + Slack(waitList, h, i + 1, cutoff)
    else 0
  }

  lemma {:induction false} SameSlack(waitList: WaitList, h: Histories, h1: Histories, i: nat, cutoff: nat)
    requires h.Keys == h1.Keys
    requires forall b | b in h && i <= b :: h[b] == h1[b]
    ensures Slack(waitList, h, i, cutoff) == Slack(waitList, h1, i, cutoff)
    decreases KeysFrom(h, i)
  {
    if Releasable(h, i, cutoff) {
      KeysFromShrinks(h, i);
      SameSlack(waitList, h, h1, i + 1, cutoff);
    }
  }

  lemma {:induction false} ReleaseBatchesOweLow(
      waitList: WaitList, h: Histories, i: nat, cutoff: nat, total: nat, slashed: SignedInt)
    requires ReleaseBatches(h, i, cutoff, total, slashed).Ok?
    requires forall b | b in h && !h[b].released :: BatchSum(waitList, b) == h[b].amount
    ensures ActualAmounts(NewAmounts(h, i, cutoff), total, slashed).Ok?
    ensures E * SumAmounts(ActualAmounts(NewAmounts(h, i, cutoff), total, slashed).value)
            <= E * (Owed(waitList, ReleaseBatches(h, i, cutoff, total, slashed).value) - Owed(waitList, h))
               + Slack(waitList, h, i, cutoff)
    decreases KeysFrom(h, i)
  {
    hide ActualAmount, UnbondedAmount, Owed, BatchSum, Holders;
    if Releasable(h, i, cutoff) {
      KeysFromShrinks(h, i);
      var b1 := ReleaseBatch(h[i], total, slashed).value;
      var actual := ActualAmount(UnbondedAmount(h[i]), total, slashed).value;
      var h1 := h[i := b1];
      assert KeysFrom(h1, i + 1) == KeysFrom(h, i + 1);
      SameNewAmounts(h, h1, i + 1, cutoff);
      SameSlack(waitList, h, h1, i + 1, cutoff);
      ReleaseOneOwesLow(waitList, h, i, b1, actual);
      ReleaseBatchesOweLow(waitList, h1, i + 1, cutoff, total, slashed);
      assert NewAmounts(h, i, cutoff)[1..] == NewAmounts(h, i + 1, cutoff);
      var rest := ActualAmounts(NewAmounts(h1, i + 1, cutoff), total, slashed).value;
      assert ([actual] + rest)[1..] == rest;
    }
  }

  /** What a release does with the coins that came in since the last payment: the batches get
      parts of the allocation, each fixing its batch's rate, and the debt grows by no more than
      these parts and by no less than they are after rounding. */
  lemma ReleaseHandsOut(s: Storage, cutoff: nat, vaultBalance: nat) returns (actual: seq<nat>)
    requires Lifecycle(s) && Accounted(s) && Solvent(s, vaultBalance)
    requires ProcessWithdrawRate(s, cutoff, vaultBalance).Ok?
    ensures var h, p, first := s.history, ProcessWithdrawRate(s, cutoff, vaultBalance).value, s.state.lastProcessedBatch + 1;
            var us, arrived := NewAmounts(h, first, cutoff), vaultBalance - s.state.prevVaultBalance;
            && |us| == |actual| == p.state.lastProcessedBatch + 1 - first
            && (us != [] ==>
                  ActualAmounts(us, SumAmounts(us), FromSubtraction(SumAmounts(us), arrived)) == Ok(actual))
            && (forall j | 0 <= j < |actual| :: RateOf(h, p.history, first + j, actual[j]))
            && (var grown := Owed(s.waitList, p.history) - Owed(s.waitList, h);
                grown <= SumAmounts(actual) && E * SumAmounts(actual) <= E * grown + Slack(s.waitList, h, first, cutoff))
  {
    hide ReleaseBatches, Owed, BatchSum, ActualAmounts, NewAmounts, ReleaseEnd, TotalUnbonded, Slack, SumAmounts;
    var h, first := s.history, s.state.lastProcessedBatch + 1;
    var total := TotalUnbonded(h, first, cutoff);
    var slashed := FromSubtraction(total, Arrived(s.state, vaultBalance));
    NewAmountsEmpty(h, first, cutoff);
    TotalIsSum(h, first, cutoff);
    if ReleaseEnd(h, first, cutoff) > first {
      ReleasedRates(h, first, cutoff, total, slashed);
      ReleaseBatchesOwe(s.waitList, h, first, cutoff, total, slashed);
      ReleaseBatchesOweLow(s.waitList, h, first, cutoff, total, slashed);
      actual := ActualAmounts(NewAmounts(h, first, cutoff), total, slashed).value;
    } else {
      actual := [];
      NothingReleased(s.waitList, h, first, cutoff);
    }
  }

  lemma NothingReleased(waitList: WaitList, h: Histories, i: nat, cutoff: nat)
    requires ReleaseEnd(h, i, cutoff) <= i
    ensures Slack(waitList, h, i, cutoff) == 0 && SumAmounts([]) == 0
  {
  }

  // ----- every run -----

  /** coins that leave the vault, and what released batches newly owe */
  function PaidIn(w: World, now: nat, op: Op): int {
    if op.Withdraw? then w.balance - Step(w, now, op).balance else 0
  }

  ghost function ReleasedIn(w: World, now: nat, op: Op): int {
    if op.Withdraw? then Owed(w.store.waitList, Step(w, now, op).store.history) - Owed(w.store.waitList, w.store.history)
    else 0
  }

  ghost function PaidOver(w: World, txs: seq<Tx>): int
    decreases |txs|
  {
    if txs == [] then 0
    else PaidIn(w, txs[0].now, txs[0].op) + PaidOver(Step(w, txs[0].now, txs[0].op), txs[1..])
  }

  ghost function ReleasedOver(w: World, txs: seq<Tx>): int
    decreases |txs|
  {
    if txs == [] then 0
    else ReleasedIn(w, txs[0].now, txs[0].op) + ReleasedOver(Step(w, txs[0].now, txs[0].op), txs[1..])
  }

  ghost function ArrivedOver(txs: seq<Tx>): int {
    if txs == [] then 0 else (if txs[0].op.CoinsArrive? then txs[0].op.amount else 0) + ArrivedOver(txs[1..])
  }

  lemma StepSettles(w: World, now: nat, op: Op)
    requires BooksInv(w)
    ensures var w' := Step(w, now, op);
            && Owed(w'.store.waitList, w'.store.history)
               == Owed(w.store.waitList, w.store.history) + ReleasedIn(w, now, op) - PaidIn(w, now, op)
            && w'.balance == w.balance + (if op.CoinsArrive? then op.amount else 0) - PaidIn(w, now, op)
  {
    hide ExecuteWithdrawUnbonded, ExecuteUnbond, ExecuteBond, Slashing, Lifecycle, Accounted, Owed;
    match op
    case Unbond(height, draw, amount, sender, supply, delegations) =>
      if ExecuteUnbond(w.store, now, height, draw, amount, sender, supply, delegations).Ok? {
        UnbondKeeps(w.store, now, height, draw, amount, sender, supply, delegations);
      }
    case Withdraw(sender) =>
      if ExecuteWithdrawUnbonded(w.store, now, sender, w.balance).Ok? {
        WithdrawPaysDebt(w.store, now, sender, w.balance);
      }
    case Bond(payment, supply, delegations) =>
      if ExecuteBond(w.store, payment, supply, delegations).Ok? {
        BondOwesNothing(w.store, payment, supply, delegations);
      }
    case _ =>
  }

  lemma BondOwesNothing(s: Storage, payment: nat, supply: nat, delegations: seq<Delegation>)
    requires ExecuteBond(s, payment, supply, delegations).Ok?
    ensures var s' := ExecuteBond(s, payment, supply, delegations).value.store;
            s'.waitList == s.waitList && s'.history == s.history
  {
    hide Slashing, DecimalDivision, BondFee, UpdateExchangeRate;
  }

  /** Over every run the debt is what releases added less what was paid, and the coins are what
      arrived less what was paid: every coin that leaves the vault settles a claim, and no
      claim goes without a payment. */
  lemma {:induction false} RunSettles(w: World, txs: seq<Tx>)
    requires BooksInv(w)
    ensures var w' := Run(w, txs);
            && Owed(w'.store.waitList, w'.store.history)
               == Owed(w.store.waitList, w.store.history) + ReleasedOver(w, txs) - PaidOver(w, txs)
            && w'.balance == w.balance + ArrivedOver(txs) - PaidOver(w, txs)
    decreases |txs|
  {
    hide BooksInv, Step, Owed, ReleasedIn, PaidIn;
    if txs != [] {
      StepSettles(w, txs[0].now, txs[0].op);
      StepKeepsBooks(w, txs[0].now, txs[0].op);
      RunSettles(Step(w, txs[0].now, txs[0].op), txs[1..]);
    }
  }

  /** From instantiation: what was ever paid is what was ever released less what is still owed. */
  lemma PaidIsReleased(params: Parameters, payment: nat, start: nat, balance: nat, txs: seq<Tx>)
    requires Instantiate(params, payment, start).Ok?
    ensures var w0 := World(Instantiate(params, payment, start).value, balance, start);
            var w := Run(w0, txs);
            && PaidOver(w0, txs) == ReleasedOver(w0, txs) - Owed(w.store.waitList, w.store.history)
            && w.balance == balance + ArrivedOver(txs) - PaidOver(w0, txs)
  {
    var w0 := World(Instantiate(params, payment, start).value, balance, start);
    assert Owed(w0.store.waitList, w0.store.history) == 0;
    hide Instantiate, Run, Owed, PaidOver, ReleasedOver, Lifecycle, Accounted, Solvent;
    StartsSolvent(params, payment, start, balance);
    RunSettles(w0, txs);
  }
}
