/** Solvency of the vault over every run: what released batches still owe never exceeds
    the balance the vault remembers, nor the coins it has. */
module VaultSolvency {
  import opened Addresses
  import opened Results
  import opened FixedPoint
  import opened SignedIntegers
  import opened Sums
  import opened VaultModel
  import opened VaultAllocation
  import opened VaultLifecycle

  // ----- one rate for many holders -----

  lemma {:induction false} SumAtOneRate<K>(s: set<K>, amount: K -> int, rate: nat, paid: K -> int)
    requires forall k | k in s :: amount(k) >= 0 && paid(k) == MulDec(amount(k), rate)
    ensures Sum(s, amount) >= 0
    ensures Sum(s, paid) <= MulDec(Sum(s, amount), rate)
    decreases s
  {
    if s != {} {
      var k :| k in s;
      SumPick(s, k, amount);
      SumPick(s, k, paid);
      SumAtOneRate(s - {k}, amount, rate, paid);
      MulDecSuperadditive(amount(k), Sum(s - {k}, amount), rate);
    }
  }

  ghost function BatchPayout(waitList: WaitList, b: nat, rate: nat): Key -> int {
    (k: Key) => if k.1 == b then MulDec(Waiting(waitList, k), rate) else 0
  }

  /** Releasing one batch adds to the debt at most what the batch is finally worth, because
      its rate and every holder's share of it are both rounded down. */
  lemma ReleaseOneOwes(waitList: WaitList, h: Histories, b: nat, released: UnbondHistory, actual: nat)
    requires b in h && !h[b].released && h[b].amount > 0
    requires BatchSum(waitList, b) == h[b].amount
    requires released.released && released.withdrawRate == Ratio(actual, h[b].amount)
    ensures Owed(waitList, h[b := released]) <= Owed(waitList, h) + actual
  {
    var keys, rate := waitList.Keys, released.withdrawRate;
    var after := h[b := released];
    SumPlus(keys, PayoutOf(waitList, h), BatchPayout(waitList, b, rate), PayoutOf(waitList, after));
    assert MulDec(0, rate) == 0;
    SumAtOneRate(keys, BatchPart(waitList, b), rate, BatchPayout(waitList, b, rate));
    RatioPaysAtMost(actual, h[b].amount);
  }

  lemma {:induction false} TotalIsSum(h: Histories, i: nat, cutoff: nat)
    ensures TotalUnbonded(h, i, cutoff) == SumAmounts(NewAmounts(h, i, cutoff))
    decreases KeysFrom(h, i)
  {
    if Releasable(h, i, cutoff) {
      KeysFromShrinks(h, i);
      TotalIsSum(h, i + 1, cutoff);
      assert NewAmounts(h, i, cutoff)[1..] == NewAmounts(h, i + 1, cutoff);
    }
  }

  lemma {:induction false} NewAmountsEmpty(h: Histories, i: nat, cutoff: nat)
    ensures |NewAmounts(h, i, cutoff)| == ReleaseEnd(h, i, cutoff) - i
    decreases KeysFrom(h, i)
  {
    if Releasable(h, i, cutoff) {
      KeysFromShrinks(h, i);
      NewAmountsEmpty(h, i + 1, cutoff);
    }
  }

  /** The second loop allocates the amounts the first one counted, and the debt grows by no
      more than they are worth together. */
  lemma {:induction false} ReleaseBatchesOwe(
      waitList: WaitList, h: Histories, i: nat, cutoff: nat, total: nat, slashed: SignedInt)
    requires ReleaseBatches(h, i, cutoff, total, slashed).Ok?
    requires forall b | b in h && !h[b].released :: BatchSum(waitList, b) == h[b].amount
    ensures ActualAmounts(NewAmounts(h, i, cutoff), total, slashed).Ok?
    ensures Owed(waitList, ReleaseBatches(h, i, cutoff, total, slashed).value)
            <= Owed(waitList, h) + SumAmounts(ActualAmounts(NewAmounts(h, i, cutoff), total, slashed).value)
    decreases KeysFrom(h, i)
  {
    if Releasable(h, i, cutoff) {
      KeysFromShrinks(h, i);
      var b1 := ReleaseBatch(h[i], total, slashed).value;
      var actual := ActualAmount(UnbondedAmount(h[i]), total, slashed).value;
      var h1 := h[i := b1];
      assert KeysFrom(h1, i + 1) == KeysFrom(h, i + 1);
      SameNewAmounts(h, h1, i + 1, cutoff);
      ReleaseOneOwes(waitList, h, i, b1, actual);
      ReleaseBatchesOwe(waitList, h1, i + 1, cutoff, total, slashed);
      assert NewAmounts(h, i, cutoff)[1..] == NewAmounts(h, i + 1, cutoff);
      var rest := ActualAmounts(NewAmounts(h1, i + 1, cutoff), total, slashed).value;
      assert ([actual] + rest)[1..] == rest;
    }
  }

  // ----- the release -----

  /** What the environment must bring for a release to be fair: the newly finished batches
      fit what arrived for them.  It can be read before the call. */
  ghost predicate FairRelease(s: Storage, cutoff: nat, vaultBalance: nat) {
    Fits(NewAmounts(s.history, s.state.lastProcessedBatch + 1, cutoff), Arrived(s.state, vaultBalance))
  }

  ghost predicate Solvent(s: Storage, balance: nat) {
    && s.state.actualUnbondedAmount == 0
    && Owed(s.waitList, s.history) <= s.state.prevVaultBalance <= balance
  }

  lemma ReleaseSolvent(s: Storage, cutoff: nat, vaultBalance: nat)
    requires Lifecycle(s) && Accounted(s) && Solvent(s, vaultBalance)
    requires FairRelease(s, cutoff, vaultBalance)
    requires ProcessWithdrawRate(s, cutoff, vaultBalance).Ok?
    ensures var s' := ProcessWithdrawRate(s, cutoff, vaultBalance).value;
            Owed(s'.waitList, s'.history) <= vaultBalance
  {
    var first := s.state.lastProcessedBatch + 1;
    var arrived := Arrived(s.state, vaultBalance);
    var total := TotalUnbonded(s.history, first, cutoff);
    var us := NewAmounts(s.history, first, cutoff);
    NewAmountsEmpty(s.history, first, cutoff);
    if us != [] {
      TotalIsSum(s.history, first, cutoff);
      ReleaseBatchesOwe(s.waitList, s.history, first, cutoff, total, FromSubtraction(total, arrived));
      AllocationFitsIff(us, arrived);
    }
  }

  // ----- paying -----

  lemma {:induction false} PayoutsOff(waitList: WaitList, h: Histories, sender: Addr, b: nat, batches: seq<nat>)
    requires b !in batches
    ensures SumPayouts(waitList - {(sender, b)}, h, sender, batches) == SumPayouts(waitList, h, sender, batches)
  {
    if batches != [] {
      PayoutsOff(waitList, h, sender, b, batches[1..]);
    }
  }

  /** the debt falls by exactly what is paid */
  lemma {:induction false} PayingSettles(waitList: WaitList, h: Histories, sender: Addr, batches: seq<nat>)
    requires Distinct(batches)
    ensures Owed(RemoveWaitList(waitList, KeepReleased(h, batches), sender), h)
            == Owed(waitList, h) - SumPayouts(waitList, h, sender, batches)
    decreases |batches|
  {
    if batches != [] {
      var b, rest := batches[0], batches[1..];
      if IsReleased(h, b) {
        var without := waitList - {(sender, b)};
        assert KeepReleased(h, batches) == [b] + KeepReleased(h, rest);
        assert ([b] + KeepReleased(h, rest))[1..] == KeepReleased(h, rest);
        SumUpdate(waitList.Keys, without.Keys, (sender, b), PayoutOf(waitList, h), PayoutOf(without, h));
        PayoutsOff(waitList, h, sender, b, rest);
        PayingSettles(without, h, sender, rest);
      } else {
        assert KeepReleased(h, batches) == KeepReleased(h, rest);
        PayingSettles(waitList, h, sender, rest);
      }
    }
  }

  /** Paying one account out of a covered debt is possible, and leaves the rest covered. */
  lemma PaySolvent(p: Storage, sender: Addr, vaultBalance: nat)
    requires Owed(p.waitList, p.history) <= vaultBalance
    ensures FinishedAmount(p, sender) <= vaultBalance
    ensures Owed(RemoveWaitList(p.waitList, UnbondBatches(p, sender), sender), p.history)
            <= vaultBalance - FinishedAmount(p, sender)
  {
    PayingSettles(p.waitList, p.history, sender, PagedBatches(p.waitList, sender));
    var after := RemoveWaitList(p.waitList, UnbondBatches(p, sender), sender);
    SumNonneg(after.Keys, PayoutOf(after, p.history));
  }

  /** the end of a withdrawal, once the release has been processed */
  lemma PayOut(s: Storage, now: nat, sender: Addr, vaultBalance: nat, p: Storage)
    requires now >= s.params.unbondingPeriod
    requires ProcessWithdrawRate(s, now - s.params.unbondingPeriod, vaultBalance) == Ok(p)
    requires p.state.actualUnbondedAmount == 0
    requires FinishedAmount(p, sender) <= vaultBalance
    requires Owed(RemoveWaitList(p.waitList, UnbondBatches(p, sender), sender), p.history)
             <= vaultBalance - FinishedAmount(p, sender)
    ensures var r := ExecuteWithdrawUnbonded(s, now, sender, vaultBalance);
            && r != Err(VaultShort)
            && (r.Ok? ==>
                  && r.value.store.state.prevVaultBalance == vaultBalance - r.value.paid
                  && Solvent(r.value.store, vaultBalance - r.value.paid))
  {
  }

  lemma PayAfterRelease(s: Storage, cutoff: nat, sender: Addr, vaultBalance: nat, p: Storage)
    requires Lifecycle(s) && Accounted(s) && Solvent(s, vaultBalance)
    requires FairRelease(s, cutoff, vaultBalance)
    requires ProcessWithdrawRate(s, cutoff, vaultBalance) == Ok(p)
    ensures p.state.actualUnbondedAmount == 0
    ensures FinishedAmount(p, sender) <= vaultBalance
    ensures Owed(RemoveWaitList(p.waitList, UnbondBatches(p, sender), sender), p.history)
            <= vaultBalance - FinishedAmount(p, sender)
  {
    ReleaseSolvent(s, cutoff, vaultBalance);
    PaySolvent(p, sender, vaultBalance);
  }

  /** A fair withdrawal never finds the vault short, and leaves it solvent with exactly
      the coins that remain after the payment. */
  lemma WithdrawSolvent(s: Storage, now: nat, sender: Addr, vaultBalance: nat)
    requires Lifecycle(s) && Accounted(s) && Solvent(s, vaultBalance)
    requires now >= s.params.unbondingPeriod ==>
               FairRelease(s, now - s.params.unbondingPeriod, vaultBalance)
    ensures var r := ExecuteWithdrawUnbonded(s, now, sender, vaultBalance);
            && r != Err(VaultShort)
            && (r.Ok? ==>
                  && r.value.store.state.prevVaultBalance == vaultBalance - r.value.paid
                  && Solvent(r.value.store, vaultBalance - r.value.paid))
  {
    if now >= s.params.unbondingPeriod {
      var cutoff := now - s.params.unbondingPeriod;
      match ProcessWithdrawRate(s, cutoff, vaultBalance)
      case Ok(p) =>
        PayAfterRelease(s, cutoff, sender, vaultBalance, p);
        PayOut(s, now, sender, vaultBalance, p);
      case Err(_) =>
        ReleaseNeverShort(s, cutoff, vaultBalance);
    }
  }

  lemma {:induction false} ReleaseBatchesNeverShort(h: Histories, i: nat, cutoff: nat, total: nat, slashed: SignedInt)
    ensures ReleaseBatches(h, i, cutoff, total, slashed) != Err(VaultShort)
    decreases KeysFrom(h, i)
  {
    if Releasable(h, i, cutoff) && ReleaseBatch(h[i], total, slashed).Ok? {
      var h1 := h[i := ReleaseBatch(h[i], total, slashed).value];
      KeysFromShrinks(h, i);
      assert KeysFrom(h1, i + 1) == KeysFrom(h, i + 1);
      ReleaseBatchesNeverShort(h1, i + 1, cutoff, total, slashed);
    }
  }

  lemma ReleaseNeverShort(s: Storage, cutoff: nat, vaultBalance: nat)
    ensures ProcessWithdrawRate(s, cutoff, vaultBalance) != Err(VaultShort)
  {
    var first := s.state.lastProcessedBatch + 1;
    var total := TotalUnbonded(s.history, first, cutoff);
    ReleaseBatchesNeverShort(s.history, first, cutoff, total,
                             FromSubtraction(total, Arrived(s.state, vaultBalance)));
  }

  // ----- every run -----

  /** the vault's storage, the coins it holds, and the time of the last block */
  datatype World = World(store: Storage, balance: nat, now: nat)

  datatype Op =
    | Bond(payment: nat, supply: nat, delegations: seq<Delegation>)
    | Unbond(height: nat, draw: nat -> nat, amount: nat, sender: Addr, supply: nat, delegations: seq<Delegation>)
    | CheckSlashing(supply: nat, delegations: seq<Delegation>)
    | Withdraw(sender: Addr)
    | SetParams(params: Parameters)
    | CoinsArrive(amount: nat)

  /** One transaction at time `now`; a failing one changes nothing.  Bonded coins are
      delegated in the same transaction, and undelegated coins arrive as `CoinsArrive`. */
  function Step(w: World, now: nat, op: Op): World {
    var w := w.(now := now);
    match op
    case Bond(payment, supply, delegations) =>
      (match ExecuteBond(w.store, payment, supply, delegations)
       case Ok(o) => w.(store := o.store)
       case Err(_) => w)
    case Unbond(height, draw, amount, sender, supply, delegations) =>
      (match ExecuteUnbond(w.store, now, height, draw, amount, sender, supply, delegations)
       case Ok(o) => w.(store := o.store)
       case Err(_) => w)
    case CheckSlashing(supply, delegations) =>
      w.(store := w.store.(state := Slashing(w.store.state, w.store.batch, delegations, supply)))
    case Withdraw(sender) =>
      (match ExecuteWithdrawUnbonded(w.store, now, sender, w.balance)
       case Ok(o) => World(o.store, w.balance - o.paid, now)
       case Err(_) => w)
    case SetParams(params) =>
      (match UpdateParams(w.store, params)
       case Ok(s) => w.(store := s)
       case Err(_) => w)
    case CoinsArrive(amount) => w.(balance := w.balance + amount)
  }

  datatype Tx = Tx(now: nat, op: Op)

  function Run(w: World, txs: seq<Tx>): World
    decreases |txs|
  {
    if txs == [] then w else Run(Step(w, txs[0].now, txs[0].op), txs[1..])
  }

  ghost predicate Fair(w: World, now: nat, op: Op) {
    op.Withdraw? && now >= w.store.params.unbondingPeriod ==>
      FairRelease(w.store, now - w.store.params.unbondingPeriod, w.balance)
  }

  /** every release of the run is fair when it happens */
  ghost predicate FairRun(w: World, txs: seq<Tx>)
    decreases |txs|
  {
    txs != [] ==> Fair(w, txs[0].now, txs[0].op) && FairRun(Step(w, txs[0].now, txs[0].op), txs[1..])
  }

  ghost predicate VaultInv(w: World) {
    Lifecycle(w.store) && Accounted(w.store) && Solvent(w.store, w.balance)
  }

  lemma UnbondStep(w: World, now: nat, op: Op)
    requires op.Unbond? && VaultInv(w)
    ensures VaultInv(Step(w, now, op))
  {
    var Unbond(height, draw, amount, sender, supply, delegations) := op;
    if ExecuteUnbond(w.store, now, height, draw, amount, sender, supply, delegations).Ok? {
      UnbondKeeps(w.store, now, height, draw, amount, sender, supply, delegations);
    }
  }

  lemma WithdrawStep(w: World, now: nat, op: Op)
    requires op.Withdraw? && VaultInv(w) && Fair(w, now, op)
    ensures VaultInv(Step(w, now, op))
  {
    WithdrawSolvent(w.store, now, op.sender, w.balance);
    if ExecuteWithdrawUnbonded(w.store, now, op.sender, w.balance).Ok? {
      WithdrawKeeps(w.store, now, op.sender, w.balance);
    }
  }

  /** every transaction keeps lifecycle, books and solvency */
  lemma StepKeeps(w: World, now: nat, op: Op)
    requires VaultInv(w) && Fair(w, now, op)
    ensures VaultInv(Step(w, now, op))
  {
    hide ExecuteUnbond, ExecuteWithdrawUnbonded, DecimalDivision, Owed, BatchSum;
    match op
    case Bond(payment, supply, delegations) =>
    case Unbond(_, _, _, _, _, _) => UnbondStep(w, now, op);
    case CheckSlashing(supply, delegations) =>
    case Withdraw(sender) => WithdrawStep(w, now, op);
    case SetParams(params) =>
    case CoinsArrive(amount) =>
  }

  // ----- lifecycle, with or without fair releases -----

  ghost predicate BooksInv(w: World) {
    Lifecycle(w.store) && Accounted(w.store)
  }

  lemma StepKeepsBooks(w: World, now: nat, op: Op)
    requires BooksInv(w)
    ensures BooksInv(Step(w, now, op))
  {
    hide ExecuteWithdrawUnbonded, ExecuteUnbond, PickUnbondValidator, BatchSum;
    match op
    case Bond(payment, supply, delegations) =>
    case Unbond(height, draw, amount, sender, supply, delegations) =>
      if ExecuteUnbond(w.store, now, height, draw, amount, sender, supply, delegations).Ok? {
        UnbondKeeps(w.store, now, height, draw, amount, sender, supply, delegations);
      }
    case CheckSlashing(supply, delegations) =>
    case Withdraw(sender) =>
      if ExecuteWithdrawUnbonded(w.store, now, sender, w.balance).Ok? {
        WithdrawKeeps(w.store, now, sender, w.balance);
      }
    case SetParams(params) =>
    case CoinsArrive(amount) =>
  }

  lemma {:induction false} RunKeepsBooks(w: World, txs: seq<Tx>)
    requires BooksInv(w)
    ensures BooksInv(Run(w, txs))
    decreases |txs|
  {
    hide BooksInv, Step;
    if txs != [] {
      StepKeepsBooks(w, txs[0].now, txs[0].op);
      RunKeepsBooks(Step(w, txs[0].now, txs[0].op), txs[1..]);
    }
  }

  /** The batch lifecycle over every run, whatever releases bring: histories exist exactly for
      the closed batches, in strictly increasing time; the released ones are exactly a prefix;
      and the wait list adds up to the open batch, to each unreleased one, and to no more than
      each released one. */
  lemma LifecycleOverRuns(params: Parameters, payment: nat, start: nat, balance: nat, txs: seq<Tx>)
    requires Instantiate(params, payment, start).Ok?
    ensures var s := Run(World(Instantiate(params, payment, start).value, balance, start), txs).store;
            && (forall b :: b in s.history <==> 1 <= b < s.batch.id)
            && (forall b | b in s.history :: s.history[b].released <==> b <= s.state.lastProcessedBatch)
            && (forall a, b | a in s.history && b in s.history && a < b :: s.history[a].time < s.history[b].time)
            && BatchSum(s.waitList, s.batch.id) == s.batch.requestedWithFee
            && (forall b | b in s.history :: BatchSum(s.waitList, b) <= s.history[b].amount)
            && (forall b | b in s.history && !s.history[b].released :: BatchSum(s.waitList, b) == s.history[b].amount)
  {
    hide Run, Instantiate, BatchSum, Solvent;
    StartsSolvent(params, payment, start, balance);
    RunKeepsBooks(World(Instantiate(params, payment, start).value, balance, start), txs);
  }

  lemma {:induction false} RunKeeps(w: World, txs: seq<Tx>)
    requires VaultInv(w) && FairRun(w, txs)
    ensures VaultInv(Run(w, txs))
    decreases |txs|
  {
    if txs != [] {
      StepKeeps(w, txs[0].now, txs[0].op);
      RunKeeps(Step(w, txs[0].now, txs[0].op), txs[1..]);
    }
  }

  lemma StartsSolvent(params: Parameters, payment: nat, now: nat, balance: nat)
    requires Instantiate(params, payment, now).Ok?
    ensures VaultInv(World(Instantiate(params, payment, now).value, balance, now))
  {
  }

  /** Safety over all runs: from instantiation, through any interleaving of bonds, unbonds,
      slashing, parameter changes, arrivals and fair withdrawals, no withdrawal is refused
      because the vault lacks coins, and the coins cover every claim on released batches. */
  lemma VaultAlwaysPays(params: Parameters, payment: nat, start: nat, balance: nat, txs: seq<Tx>, now: nat, sender: Addr)
    requires Instantiate(params, payment, start).Ok?
    requires FairRun(World(Instantiate(params, payment, start).value, balance, start), txs)
    ensures var w := Run(World(Instantiate(params, payment, start).value, balance, start), txs);
            && Owed(w.store.waitList, w.store.history) <= w.store.state.prevVaultBalance <= w.balance
            && (Fair(w, now, Withdraw(sender)) ==>
                  ExecuteWithdrawUnbonded(w.store, now, sender, w.balance) != Err(VaultShort))
  {
    hide Instantiate, Run, ExecuteWithdrawUnbonded, FairRelease, Owed, Lifecycle, Accounted;
    var w0 := World(Instantiate(params, payment, start).value, balance, start);
    StartsSolvent(params, payment, start, balance);
    RunKeeps(w0, txs);
    var w := Run(w0, txs);
    if Fair(w, now, Withdraw(sender)) {
      WithdrawSolvent(w.store, now, sender, w.balance);
    }
  }

  // ----- the side condition is needed -----

  /** a vault with ten coins bonded, of which one account unbonds two in the next second */
  function TwoUnbonded(draw: nat -> nat): World {
    Run(World(Instantiate(Parameters(0, 0, 0, 0), 10, 0).value, 0, 0),
        [Tx(1, Unbond(0, draw, 2, 7, 10, [Delegation(0, 10, true)]))])
  }

  /** the storage it ends up with: the batch is closed, and its coins are under way */
  function TwoClosed(): Storage {
    Storage(
      Parameters(0, 0, 0, 0),
      State(E, 8, 0, 0, 1, 0),
      CurrentBatch(2, 0),
      map[(7, 1) := 2],
      map[1 := UnbondHistory(1, 1, 2, E, E, false)])
  }

  lemma TwoJoin()
    ensures var s0 := Instantiate(Parameters(0, 0, 0, 0), 10, 0).value;
            JoinBatch(s0, 2, 7, 10, [Delegation(0, 10, true)])
            == Ok((s0.(batch := CurrentBatch(1, 2), waitList := map[(7, 1) := 2]), 2))
  {
    var none: seq<Delegation> := [];
    var all := [Delegation(0, 10, true)];
    assert all[1..] == none && BondedAmount(none) == 0 && BondedAmount(all) == 10;
    assert Ratio(10, 10) == E;
    var empty: WaitList := map[];
    assert StoreWaitList(empty, 1, 7, 2) == map[(7, 1) := 2];
  }

  lemma TwoUndelegated(draw: nat -> nat)
    ensures PickUnbondValidator([Delegation(0, 10, true)], 2, 0, 0, draw) == Some([Undelegation(0, 2)])
  {
    var all := [Delegation(0, 10, true)];
    assert Drawn(draw, 0, 1) == 0;
    var none: seq<Undelegation> := [];
    assert PickUnbondValidator(Without(all, 0), 0, 0, 1, draw) == Some(none);
    assert [Undelegation(0, 2)] + none == [Undelegation(0, 2)];
  }

  lemma TwoUnbondedIs(draw: nat -> nat)
    ensures Instantiate(Parameters(0, 0, 0, 0), 10, 0).Ok?
    ensures TwoUnbonded(draw) == World(TwoClosed(), 0, 1)
    ensures VaultInv(TwoUnbonded(draw))
  {
    var s0, all := Instantiate(Parameters(0, 0, 0, 0), 10, 0).value, [Delegation(0, 10, true)];
    var op := Unbond(0, draw, 2, 7, 10, all);
    StartsSolvent(Parameters(0, 0, 0, 0), 10, 0, 0);
    UnbondStep(World(s0, 0, 0), 1, op);
    TwoJoin();
    TwoUndelegated(draw);
    hide JoinBatch, PickUnbondValidator, VaultInv;
    assert MulDec(2, E) == 2;
    assert ExecuteUnbond(s0, 1, 0, draw, 2, 7, 10, all) == Ok(UnbondOutcome(TwoClosed(), [Undelegation(0, 2)], 2, 2));
    hide ExecuteUnbond;
    var w := Step(World(s0, 0, 0), 1, op);
    assert [Tx(1, op)][1..] == [];
    assert Run(w, []) == w;
  }

  /** with nothing arrived, the slashed value of the batch is two less three, taken as one */
  lemma TwoReleased()
    ensures var s := TwoClosed();
            && NewAmounts(s.history, 1, 1) == [2]
            && ProcessWithdrawRate(s, 1, 0)
               == Ok(s.(history := map[1 := s.history[1].(withdrawRate := E / 2, released := true)],
                        state := s.state.(lastProcessedBatch := 1)))
  {
    var s := TwoClosed();
    var h := s.history;
    var released := h[1].(withdrawRate := E / 2, released := true);
    assert UnbondedAmount(h[1]) == 2;
    assert ReleaseEnd(h, 2, 1) == 2 && TotalUnbonded(h, 2, 1) == 0;
    assert Ratio(2, 2) == E && MulDec(2, E) == 2 && Ratio(1, 2) == E / 2;
    var slashed := FromSubtraction(2, 0);
    assert ReleaseBatch(h[1], 2, slashed) == Ok(released);
    ReleaseRound(h, 1, 1, 2, slashed, released);
    assert h[1 := released] == map[1 := released];
    var none: seq<nat> := [];
    assert NewAmounts(h, 2, 1) == none && [2] + none == [2];
  }

  lemma OneEntryPaid(p: Storage, sender: Addr, b: nat)
    requires p.waitList.Keys == {(sender, b)} && IsReleased(p.history, b)
    ensures FinishedAmount(p, sender) == Payout(p.waitList, p.history, (sender, b))
  {
    var all := set k | k in p.waitList.Keys && k.0 == sender :: k.1;
    var key: Key := (sender, b);
    assert key in p.waitList.Keys;
    assert all == {b};
    var q := Ascending(all);
    assert |q| == 1 && q[0] in q;
    assert PagedBatches(p.waitList, sender) == [b];
    var none: seq<nat> := [];
    assert [b][1..] == none;
    assert SumPayouts(p.waitList, p.history, sender, none) == 0;
    assert SumPayouts(p.waitList, p.history, sender, [b]) == Payout(p.waitList, p.history, (sender, b));
  }

  lemma TwoRefused()
    ensures ExecuteWithdrawUnbonded(TwoClosed(), 1, 7, 0) == Err(VaultShort)
  {
    hide ProcessWithdrawRate, FinishedAmount, UnbondBatches;
    TwoReleased();
    var p := ProcessWithdrawRate(TwoClosed(), 1, 0).value;
    OneEntryPaid(p, 7, 1);
    assert MulDec(2, E / 2) == 1;
  }

  /** A run from instantiation after which the withdrawal is refused for lack of coins, the
      release not being fair: nothing has arrived yet for the batch, and its value is taken
      of a negative difference. */
  lemma UnfairReleaseFallsShort(draw: nat -> nat)
    ensures Instantiate(Parameters(0, 0, 0, 0), 10, 0).Ok?
    ensures VaultInv(TwoUnbonded(draw)) && !Fair(TwoUnbonded(draw), 1, Withdraw(7))
    ensures ExecuteWithdrawUnbonded(TwoUnbonded(draw).store, 1, 7, TwoUnbonded(draw).balance) == Err(VaultShort)
  {
    hide TwoUnbonded, ExecuteWithdrawUnbonded, Lifecycle, Accounted, Solvent, FairRelease;
    TwoUnbondedIs(draw);
    TwoRefused();
    if Fair(TwoUnbonded(draw), 1, Withdraw(7)) {
      WithdrawSolvent(TwoClosed(), 1, 7, 0);
    }
  }

  // ----- each entry is paid at most once -----

  ghost predicate ClosedAndGone(w: World, key: Key) {
    key.1 < w.store.batch.id && key !in w.store.waitList
  }

  lemma GoneStays(w: World, now: nat, op: Op, key: Key)
    requires BooksInv(w) && ClosedAndGone(w, key)
    ensures ClosedAndGone(Step(w, now, op), key)
  {
    hide ExecuteWithdrawUnbonded, Lifecycle, Accounted, Solvent, PickUnbondValidator, Slashing;
    match op
    case Bond(payment, supply, delegations) =>
    case Unbond(height, draw, amount, sender, supply, delegations) =>
    case CheckSlashing(supply, delegations) =>
    case Withdraw(sender) =>
      if ExecuteWithdrawUnbonded(w.store, now, sender, w.balance).Ok? {
        WithdrawKeeps(w.store, now, sender, w.balance);
      }
    case SetParams(params) =>
    case CoinsArrive(amount) =>
  }

  /** Once an entry of a closed batch has been paid and taken off, no run brings it back:
      nothing further can ever be paid for it. */
  lemma {:induction false} PaidAtMostOnce(w: World, txs: seq<Tx>, key: Key)
    requires BooksInv(w) && ClosedAndGone(w, key)
    ensures ClosedAndGone(Run(w, txs), key)
    ensures Payout(Run(w, txs).store.waitList, Run(w, txs).store.history, key) == 0
    decreases |txs|
  {
    if txs != [] {
      GoneStays(w, txs[0].now, txs[0].op, key);
      StepKeepsBooks(w, txs[0].now, txs[0].op);
      PaidAtMostOnce(Step(w, txs[0].now, txs[0].op), txs[1..], key);
    }
  }
}
