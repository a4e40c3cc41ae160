/** The pace of undelegation: over every run, batches are closed more than an epoch apart. */
module VaultEpochs {
  import opened Addresses
  import opened Results
  import opened SignedIntegers
  import opened VaultModel
  import opened VaultLifecycle
  import opened VaultSolvency
  import opened VaultPricing

  /** when a batch was closed; before the first one, when the vault was started */
  function ClosedAt(h: Histories, b: nat, start: nat): nat {
    if b in h then h[b].time else start
  }

  /** a closed batch was closed more than `period` after the one before it */
  predicate AfterEpoch(h: Histories, b: nat, start: nat, period: nat) {
    b in h && b >= 1 ==> h[b].time > ClosedAt(h, b - 1, start) + period
  }

  /** every closed batch was closed more than `period` after the one before it, and the vault
      remembers when the last one was */
  ghost predicate Apart(s: Storage, start: nat, period: nat) {
    && s.batch.id >= 1 && s.state.lastUnbondedTime == ClosedAt(s.history, s.batch.id - 1, start)
    && forall b: nat :: AfterEpoch(s.history, b, start, period)
  }

  /** what the pace depends on stays as it is */
  predicate SamePace(s: Storage, s': Storage) {
    && s'.batch.id == s.batch.id && s'.state.lastUnbondedTime == s.state.lastUnbondedTime
    && s'.history.Keys == s.history.Keys && forall b | b in s.history :: s'.history[b].time == s.history[b].time
  }

  lemma SamePaceApart(s: Storage, s': Storage, start: nat, period: nat)
    requires Apart(s, start, period) && SamePace(s, s')
    ensures Apart(s', start, period)
  {
    forall b: nat ensures AfterEpoch(s'.history, b, start, period) {
      assert AfterEpoch(s.history, b, start, period);
    }
  }

  lemma WithdrawPace(s: Storage, now: nat, sender: Addr, vaultBalance: nat)
    requires ExecuteWithdrawUnbonded(s, now, sender, vaultBalance).Ok?
    ensures SamePace(s, ExecuteWithdrawUnbonded(s, now, sender, vaultBalance).value.store)
  {
    WithdrawForm(s, now, sender, vaultBalance);
    hide ExecuteWithdrawUnbonded;
    ReleasePace(s, now - s.params.unbondingPeriod, vaultBalance);
  }

  lemma ReleasePace(s: Storage, cutoff: nat, vaultBalance: nat)
    requires ProcessWithdrawRate(s, cutoff, vaultBalance).Ok?
    ensures SamePace(s, ProcessWithdrawRate(s, cutoff, vaultBalance).value)
  {
    hide ReleaseBatches, TotalUnbonded;
    var first := s.state.lastProcessedBatch + 1;
    var end, total := ReleaseEnd(s.history, first, cutoff), TotalUnbonded(s.history, first, cutoff);
    var p := ProcessWithdrawRate(s, cutoff, vaultBalance).value;
    if end > first {
      ReleaseBatchesFrame(s.history, first, cutoff, total, FromSubtraction(total, Arrived(s.state, vaultBalance)));
      forall b | b in s.history ensures p.history[b].time == s.history[b].time {
        if first <= b < end {
          assert p.history[b].(withdrawRate := 0, released := false)
                 == s.history[b].(withdrawRate := 0, released := false);
        }
      }
    }
  }

  lemma UnbondPace(w: World, now: nat, op: Op, start: nat, period: nat)
    requires BooksInv(w) && Apart(w.store, start, period) && period <= w.store.params.epochPeriod && op.Unbond?
    ensures Apart(Step(w, now, op).store, start, period)
  {
    var Unbond(height, draw, amount, sender, supply, delegations) := op;
    var s, r := w.store, ExecuteUnbond(w.store, now, height, draw, amount, sender, supply, delegations);
    if r.Ok? {
      EpochCloses(s, now, height, draw, amount, sender, supply, delegations);
      JoinPace(s, amount, sender, supply, delegations);
      hide ExecuteUnbond, JoinBatch, UndelegateBatch, Accounted;
      var s1 := JoinBatch(s, amount, sender, supply, delegations).value.0;
      SamePaceApart(s, s1, start, period);
      if now - s.state.lastUnbondedTime > s.params.epochPeriod {
        CloseRecords(s1, now, height, draw, delegations);
        ClosedApart(s1, r.value.store, now, start, period);
      }
    }
  }

  lemma JoinPace(s: Storage, amount: nat, sender: Addr, supply: nat, delegations: seq<Delegation>)
    requires JoinBatch(s, amount, sender, supply, delegations).Ok?
    ensures var s1 := JoinBatch(s, amount, sender, supply, delegations).value.0;
            SamePace(s, s1) && s1.history == s.history
  {
    hide UnbondFee, BondedAmount;
  }

  lemma ClosedApart(s: Storage, s': Storage, now: nat, start: nat, period: nat)
    requires Apart(s, start, period) && now > s.state.lastUnbondedTime + period
    requires s.batch.id >= 1 && s.batch.id in s'.history && s'.history == s.history[s.batch.id := s'.history[s.batch.id]]
    requires forall b | b in s.history :: b < s.batch.id
    requires s'.history[s.batch.id].time == now == s'.state.lastUnbondedTime && s'.batch.id == s.batch.id + 1
    ensures Apart(s', start, period)
  {
    forall b: nat ensures AfterEpoch(s'.history, b, start, period) {
      assert AfterEpoch(s.history, b, start, period);
    }
  }

  lemma StepApart(w: World, now: nat, op: Op, start: nat, period: nat)
    requires BooksInv(w) && Apart(w.store, start, period) && period <= w.store.params.epochPeriod
    ensures Apart(Step(w, now, op).store, start, period)
  {
    if op.Unbond? {
      UnbondPace(w, now, op, start, period);
    } else {
      hide *;
      OtherPace(w, now, op);
      SamePaceApart(w.store, Step(w, now, op).store, start, period);
    }
  }

  lemma OtherPace(w: World, now: nat, op: Op)
    requires !op.Unbond?
    ensures SamePace(w.store, Step(w, now, op).store)
  {
    hide ExecuteWithdrawUnbonded, ExecuteUnbond, ExecuteBond, Slashing;
    match op
    case Withdraw(sender) =>
      if ExecuteWithdrawUnbonded(w.store, now, sender, w.balance).Ok? {
        WithdrawPace(w.store, now, sender, w.balance);
      }
    case Bond(payment, supply, delegations) =>
      if ExecuteBond(w.store, payment, supply, delegations).Ok? {
        BondPace(w.store, payment, supply, delegations);
      }
    case CheckSlashing(supply, delegations) =>
      SlashingAdopts(w.store.state, w.store.batch, delegations, supply);
    case _ =>
  }

  lemma BondPace(s: Storage, payment: nat, supply: nat, delegations: seq<Delegation>)
    requires ExecuteBond(s, payment, supply, delegations).Ok?
    ensures SamePace(s, ExecuteBond(s, payment, supply, delegations).value.store)
  {
    SlashingAdopts(s.state, s.batch, delegations, supply);
    hide Slashing, DecimalDivision, BondFee;
  }

  /** no parameters of the run allow an epoch shorter than `period` */
  ghost predicate EpochsAtLeast(w: World, txs: seq<Tx>, period: nat)
    decreases |txs|
  {
    && period <= w.store.params.epochPeriod
    && (txs != [] ==> EpochsAtLeast(Step(w, txs[0].now, txs[0].op), txs[1..], period))
  }

  lemma {:induction false} RunApart(w: World, txs: seq<Tx>, start: nat, period: nat)
    requires BooksInv(w) && Apart(w.store, start, period) && EpochsAtLeast(w, txs, period)
    ensures Apart(Run(w, txs).store, start, period)
    decreases |txs|
  {
    hide BooksInv, Step, Apart;
    if txs != [] {
      StepApart(w, txs[0].now, txs[0].op, start, period);
      StepKeepsBooks(w, txs[0].now, txs[0].op);
      RunApart(Step(w, txs[0].now, txs[0].op), txs[1..], start, period);
    }
  }

  /** Over every run whose epochs last at least `period`, the first batch is closed more than
      that after the start, and every later one more than that after the one before it. */
  lemma EpochsApart(params: Parameters, payment: nat, start: nat, balance: nat, txs: seq<Tx>, period: nat, b: nat)
    requires Instantiate(params, payment, start).Ok?
    requires EpochsAtLeast(World(Instantiate(params, payment, start).value, balance, start), txs, period)
    requires b in Run(World(Instantiate(params, payment, start).value, balance, start), txs).store.history
    ensures var h := Run(World(Instantiate(params, payment, start).value, balance, start), txs).store.history;
            && b >= 1
            && (b == 1 ==> h[b].time > start + period)
            && (b > 1 ==> b - 1 in h && h[b].time > h[b - 1].time + period)
  {
    var w := World(Instantiate(params, payment, start).value, balance, start);
    assert Apart(w.store, start, period);
    hide Run, Instantiate, EpochsAtLeast, Accounted, Solvent;
    StartsSolvent(params, payment, start, balance);
    RunApart(w, txs, start, period);
    RunKeepsBooks(w, txs);
    assert Lifecycle(Run(w, txs).store) && AfterEpoch(Run(w, txs).store.history, b, start, period);
  }
}
