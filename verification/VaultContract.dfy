/** The vault contract in place: its storage items are fields, its calls are methods, and
    each method does exactly what `VaultModel` says of the stored values.  A failing call
    leaves the storage as it found it, as an aborted transaction does. */
module VaultContract {
  import opened Addresses
  import opened Results
  import opened FixedPoint
  import opened SignedIntegers
  import Model = VaultModel

  ghost function Prepended(messages: seq<Model.Undelegation>, rest: Option<seq<Model.Undelegation>>)
    : Option<seq<Model.Undelegation>>
  {
    if rest.Some? then Some(messages + rest.value) else None
  }

  /** `pick_unbond_validator`: removes drawn delegations until the claim is covered */
  method PickUnbondValidator(
      delegations: seq<Model.Delegation>, claim: nat, height: nat, draw: nat -> nat)
    returns (r: Option<seq<Model.Undelegation>>)
    ensures r == Model.PickUnbondValidator(delegations, claim, height, 0, draw)
  {
    hide Model.Drawn, Model.Without;
    var messages: seq<Model.Undelegation> := [];
    var claimed: nat := claim;
    var iteration: nat := 0;
    var deletable := delegations;
    ghost var whole := Model.PickUnbondValidator(delegations, claim, height, 0, draw);
    assert whole.Some? ==> messages + whole.value == whole.value;
    while claimed > 0
      invariant |deletable| + iteration == |delegations|
      invariant whole == Prepended(messages, Model.PickUnbondValidator(deletable, claimed, height, iteration, draw))
      decreases |deletable|
    {
      if deletable == [] {
        return None;
      }
      var index := Model.Drawn(draw, height + iteration, |deletable|);
      var delegation := deletable[index];
      deletable := Model.Without(deletable, index);
      var undelegated: nat;
      if delegation.amount > claimed {
        undelegated := claimed;
        claimed := 0;
      } else {
        undelegated := delegation.amount;
        claimed := claimed - delegation.amount;
      }
      ghost var rest := Model.PickUnbondValidator(deletable, claimed, height, iteration + 1, draw);
      if undelegated > 0 {
        var message := [Model.Undelegation(delegation.validator, undelegated)];
        assert rest.Some? ==> messages + (message + rest.value) == messages + message + rest.value;
        messages := messages + message;
      }
      iteration := iteration + 1;
    }
    assert messages + [] == messages;
    return Some(messages);
  }

  class Vault {
    var params: Model.Parameters
    var state: Model.State
    var batch: Model.CurrentBatch
    var waitList: Model.WaitList
    var history: Model.Histories

    ghost function Store(): Model.Storage
      reads this
    {
      Model.Storage(params, state, batch, waitList, history)
    }

    constructor (params: Model.Parameters, payment: nat, now: nat)
      requires Model.Instantiate(params, payment, now).Ok?
      ensures Store() == Model.Instantiate(params, payment, now).value
    {
      this.params := params;
      state := Model.State(E, payment, 0, 0, now, 0);
      batch := Model.CurrentBatch(1, 0);
      waitList := map[];
      history := map[];
    }

    method UpdateParams(newParams: Model.Parameters) returns (r: Result<(), Model.Error>)
      modifies `params
      ensures match Model.UpdateParams(old(Store()), newParams)
              case Ok(s) => r.Ok? && Store() == s
              case Err(e) => r == Err(e) && Store() == old(Store())
    {
      if newParams.pegRecoveryFee > E || newParams.erThreshold > E {
        return Err(Model.RateOutOfRange);
      }
      params := newParams;
      return Ok(());
    }

    /** `slashing`: adds up the delegations and adopts a smaller total */
    method Slashing(st: Model.State, delegations: seq<Model.Delegation>, supply: nat)
      returns (after: Model.State)
      ensures after == Model.Slashing(st, batch, delegations, supply)
    {
      after := st;
      if delegations != [] {
        var bonded := 0;
        var i := 0;
        while i < |delegations|
          invariant i <= |delegations|
          invariant bonded + Model.BondedAmount(delegations[i..]) == Model.BondedAmount(delegations)
        {
          if delegations[i].underlying {
            bonded := bonded + delegations[i].amount;
          }
          assert delegations[i..][1..] == delegations[i + 1..];
          i := i + 1;
        }
        if after.totalBondAmount > bonded {
          after := after.(totalBondAmount := bonded);
          after := Model.UpdateExchangeRate(after, supply, batch.requestedWithFee);
        }
      }
    }

    method CheckSlashing(delegations: seq<Model.Delegation>, supply: nat)
      modifies `state
      ensures Store() == old(Store()).(
                state := Model.Slashing(old(state), old(batch), delegations, supply))
    {
      state := Slashing(state, delegations, supply);
    }

    method ExecuteBond(payment: nat, supply: nat, delegations: seq<Model.Delegation>)
      returns (r: Result<nat, Model.Error>)
      modifies `state
      ensures match Model.ExecuteBond(old(Store()), payment, supply, delegations)
              case Ok(o) => r == Ok(o.minted) && Store() == o.store
              case Err(e) => r == Err(e) && Store() == old(Store())
    {
      if payment == 0 {
        return Err(Model.ZeroPayment);
      }
      var st := Slashing(state, delegations, supply);
      var totalSupply := supply;
      var division := Model.DecimalDivision(payment, st.exchangeRate);
      if division.Err? {
        return Err(division.error);
      }
      var mint := division.value;
      var mintWithFee := mint;
      if st.exchangeRate < params.erThreshold {
        var maxFee := MulDec(mint, params.pegRecoveryFee);
        if totalSupply + mint + batch.requestedWithFee < st.totalBondAmount + payment {
          return Err(Model.PegFeeUnderflow);
        }
        var required := totalSupply + mint + batch.requestedWithFee - (st.totalBondAmount + payment);
        var fee := Min(maxFee, required);
        if mint < fee {
          return Err(Model.PegFeeUnderflow);
        }
        mintWithFee := mint - fee;
      }
      totalSupply := totalSupply + mintWithFee;
      st := st.(totalBondAmount := st.totalBondAmount + payment);
      st := Model.UpdateExchangeRate(st, totalSupply, batch.requestedWithFee);
      state := st;
      return Ok(mintWithFee);
    }

    /** Returns the undelegation messages and the amount that joined the batch. */
    method ExecuteUnbond(
        now: nat, height: nat, draw: nat -> nat,
        amount: nat, sender: Addr, supply: nat, delegations: seq<Model.Delegation>)
      returns (r: Result<(seq<Model.Undelegation>, nat), Model.Error>)
      modifies this
      ensures match Model.ExecuteUnbond(old(Store()), now, height, draw, amount, sender, supply, delegations)
              case Ok(o) => r == Ok((o.undelegations, o.unbonded)) && Store() == o.store
              case Err(e) => r == Err(e) && Store() == old(Store())
    {
      hide Model.PickUnbondValidator, Model.Slashing;
      var currentBatch := batch;
      var st := Slashing(state, delegations, supply);
      var withFee := amount;
      if st.exchangeRate < params.erThreshold {
        var maxFee := MulDec(amount, params.pegRecoveryFee);
        if supply + currentBatch.requestedWithFee < st.totalBondAmount {
          return Err(Model.PegFeeUnderflow);
        }
        var required := supply + currentBatch.requestedWithFee - st.totalBondAmount;
        var fee := Min(maxFee, required);
        if amount < fee {
          return Err(Model.PegFeeUnderflow);
        }
        withFee := amount - fee;
      }
      currentBatch := currentBatch.(requestedWithFee := currentBatch.requestedWithFee + withFee);
      if supply < amount {
        return Err(Model.SupplyUnderflow);
      }
      st := Model.UpdateExchangeRate(st, supply - amount, currentBatch.requestedWithFee);
      if now < st.lastUnbondedTime {
        return Err(Model.ClockUnderflow);
      }
      var messages: seq<Model.Undelegation> := [];
      var histories := history;
      if now - st.lastUnbondedTime > params.epochPeriod {
        var undelegation := MulDec(currentBatch.requestedWithFee, st.exchangeRate);
        if undelegation == 1 {
          return Err(Model.BurnTooSmall);
        }
        var picked := PickUnbondValidator(delegations, undelegation, height, draw);
        if picked.None? {
          return Err(Model.NoDelegationLeft);
        }
        messages := picked.value;
        if st.totalBondAmount < undelegation {
          return Err(Model.BondUnderflow);
        }
        st := st.(totalBondAmount := st.totalBondAmount - undelegation);
        var closed := Model.UnbondHistory(
          currentBatch.id, now, currentBatch.requestedWithFee, st.exchangeRate, st.exchangeRate, false);
        histories := histories[currentBatch.id := closed];
        currentBatch := Model.CurrentBatch(currentBatch.id + 1, 0);
        st := st.(lastUnbondedTime := now);
      }
      StoreUnbondWaitList(batch.id, sender, withFee);
      history := histories;
      batch := currentBatch;
      state := st;
      return Ok((messages, withFee));
    }

    method StoreUnbondWaitList(batchId: nat, sender: Addr, amount: nat)
      modifies `waitList
      ensures waitList == Model.StoreWaitList(old(waitList), batchId, sender, amount)
    {
      var existing := if (sender, batchId) in waitList then waitList[(sender, batchId)] else 0;
      waitList := waitList[(sender, batchId) := existing + amount];
    }

    /** the first loop of `process_withdraw_rate`: counts the finished batches */
    method CountFinished(first: nat, cutoff: nat) returns (total: nat, end: nat)
      ensures total == Model.TotalUnbonded(history, first, cutoff)
      ensures end == Model.ReleaseEnd(history, first, cutoff)
    {
      total := 0;
      end := first;
      while end in history && history[end].time <= cutoff && !history[end].released
        invariant first <= end
        invariant total + Model.TotalUnbonded(history, end, cutoff) == Model.TotalUnbonded(history, first, cutoff)
        invariant Model.ReleaseEnd(history, end, cutoff) == Model.ReleaseEnd(history, first, cutoff)
        decreases Model.KeysFrom(history, end)
      {
        total := total + MulDec(history[end].amount, history[end].withdrawRate);
        Model.KeysFromShrinks(history, end);
        end := end + 1;
      }
    }

    /** the value of one batch after slashing or surplus, and its new withdraw rate */
    method ReleaseBatch(batch: Model.UnbondHistory, total: nat, slashed: SignedInt)
      returns (r: Result<Model.UnbondHistory, Model.Error>)
      ensures r == Model.ReleaseBatch(batch, total, slashed)
    {
      var unbonded := MulDec(batch.amount, batch.withdrawRate);
      if total == 0 {
        return Err(Model.DivideByZero);
      }
      var weight := Ratio(unbonded, total);
      var slashedOfBatch := MulDec(slashed.magnitude, weight);
      var actual: nat;
      if slashed.negative {
        if slashedOfBatch < 1 {
          return Err(Model.SurplusTooSmall);
        }
        slashedOfBatch := slashedOfBatch - 1;
        actual := unbonded + slashedOfBatch;
      } else {
        if slashed.magnitude != 0 {
          slashedOfBatch := slashedOfBatch + 1;
        }
        actual := FromSubtraction(unbonded, slashedOfBatch).magnitude;
      }
      if batch.amount == 0 {
        return Err(Model.DivideByZero);
      }
      return Ok(batch.(withdrawRate := Ratio(actual, batch.amount), released := true));
    }

    /** the second loop of `process_withdraw_rate`: rewrites every finished history */
    method ReleaseFinished(first: nat, cutoff: nat, total: nat, slashed: SignedInt)
      returns (r: Result<nat, Model.Error>)
      modifies `history
      ensures match Model.ReleaseBatches(old(history), first, cutoff, total, slashed)
              case Ok(h) => r == Ok(Model.ReleaseEnd(old(history), first, cutoff)) && history == h
              case Err(e) => r == Err(e) && history == old(history)
    {
      var histories := history;
      var next := first;
      ghost var whole := Model.ReleaseBatches(history, first, cutoff, total, slashed);
      ghost var end := Model.ReleaseEnd(history, first, cutoff);
      while next in histories && histories[next].time <= cutoff && !histories[next].released
        invariant first <= next && history == old(history)
        invariant Model.ReleaseBatches(histories, next, cutoff, total, slashed) == whole
        invariant Model.ReleaseEnd(histories, next, cutoff) == end
        decreases Model.KeysFrom(histories, next)
      {
        var released := ReleaseBatch(histories[next], total, slashed);
        if released.Err? {
          return Err(released.error);
        }
        Model.ReleaseRound(histories, next, cutoff, total, slashed, released.value);
        histories := histories[next := released.value];
        next := next + 1;
      }
      history := histories;
      return Ok(next);
    }

    /** `process_withdraw_rate`: counts the coins that came in and releases the finished
        batches with the slashing or surplus spread over them */
    method ProcessWithdrawRate(cutoff: nat, vaultBalance: nat) returns (r: Result<(), Model.Error>)
      modifies `state, `history
      ensures match Model.ProcessWithdrawRate(old(Store()), cutoff, vaultBalance)
              case Ok(s) => r.Ok? && Store() == s
              case Err(e) => r == Err(e) && Store() == old(Store())
    {
      var st := state;
      var balanceChange := FromSubtraction(vaultBalance, st.prevVaultBalance);
      st := st.(actualUnbondedAmount := st.actualUnbondedAmount + balanceChange.magnitude);
      var first := st.lastProcessedBatch + 1;
      var total, end := CountFinished(first, cutoff);
      if end - first >= 1 {
        var slashed := FromSubtraction(total, st.actualUnbondedAmount);
        var released := ReleaseFinished(first, cutoff, total, slashed);
        if released.Err? {
          return Err(released.error);
        }
        st := st.(lastProcessedBatch := released.value - 1);
      }
      st := st.(actualUnbondedAmount := 0);
      state := st;
      return Ok(());
    }

    /** `get_finished_amount`: folds over the account's first thirty entries */
    method GetFinishedAmount(sender: Addr) returns (amount: nat)
      ensures amount == Model.FinishedAmount(Store(), sender)
    {
      hide Model.PagedBatches;
      var batches := Model.PagedBatches(waitList, sender);
      Model.PagedBatchesWait(waitList, sender);
      amount := 0;
      for i := 0 to |batches|
        invariant amount + Model.SumPayouts(waitList, history, sender, batches[i..])
                  == Model.SumPayouts(waitList, history, sender, batches)
      {
        var b := batches[i];
        if b in history && history[b].released {
          amount := amount + MulDec(waitList[(sender, b)], history[b].withdrawRate);
        }
        assert batches[i..][1..] == batches[i + 1..];
      }
    }

    /** `get_unbond_batches`: the released ones of the same thirty entries */
    method GetUnbondBatches(sender: Addr) returns (released: seq<nat>)
      ensures released == Model.UnbondBatches(Store(), sender)
    {
      hide Model.PagedBatches;
      var batches := Model.PagedBatches(waitList, sender);
      released := [];
      ghost var whole := Model.KeepReleased(history, batches);
      for i := 0 to |batches|
        invariant released + Model.KeepReleased(history, batches[i..]) == whole
      {
        var b := batches[i];
        assert batches[i..][1..] == batches[i + 1..];
        ghost var rest := Model.KeepReleased(history, batches[i + 1..]);
        if b in history && history[b].released {
          assert released + ([b] + rest) == released + [b] + rest;
          released := released + [b];
        } else {
          assert [] + rest == rest;
        }
      }
    }

    method RemoveUnbondWaitList(batches: seq<nat>, sender: Addr)
      modifies `waitList
      ensures waitList == Model.RemoveWaitList(old(waitList), batches, sender)
    {
      for i := 0 to |batches|
        invariant Model.RemoveWaitList(waitList, batches[i..], sender)
                  == Model.RemoveWaitList(old(waitList), batches, sender)
      {
        assert batches[i..][1..] == batches[i + 1..];
        waitList := waitList - {(sender, batches[i])};
      }
    }

    /** takes the paid entries off and remembers the balance that remains */
    method SettlePayment(sender: Addr, remaining: nat)
      modifies `waitList, `state
      ensures Store() == old(Store()).(
                waitList := Model.RemoveWaitList(old(waitList), Model.UnbondBatches(old(Store()), sender), sender),
                state := old(state).(prevVaultBalance := remaining))
    {
      var deprecated := GetUnbondBatches(sender);
      RemoveUnbondWaitList(deprecated, sender);
      state := state.(prevVaultBalance := remaining);
    }

    /** Returns the coins sent to the account. */
    method ExecuteWithdrawUnbonded(now: nat, sender: Addr, vaultBalance: nat)
      returns (r: Result<nat, Model.Error>)
      modifies this
      ensures match Model.ExecuteWithdrawUnbonded(old(Store()), now, sender, vaultBalance)
              case Ok(o) => r == Ok(o.paid) && Store() == o.store
              case Err(e) => r == Err(e) && Store() == old(Store())
    {
      hide Model.FinishedAmount, Model.UnbondBatches, Model.ProcessWithdrawRate;
      if now < params.unbondingPeriod {
        return Err(Model.ClockUnderflow);
      }
      ghost var before := Store();
      var stateBefore, historyBefore := state, history;
      var processed := ProcessWithdrawRate(now - params.unbondingPeriod, vaultBalance);
      if processed.Err? {
        return Err(processed.error);
      }
      ghost var p := Store();
      assert Model.ProcessWithdrawRate(before, now - before.params.unbondingPeriod, vaultBalance) == Ok(p);
      var amount := GetFinishedAmount(sender);
      if amount == 0 || vaultBalance < amount {
        state, history := stateBefore, historyBefore;
        assert Store() == before;
        return Err(if amount == 0 then Model.NothingWithdrawable else Model.VaultShort);
      }
      SettlePayment(sender, vaultBalance - amount);
      return Ok(amount);
    }
  }
}
