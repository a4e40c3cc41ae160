/** The prices of the vault: the exchange rate, what a bond mints, the recovery fee, and what a
    closed batch is recorded with. */
module VaultPricing {
  import opened Addresses
  import opened Results
  import opened FixedPoint
  import opened Sums
  import opened VaultModel
  import opened VaultBacking
  import opened VaultUndelegation

  // ----- the rate -----

  /** the coins behind one token, rounded down; one to one while either side is empty */
  predicate RateFits(rate: nat, bonded: nat, claims: nat) {
    if bonded == 0 || claims == 0 then rate == E
    else rate * claims <= bonded * E < (rate + 1) * claims
  }

  lemma RateIs(st: State, issued: nat, requested: nat)
    ensures var st' := UpdateExchangeRate(st, issued, requested);
            && RateFits(st'.exchangeRate, st.totalBondAmount, issued + requested)
            && st' == st.(exchangeRate := st'.exchangeRate)
  {
    if st.totalBondAmount > 0 && issued + requested > 0 {
      RatioBounds(st.totalBondAmount, issued + requested);
    }
  }

  /** the delegations in the vault's coin, one amount each */
  function UnderlyingAmounts(delegations: seq<Delegation>): seq<nat> {
    seq(|delegations|, i requires 0 <= i < |delegations| =>
      if delegations[i].underlying then delegations[i].amount else 0)
  }

  lemma {:induction false} BondedIsSum(delegations: seq<Delegation>)
    ensures BondedAmount(delegations) == SumSeq(UnderlyingAmounts(delegations))
    decreases |delegations|
  {
    if delegations != [] {
      BondedIsSum(delegations[1..]);
      assert UnderlyingAmounts(delegations)[1..] == UnderlyingAmounts(delegations[1..]);
    }
  }

  /** Slashing adopts the bonded amount exactly when it is the smaller one, with the rate that
      goes with it, and changes nothing else. */
  lemma SlashingAdopts(st: State, batch: CurrentBatch, delegations: seq<Delegation>, supply: nat)
    ensures var st' := Slashing(st, batch, delegations, supply);
            var bonded := SumSeq(UnderlyingAmounts(delegations));
            if delegations != [] && bonded < st.totalBondAmount then
              && st' == st.(totalBondAmount := bonded, exchangeRate := st'.exchangeRate)
              && RateFits(st'.exchangeRate, bonded, supply + batch.requestedWithFee)
            else st' == st
  {
    hide UpdateExchangeRate;
    BondedIsSum(delegations);
    RateIs(st.(totalBondAmount := BondedAmount(delegations)), supply, batch.requestedWithFee);
  }

  // ----- fees -----

  /** A recovery fee is the largest one that takes no more than its percentage, and no more
      than what is missing. */
  predicate FeeIs(fee: nat, gross: nat, percentage: nat, missing: int) {
    && fee <= missing && fee * E <= gross * percentage
    && (fee == missing || gross * percentage < (fee + 1) * E)
  }

  lemma LargestFee(gross: nat, percentage: nat, missing: nat)
    ensures FeeIs(Min(MulDec(gross, percentage), missing), gross, percentage, missing)
  {
    MulDecBounds(gross, percentage);
    if missing < MulDec(gross, percentage) {
      MulMono(missing, MulDec(gross, percentage), E);
    }
  }

  // ----- bonding -----

  /** What a bond is worth: the payment over the rate cut to nine places, rounded down once, and
      below the threshold less the recovery fee.  The payment is added to the bonded coins, and
      the rate is that of the new sums. */
  lemma BondPrices(s: Storage, payment: nat, supply: nat, delegations: seq<Delegation>) returns (gross: nat)
    requires ExecuteBond(s, payment, supply, delegations).Ok?
    ensures var st, o := Slashing(s.state, s.batch, delegations, supply), ExecuteBond(s, payment, supply, delegations).value;
            var cut, requested := st.exchangeRate / 1_000_000_000, s.batch.requestedWithFee;
            && payment > 0 && cut > 0
            && gross * cut <= payment * 1_000_000_000 < (gross + 1) * cut
            && (if st.exchangeRate >= s.params.erThreshold then o.minted == gross
                else
                  && o.minted <= gross
                  && FeeIs(gross - o.minted, gross, s.params.pegRecoveryFee,
                           supply + gross + requested - (st.totalBondAmount + payment)))
            && o.store == s.(state := st.(totalBondAmount := st.totalBondAmount + payment,
                                          exchangeRate := o.store.state.exchangeRate))
            && RateFits(o.store.state.exchangeRate, st.totalBondAmount + payment, supply + o.minted + requested)
  {
    hide Slashing, DecimalDivision, UpdateExchangeRate, MulDec;
    var st := Slashing(s.state, s.batch, delegations, supply);
    gross := DecimalDivision(payment, st.exchangeRate).value;
    DivisionBounds(payment, st.exchangeRate);
    var o, requested := ExecuteBond(s, payment, supply, delegations).value, s.batch.requestedWithFee;
    RateIs(st.(totalBondAmount := st.totalBondAmount + payment), supply + o.minted, requested);
    if st.exchangeRate < s.params.erThreshold {
      LargestFee(gross, s.params.pegRecoveryFee, supply + gross + requested - (st.totalBondAmount + payment));
    }
  }

  lemma DivisionBounds(a: nat, rate: nat)
    requires DecimalDivision(a, rate).Ok?
    ensures var cut := rate / 1_000_000_000;
            cut > 0 && DecimalDivision(a, rate).value * cut <= a * 1_000_000_000 < (DecimalDivision(a, rate).value + 1) * cut
  {
    CutToNine(rate);
    DivAtLeast(rate, DECIMAL_FRACTIONAL, 1);
    DecimalDivisionExact(a, rate);
    DivBounds(a * DECIMAL_FRACTIONAL, rate / DECIMAL_FRACTIONAL);
  }

  // ----- unbonding -----

  /** What a request joins the batch with: its amount, below the threshold less the recovery
      fee; it is added to the batch and to the caller's entry of it, and to nothing else. */
  lemma JoinPrices(s: Storage, amount: nat, sender: Addr, supply: nat, delegations: seq<Delegation>)
    requires JoinBatch(s, amount, sender, supply, delegations).Ok?
    ensures var (s', withFee) := JoinBatch(s, amount, sender, supply, delegations).value;
            var st, key := Slashing(s.state, s.batch, delegations, supply), (sender, s.batch.id);
            && amount <= supply
            && (if st.exchangeRate >= s.params.erThreshold then withFee == amount
                else
                  && withFee <= amount
                  && FeeIs(amount - withFee, amount, s.params.pegRecoveryFee,
                           supply + s.batch.requestedWithFee - st.totalBondAmount))
            && s'.batch == CurrentBatch(s.batch.id, s.batch.requestedWithFee + withFee)
            && s'.waitList == s.waitList[key := (if key in s.waitList then s.waitList[key] else 0) + withFee]
            && s'.history == s.history && s'.params == s.params
            && s'.state == st.(exchangeRate := s'.state.exchangeRate)
            && RateFits(s'.state.exchangeRate, st.totalBondAmount, supply - amount + s'.batch.requestedWithFee)
  {
    hide Slashing, UpdateExchangeRate, MulDec;
    var st := Slashing(s.state, s.batch, delegations, supply);
    var (s', withFee) := JoinBatch(s, amount, sender, supply, delegations).value;
    RateIs(st, supply - amount, s'.batch.requestedWithFee);
    if st.exchangeRate < s.params.erThreshold {
      LargestFee(amount, s.params.pegRecoveryFee, supply + s.batch.requestedWithFee - st.totalBondAmount);
    }
  }

  /** What closing a batch undelegates and records: the messages add up to the batch's requests
      at the rate, rounded down, which is what leaves the bonded coins and what the release will
      count; the record holds the requests, the time and the rate. */
  lemma CloseRecords(s: Storage, now: nat, height: nat, draw: nat -> nat, delegations: seq<Delegation>)
    requires UndelegateBatch(s, now, height, draw, delegations).Ok?
    ensures var (s', messages) := UndelegateBatch(s, now, height, draw, delegations).value;
            var sent, closed := Undelegated(messages), s'.history[s.batch.id];
            && sent * E <= s.batch.requestedWithFee * s.state.exchangeRate < (sent + 1) * E
            && UnbondedAmount(closed) == sent
            && sent <= s.state.totalBondAmount
            && s' == s.(state := s.state.(totalBondAmount := s.state.totalBondAmount - sent, lastUnbondedTime := now),
                        batch := CurrentBatch(s.batch.id + 1, 0),
                        history := s.history[s.batch.id := closed])
            && closed == UnbondHistory(s.batch.id, now, s.batch.requestedWithFee, s.state.exchangeRate,
                                       s.state.exchangeRate, false)
  {
    hide PickUnbondValidator, Undelegated;
    var undelegation := MulDec(s.batch.requestedWithFee, s.state.exchangeRate);
    UndelegationSplit(delegations, undelegation, height, draw);
    MulDecBounds(s.batch.requestedWithFee, s.state.exchangeRate);
  }

  /** An unbond burns the whole amount, joins the batch with it, and closes the batch exactly
      when the last one was closed more than an epoch ago. */
  lemma EpochCloses(
      s: Storage, now: nat, height: nat, draw: nat -> nat,
      amount: nat, sender: Addr, supply: nat, delegations: seq<Delegation>)
    requires ExecuteUnbond(s, now, height, draw, amount, sender, supply, delegations).Ok?
    ensures var o := ExecuteUnbond(s, now, height, draw, amount, sender, supply, delegations).value;
            var joined := JoinBatch(s, amount, sender, supply, delegations);
            && joined.Ok? && o.burned == amount && o.unbonded == joined.value.1
            && now >= s.state.lastUnbondedTime
            && (if now - s.state.lastUnbondedTime > s.params.epochPeriod then
                  UndelegateBatch(joined.value.0, now, height, draw, delegations) == Ok((o.store, o.undelegations))
                else o.store == joined.value.0 && o.undelegations == [])
  {
    hide UndelegateBatch, JoinBatch;
    assert JoinBatch(s, amount, sender, supply, delegations).Ok?;
    JoinPrices(s, amount, sender, supply, delegations);
    SlashingAdopts(s.state, s.batch, delegations, supply);
    hide Slashing;
    var s1 := JoinBatch(s, amount, sender, supply, delegations).value.0;
    if now - s.state.lastUnbondedTime > s.params.epochPeriod {
      var closed := UndelegateBatch(s1, now, height, draw, delegations);
      assert closed.Ok? && closed.value == (closed.value.0, closed.value.1);
    }
  }
}
