/** The vault contract on values: what each call does to the vault's storage, and what
    it asks the chain to do.  `VaultContract` gives the same calls in place. */
module VaultModel {
  import opened Addresses
  import opened Results
  import opened FixedPoint
  import opened SignedIntegers
  import opened Sums

  type WaitList = map<(Addr, nat), nat>

  type Histories = map<nat, UnbondHistory>

  datatype Parameters = Parameters(
    epochPeriod: nat,
    unbondingPeriod: nat,
    pegRecoveryFee: nat,
    erThreshold: nat)

  datatype CurrentBatch = CurrentBatch(id: nat, requestedWithFee: nat)

  datatype State = State(
    exchangeRate: nat,
    totalBondAmount: nat,
    prevVaultBalance: nat,
    actualUnbondedAmount: nat,
    lastUnbondedTime: nat,
    lastProcessedBatch: nat)

  datatype UnbondHistory = UnbondHistory(
    batchId: nat,
    time: nat,
    amount: nat,
    appliedExchangeRate: nat,
    withdrawRate: nat,
    released: bool)

  datatype Storage = Storage(
    params: Parameters,
    state: State,
    batch: CurrentBatch,
    waitList: WaitList,
    history: Histories)

  /** A delegation of the vault; `underlying` says it is in the vault's coin. */
  datatype Delegation = Delegation(validator: nat, amount: nat, underlying: bool)

  datatype Undelegation = Undelegation(validator: nat, amount: nat)

  datatype Error =
    | ZeroPayment
    | RateOutOfRange
    | DivideByZero
    | PegFeeUnderflow
    | SupplyUnderflow
    | ClockUnderflow
    | BurnTooSmall
    | NoDelegationLeft
    | BondUnderflow
    | SurplusTooSmall
    | NothingWithdrawable
    | VaultShort

  // ----- exchange rate -----

  const DECIMAL_FRACTIONAL: nat := 1_000_000_000

  /** `decimal_division`: divides by the decimal `b` cut to nine places */
  function DecimalDivision(a: nat, b: nat): Result<nat, Error> {
    var scaled := MulDec(DECIMAL_FRACTIONAL, b);
    if scaled == 0 then Err(DivideByZero)
    else Ok(MulDec(DECIMAL_FRACTIONAL, Ratio(a, scaled)))
  }

  function UpdateExchangeRate(st: State, totalIssued: nat, requestedWithFee: nat): State {
    var actualSupply := totalIssued + requestedWithFee;
    st.(exchangeRate :=
      if st.totalBondAmount == 0 || actualSupply == 0 then E
      else Ratio(st.totalBondAmount, actualSupply))
  }

  function BondedAmount(delegations: seq<Delegation>): nat {
    if delegations == [] then 0
    else (if delegations[0].underlying then delegations[0].amount else 0) + BondedAmount(delegations[1..])
  }

  /** `slashing`: adopts a smaller bonded amount seen on chain */
  function Slashing(st: State, batch: CurrentBatch, delegations: seq<Delegation>, supply: nat): State {
    if delegations == [] then st
    else if st.totalBondAmount > BondedAmount(delegations) then
      UpdateExchangeRate(st.(totalBondAmount := BondedAmount(delegations)), supply, batch.requestedWithFee)
    else st
  }

  // ----- bonding -----

  datatype BondOutcome = BondOutcome(store: Storage, minted: nat)

  function BondFee(s: Storage, st: State, mint: nat, payment: nat, supply: nat): Result<nat, Error> {
    if st.exchangeRate < s.params.erThreshold then
      var maxFee := MulDec(mint, s.params.pegRecoveryFee);
      if supply + mint + s.batch.requestedWithFee < st.totalBondAmount + payment then Err(PegFeeUnderflow) else
      var required := supply + mint + s.batch.requestedWithFee - (st.totalBondAmount + payment);
      var fee := Min(maxFee, required);
      if mint < fee then Err(PegFeeUnderflow) else Ok(mint - fee)
    else Ok(mint)
  }

  /** `_execute_bond`, after a validator is chosen */
  function ExecuteBond(s: Storage, payment: nat, supply: nat, delegations: seq<Delegation>)
    : Result<BondOutcome, Error>
  {
    if payment == 0 then Err(ZeroPayment) else
    var st := Slashing(s.state, s.batch, delegations, supply);
    var mint :- DecimalDivision(payment, st.exchangeRate);
    var minted :- BondFee(s, st, mint, payment, supply);
    var bonded := st.(totalBondAmount := st.totalBondAmount + payment);
    Ok(BondOutcome(
      s.(state := UpdateExchangeRate(bonded, supply + minted, s.batch.requestedWithFee)),
      minted))
  }

  // ----- undelegation over random validators -----

  /** `Vec::remove` */
  function Without(delegations: seq<Delegation>, i: nat): (rest: seq<Delegation>)
    requires i < |delegations|
    ensures |rest| == |delegations| - 1
  {
    delegations[..i] + delegations[i + 1..]
  }

  /** `gen_range(0, length)` */
  function Drawn(draw: nat -> nat, seed: nat, length: nat): (index: nat)
    requires length > 0
    ensures index < length
  {
    draw(seed) % length
  }

  /** what one drawn delegation contributes to the claim */
  function Part(delegation: Delegation, claim: nat): nat {
    if delegation.amount > claim then claim else delegation.amount
  }

  /** `pick_unbond_validator`: `draw` stands for the seeded generator, one draw per round */
  function PickUnbondValidator(
      delegations: seq<Delegation>, claim: nat, height: nat, iteration: nat, draw: nat -> nat)
    : Option<seq<Undelegation>>
    decreases |delegations|
  {
    if claim == 0 then Some([])
    else if delegations == [] then None
    else
      var index := Drawn(draw, height + iteration, |delegations|);
      var part := Part(delegations[index], claim);
      match PickUnbondValidator(Without(delegations, index), claim - part, height, iteration + 1, draw)
      case None => None
      case Some(more) =>
        if part > 0 then Some([Undelegation(delegations[index].validator, part)] + more)
        else Some(more)
  }

  // ----- unbonding -----

  datatype UnbondOutcome = UnbondOutcome(
    store: Storage,
    undelegations: seq<Undelegation>,
    burned: nat,
    unbonded: nat)

  function UnbondFee(s: Storage, st: State, amount: nat, supply: nat): Result<nat, Error> {
    if st.exchangeRate < s.params.erThreshold then
      var maxFee := MulDec(amount, s.params.pegRecoveryFee);
      if supply + s.batch.requestedWithFee < st.totalBondAmount then Err(PegFeeUnderflow) else
      var required := supply + s.batch.requestedWithFee - st.totalBondAmount;
      var fee := Min(maxFee, required);
      if amount < fee then Err(PegFeeUnderflow) else Ok(amount - fee)
    else Ok(amount)
  }

  function Waiting(waitList: WaitList, key: (Addr, nat)): nat {
    if key in waitList then waitList[key] else 0
  }

  function StoreWaitList(waitList: WaitList, batchId: nat, sender: Addr, amount: nat): WaitList {
    waitList[(sender, batchId) := Waiting(waitList, (sender, batchId)) + amount]
  }

  /** The part of `execute_unbond` before the epoch test: the request joins the batch. */
  function JoinBatch(s: Storage, amount: nat, sender: Addr, supply: nat, delegations: seq<Delegation>)
    : Result<(Storage, nat), Error>
  {
    var st := Slashing(s.state, s.batch, delegations, supply);
    var withFee :- UnbondFee(s, st, amount, supply);
    if supply < amount then Err(SupplyUnderflow) else
    var requested := s.batch.requestedWithFee + withFee;
    Ok((s.(
          state := UpdateExchangeRate(st, supply - amount, requested),
          batch := s.batch.(requestedWithFee := requested),
          waitList := StoreWaitList(s.waitList, s.batch.id, sender, withFee)),
        withFee))
  }

  /** The epoch part of `execute_unbond`: the batch is undelegated and closed. */
  function UndelegateBatch(
      s: Storage, now: nat, height: nat, draw: nat -> nat, delegations: seq<Delegation>)
    : Result<(Storage, seq<Undelegation>), Error>
  {
    var undelegation := MulDec(s.batch.requestedWithFee, s.state.exchangeRate);
    if undelegation == 1 then Err(BurnTooSmall) else
    match PickUnbondValidator(delegations, undelegation, height, 0, draw)
    case None => Err(NoDelegationLeft)
    case Some(undelegations) =>
      if s.state.totalBondAmount < undelegation then Err(BondUnderflow) else
      var closed := UnbondHistory(
        s.batch.id, now, s.batch.requestedWithFee, s.state.exchangeRate, s.state.exchangeRate, false);
      Ok((s.(
            state := s.state.(
              totalBondAmount := s.state.totalBondAmount - undelegation,
              lastUnbondedTime := now),
            batch := CurrentBatch(s.batch.id + 1, 0),
            history := s.history[s.batch.id := closed]),
          undelegations))
  }

  function ExecuteUnbond(
      s: Storage, now: nat, height: nat, draw: nat -> nat,
      amount: nat, sender: Addr, supply: nat, delegations: seq<Delegation>)
    : Result<UnbondOutcome, Error>
  {
    var (joined, withFee) :- JoinBatch(s, amount, sender, supply, delegations);
    if now < joined.state.lastUnbondedTime then Err(ClockUnderflow)
    else if now - joined.state.lastUnbondedTime > s.params.epochPeriod then
      var (closed, undelegations) :- UndelegateBatch(joined, now, height, draw, delegations);
      Ok(UnbondOutcome(closed, undelegations, amount, withFee))
    else Ok(UnbondOutcome(joined, [], amount, withFee))
  }

  // ----- release of finished batches -----

  predicate Releasable(h: Histories, i: nat, cutoff: nat) {
    i in h && h[i].time <= cutoff && !h[i].released
  }

  /** The ids the release loops may still reach; each round leaves its own id behind. */
  ghost function KeysFrom(h: Histories, i: nat): set<nat> {
    set k | k in h.Keys && i <= k
  }

  lemma KeysFromShrinks(h: Histories, i: nat)
    requires i in h
    ensures KeysFrom(h, i + 1) < KeysFrom(h, i)
  {
    assert i in KeysFrom(h, i) && i !in KeysFrom(h, i + 1);
  }

  function UnbondedAmount(batch: UnbondHistory): nat {
    MulDec(batch.amount, batch.withdrawRate)
  }

  /** the id after the last batch both loops visit */
  function ReleaseEnd(h: Histories, i: nat, cutoff: nat): (end: nat)
    ensures i <= end
    ensures forall k | i <= k < end :: Releasable(h, k, cutoff)
    ensures !Releasable(h, end, cutoff)
    decreases KeysFrom(h, i)
  {
    if Releasable(h, i, cutoff) then
      KeysFromShrinks(h, i);
      ReleaseEnd(h, i + 1, cutoff)
    else i
  }

  /** the stopping point depends only on the batches still ahead */
  lemma {:induction false} SameReleaseEnd(h: Histories, h1: Histories, i: nat, cutoff: nat)
    requires h.Keys == h1.Keys
    requires forall b | b in h && i <= b :: h[b] == h1[b]
    ensures ReleaseEnd(h, i, cutoff) == ReleaseEnd(h1, i, cutoff)
    decreases KeysFrom(h, i)
  {
    if Releasable(h, i, cutoff) {
      KeysFromShrinks(h, i);
      SameReleaseEnd(h, h1, i + 1, cutoff);
    }
  }

  function TotalUnbonded(h: Histories, i: nat, cutoff: nat): nat
    decreases KeysFrom(h, i)
  {
    if Releasable(h, i, cutoff) then
      KeysFromShrinks(h, i);
      UnbondedAmount(h[i]) + TotalUnbonded(h, i + 1, cutoff)
    else 0
  }

  /** what a batch is finally worth, given the slashing (or surplus) over all of them */
  function ActualAmount(unbonded: nat, total: nat, slashed: SignedInt): Result<nat, Error> {
    if total == 0 then Err(DivideByZero) else
    var share := MulDec(slashed.magnitude, Ratio(unbonded, total));
    if slashed.negative then
      if share < 1 then Err(SurplusTooSmall) else Ok(unbonded + (share - 1))
    else
      var taken := if slashed.magnitude != 0 then share + 1 else share;
      Ok(FromSubtraction(unbonded, taken).magnitude)
  }

  function ReleaseBatch(batch: UnbondHistory, total: nat, slashed: SignedInt): Result<UnbondHistory, Error> {
    var actual :- ActualAmount(UnbondedAmount(batch), total, slashed);
    if batch.amount == 0 then Err(DivideByZero)
    else Ok(batch.(withdrawRate := Ratio(actual, batch.amount), released := true))
  }

  function ReleaseBatches(h: Histories, i: nat, cutoff: nat, total: nat, slashed: SignedInt)
    : Result<Histories, Error>
    decreases KeysFrom(h, i)
  {
    if Releasable(h, i, cutoff) then
      var released :- ReleaseBatch(h[i], total, slashed);
      KeysFromShrinks(h, i);
      assert KeysFrom(h[i := released], i + 1) == KeysFrom(h, i + 1);
      ReleaseBatches(h[i := released], i + 1, cutoff, total, slashed)
    else Ok(h)
  }

  /** one round of the second loop */
  lemma ReleaseRound(h: Histories, i: nat, cutoff: nat, total: nat, slashed: SignedInt, released: UnbondHistory)
    requires Releasable(h, i, cutoff) && ReleaseBatch(h[i], total, slashed) == Ok(released)
    ensures var h1 := h[i := released];
            && ReleaseBatches(h, i, cutoff, total, slashed) == ReleaseBatches(h1, i + 1, cutoff, total, slashed)
            && ReleaseEnd(h, i, cutoff) == ReleaseEnd(h1, i + 1, cutoff)
            && KeysFrom(h1, i + 1) < KeysFrom(h, i)
  {
    var h1 := h[i := released];
    KeysFromShrinks(h, i);
    assert KeysFrom(h1, i + 1) == KeysFrom(h, i + 1);
    SameReleaseEnd(h, h1, i + 1, cutoff);
  }

  /** The coins that came in since the last withdrawal, as the contract counts them. */
  function Arrived(st: State, vaultBalance: nat): nat {
    st.actualUnbondedAmount + FromSubtraction(vaultBalance, st.prevVaultBalance).magnitude
  }

  function ProcessWithdrawRate(s: Storage, cutoff: nat, vaultBalance: nat): Result<Storage, Error> {
    var first := s.state.lastProcessedBatch + 1;
    var end := ReleaseEnd(s.history, first, cutoff);
    var total := TotalUnbonded(s.history, first, cutoff);
    var slashed := FromSubtraction(total, Arrived(s.state, vaultBalance));
    var history :- if end > first then ReleaseBatches(s.history, first, cutoff, total, slashed)
                   else Ok(s.history);
    Ok(s.(
        history := history,
        state := s.state.(lastProcessedBatch := end - 1, actualUnbondedAmount := 0)))
  }

  // ----- paying one account -----

  const UNBOND_WAITLIST_READ_LIMIT: nat := 30

  /** the batches of one account in storage order, at most thirty */
  function PagedBatches(waitList: WaitList, sender: Addr): seq<nat> {
    Take(Ascending(set k | k in waitList.Keys && k.0 == sender :: k.1), UNBOND_WAITLIST_READ_LIMIT)
  }

  lemma PagedBatchesWait(waitList: WaitList, sender: Addr)
    ensures forall b | b in PagedBatches(waitList, sender) :: (sender, b) in waitList
  {
    var all := set k | k in waitList.Keys && k.0 == sender :: k.1;
    forall b | b in PagedBatches(waitList, sender)
      ensures (sender, b) in waitList
    {
      assert b in Ascending(all);
      var k :| k in waitList.Keys && k.0 == sender && k.1 == b;
      assert k == (sender, b);
    }
  }

  predicate IsReleased(h: Histories, b: nat) {
    b in h && h[b].released
  }

  /** the value of one entry, zero until its batch is released */
  function Payout(waitList: WaitList, h: Histories, key: (Addr, nat)): nat {
    if key in waitList && IsReleased(h, key.1) then MulDec(waitList[key], h[key.1].withdrawRate) else 0
  }

  function SumPayouts(waitList: WaitList, h: Histories, sender: Addr, batches: seq<nat>): nat {
    if batches == [] then 0
    else Payout(waitList, h, (sender, batches[0])) + SumPayouts(waitList, h, sender, batches[1..])
  }

  function KeepReleased(h: Histories, batches: seq<nat>): seq<nat> {
    if batches == [] then []
    else (if IsReleased(h, batches[0]) then [batches[0]] else []) + KeepReleased(h, batches[1..])
  }

  function FinishedAmount(s: Storage, sender: Addr): nat {
    SumPayouts(s.waitList, s.history, sender, PagedBatches(s.waitList, sender))
  }

  function UnbondBatches(s: Storage, sender: Addr): seq<nat> {
    KeepReleased(s.history, PagedBatches(s.waitList, sender))
  }

  function RemoveWaitList(waitList: WaitList, batches: seq<nat>, sender: Addr): WaitList {
    if batches == [] then waitList
    else RemoveWaitList(waitList - {(sender, batches[0])}, batches[1..], sender)
  }

  datatype WithdrawOutcome = WithdrawOutcome(store: Storage, paid: nat)

  function ExecuteWithdrawUnbonded(s: Storage, now: nat, sender: Addr, vaultBalance: nat)
    : (r: Result<WithdrawOutcome, Error>)
    ensures r.Ok? ==> 0 < r.value.paid <= vaultBalance
  {
    if now < s.params.unbondingPeriod then Err(ClockUnderflow) else
    var processed :- ProcessWithdrawRate(s, now - s.params.unbondingPeriod, vaultBalance);
    var amount := FinishedAmount(processed, sender);
    if amount == 0 then Err(NothingWithdrawable)
    else if vaultBalance < amount then Err(VaultShort)
    else Ok(WithdrawOutcome(
        processed.(
          waitList := RemoveWaitList(processed.waitList, UnbondBatches(processed, sender), sender),
          state := processed.state.(prevVaultBalance := vaultBalance - amount)),
        amount))
  }

  // ----- start and parameters -----

  function Instantiate(params: Parameters, payment: nat, now: nat): Result<Storage, Error> {
    if payment == 0 then Err(ZeroPayment)
    else if params.pegRecoveryFee > E || params.erThreshold > E then Err(RateOutOfRange)
    else Ok(Storage(
        params,
        State(E, payment, 0, 0, now, 0),
        CurrentBatch(1, 0),
        map[],
        map[]))
  }

  function UpdateParams(s: Storage, params: Parameters): Result<Storage, Error> {
    if params.pegRecoveryFee > E || params.erThreshold > E then Err(RateOutOfRange)
    else Ok(s.(params := params))
  }
}
