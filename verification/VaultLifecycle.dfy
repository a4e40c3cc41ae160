/** The life of unbond batches over every run of the vault: which batches are open,
    closed or released, and how the wait list adds up to them. */
module VaultLifecycle {
  import opened Addresses
  import opened Results
  import opened SignedIntegers
  import opened Sums
  import opened VaultModel

  type Key = (Addr, nat)

  // ----- what a batch holds and what released batches owe -----

  ghost function BatchPart(waitList: WaitList, b: nat): Key -> int {
    (k: Key) => if k.1 == b then Waiting(waitList, k) else 0
  }

  ghost function BatchSum(waitList: WaitList, b: nat): int {
    Sum(waitList.Keys, BatchPart(waitList, b))
  }

  ghost function PayoutOf(waitList: WaitList, h: Histories): Key -> int {
    (k: Key) => Payout(waitList, h, k)
  }

  /** what all accounts together may still withdraw from released batches */
  ghost function Owed(waitList: WaitList, h: Histories): int {
    Sum(waitList.Keys, PayoutOf(waitList, h))
  }

  /** Histories exist exactly for the closed batches, in strictly increasing time, and the
      released ones are exactly those up to the last processed one. */
  ghost predicate Lifecycle(s: Storage) {
    && 1 <= s.batch.id
    && s.state.lastProcessedBatch < s.batch.id
    && (forall b :: b in s.history <==> 1 <= b < s.batch.id)
    && (forall b | b in s.history :: s.history[b].released <==> b <= s.state.lastProcessedBatch)
    && (forall a, b | a in s.history && b in s.history && a < b :: s.history[a].time < s.history[b].time)
    && (forall b | b in s.history :: s.history[b].time <= s.state.lastUnbondedTime)
    && (forall k | k in s.waitList :: 1 <= k.1 <= s.batch.id)
  }

  /** The wait list adds up to the open batch, to every closed batch, and to no more than
      every released one. */
  ghost predicate Accounted(s: Storage) {
    && BatchSum(s.waitList, s.batch.id) == s.batch.requestedWithFee
    && (forall b | b in s.history && !s.history[b].released ::
          BatchSum(s.waitList, b) == s.history[b].amount)
    && (forall b | b in s.history && s.history[b].released ::
          BatchSum(s.waitList, b) <= s.history[b].amount)
  }

  // ----- joining and closing the open batch -----

  lemma StoreBatchSum(waitList: WaitList, id: nat, sender: Addr, amount: nat, b: nat)
    ensures BatchSum(StoreWaitList(waitList, id, sender, amount), b)
            == BatchSum(waitList, b) + (if b == id then amount else 0)
  {
    var after := StoreWaitList(waitList, id, sender, amount);
    SumUpdate(waitList.Keys, after.Keys, (sender, id), BatchPart(waitList, b), BatchPart(after, b));
  }

  lemma StoreOwed(waitList: WaitList, h: Histories, id: nat, sender: Addr, amount: nat)
    requires !IsReleased(h, id)
    ensures Owed(StoreWaitList(waitList, id, sender, amount), h) == Owed(waitList, h)
  {
    var after := StoreWaitList(waitList, id, sender, amount);
    SumUpdate(waitList.Keys, after.Keys, (sender, id), PayoutOf(waitList, h), PayoutOf(after, h));
  }

  /** joining the batch keeps the books and owes nothing new */
  lemma JoinKeeps(s: Storage, amount: nat, sender: Addr, supply: nat, delegations: seq<Delegation>)
    requires Lifecycle(s) && Accounted(s)
    requires JoinBatch(s, amount, sender, supply, delegations).Ok?
    ensures var (s', withFee) := JoinBatch(s, amount, sender, supply, delegations).value;
            && Lifecycle(s') && Accounted(s')
            && Owed(s'.waitList, s'.history) == Owed(s.waitList, s.history)
            && s'.batch.id == s.batch.id && s'.history == s.history
            && s'.state.(exchangeRate := 0, totalBondAmount := 0)
               == s.state.(exchangeRate := 0, totalBondAmount := 0)
  {
    var (s', withFee) := JoinBatch(s, amount, sender, supply, delegations).value;
    StoreBatchSum(s.waitList, s.batch.id, sender, withFee, s.batch.id);
    forall b | b in s.history ensures BatchSum(s'.waitList, b) == BatchSum(s.waitList, b) {
      StoreBatchSum(s.waitList, s.batch.id, sender, withFee, b);
    }
    StoreOwed(s.waitList, s.history, s.batch.id, sender, withFee);
  }

  /** closing the batch opens an empty one; nothing becomes payable yet */
  lemma CloseKeeps(s: Storage, now: nat, height: nat, draw: nat -> nat, delegations: seq<Delegation>)
    requires Lifecycle(s) && Accounted(s)
    requires now > s.state.lastUnbondedTime
    requires UndelegateBatch(s, now, height, draw, delegations).Ok?
    ensures var s' := UndelegateBatch(s, now, height, draw, delegations).value.0;
            && Lifecycle(s') && Accounted(s')
            && Owed(s'.waitList, s'.history) == Owed(s.waitList, s.history)
            && s'.batch.id == s.batch.id + 1
            && s'.waitList == s.waitList
            && s'.state.(totalBondAmount := 0, lastUnbondedTime := 0)
               == s.state.(totalBondAmount := 0, lastUnbondedTime := 0)
  {
    hide PickUnbondValidator, Lifecycle, Accounted, Owed;
    var s' := UndelegateBatch(s, now, height, draw, delegations).value.0;
    ClosedBooks(s, s', s'.history[s.batch.id]);
    ClosedOwesNothing(s, s', s'.history[s.batch.id]);
  }

  /** appending a history later than all others, for the batch that was open */
  lemma ClosedBooks(s: Storage, s': Storage, closed: UnbondHistory)
    requires Lifecycle(s) && Accounted(s)
    requires !closed.released && closed.amount == s.batch.requestedWithFee
    requires s.state.lastUnbondedTime < closed.time == s'.state.lastUnbondedTime
    requires s'.state.lastProcessedBatch == s.state.lastProcessedBatch
    requires s'.waitList == s.waitList && s'.batch == CurrentBatch(s.batch.id + 1, 0)
    requires s'.history == s.history[s.batch.id := closed]
    ensures Lifecycle(s') && Accounted(s')
  {
    hide BatchSum;
    OpensEmpty(s);
  }

  lemma OpensEmpty(s: Storage)
    requires Lifecycle(s)
    ensures BatchSum(s.waitList, s.batch.id + 1) == 0
  {
    SumZero(s.waitList.Keys, BatchPart(s.waitList, s.batch.id + 1));
  }

  lemma ClosedOwesNothing(s: Storage, s': Storage, closed: UnbondHistory)
    requires Lifecycle(s) && !closed.released
    requires s'.waitList == s.waitList && s'.history == s.history[s.batch.id := closed]
    ensures Owed(s'.waitList, s'.history) == Owed(s.waitList, s.history)
  {
    SumCongruent(s.waitList.Keys, PayoutOf(s.waitList, s.history), PayoutOf(s.waitList, s'.history));
  }

  lemma UnbondKeeps(
      s: Storage, now: nat, height: nat, draw: nat -> nat,
      amount: nat, sender: Addr, supply: nat, delegations: seq<Delegation>)
    requires Lifecycle(s) && Accounted(s)
    requires ExecuteUnbond(s, now, height, draw, amount, sender, supply, delegations).Ok?
    ensures var s' := ExecuteUnbond(s, now, height, draw, amount, sender, supply, delegations).value.store;
            && Lifecycle(s') && Accounted(s')
            && Owed(s'.waitList, s'.history) == Owed(s.waitList, s.history)
            && s'.state.prevVaultBalance == s.state.prevVaultBalance
            && s'.state.actualUnbondedAmount == s.state.actualUnbondedAmount
            && s'.batch.id >= s.batch.id
  {
    JoinKeeps(s, amount, sender, supply, delegations);
    var joined := JoinBatch(s, amount, sender, supply, delegations).value.0;
    if now - joined.state.lastUnbondedTime > s.params.epochPeriod {
      CloseKeeps(joined, now, height, draw, delegations);
    }
  }

  // ----- releasing -----

  /** the undelegated amounts of the batches the release loops visit */
  ghost function NewAmounts(h: Histories, i: nat, cutoff: nat): seq<nat>
    decreases KeysFrom(h, i)
  {
    if Releasable(h, i, cutoff) then
      KeysFromShrinks(h, i);
      [UnbondedAmount(h[i])] + NewAmounts(h, i + 1, cutoff)
    else []
  }

  /** Both loops stop at the same batch, so the second releases what the first counted:
      afterwards exactly the visited batches differ, and they are released. */
  lemma {:induction false} ReleaseBatchesFrame(
      h: Histories, i: nat, cutoff: nat, total: nat, slashed: SignedInt)
    requires ReleaseBatches(h, i, cutoff, total, slashed).Ok?
    ensures var h', end := ReleaseBatches(h, i, cutoff, total, slashed).value, ReleaseEnd(h, i, cutoff);
            && h'.Keys == h.Keys
            && (forall b | b in h && !(i <= b < end) :: h'[b] == h[b])
            && (forall b | i <= b < end ::
                  && b in h' && h'[b].released
                  && ReleaseBatch(h[b], total, slashed) == Ok(h'[b])
                  && h'[b].(withdrawRate := 0, released := false)
                     == h[b].(withdrawRate := 0, released := false))
    decreases KeysFrom(h, i)
  {
    if Releasable(h, i, cutoff) {
      KeysFromShrinks(h, i);
      var h1 := h[i := ReleaseBatch(h[i], total, slashed).value];
      assert KeysFrom(h1, i + 1) == KeysFrom(h, i + 1);
      SameReleaseEnd(h, h1, i + 1, cutoff);
      ReleaseBatchesFrame(h1, i + 1, cutoff, total, slashed);
    }
  }

  lemma {:induction false} SameNewAmounts(h: Histories, h1: Histories, i: nat, cutoff: nat)
    requires h.Keys == h1.Keys
    requires forall b | b in h && i <= b :: h[b] == h1[b]
    ensures NewAmounts(h, i, cutoff) == NewAmounts(h1, i, cutoff)
    decreases KeysFrom(h, i)
  {
    if Releasable(h, i, cutoff) {
      KeysFromShrinks(h, i);
      SameNewAmounts(h, h1, i + 1, cutoff);
    }
  }

  /** Releasing a longer prefix, with amounts and times untouched, keeps the books. */
  lemma LongerPrefixKeeps(s: Storage, s': Storage)
    requires Lifecycle(s) && Accounted(s)
    requires s'.waitList == s.waitList && s'.batch == s.batch
    requires s'.history.Keys == s.history.Keys
    requires s.state.lastProcessedBatch <= s'.state.lastProcessedBatch < s.batch.id
    requires s'.state.lastUnbondedTime == s.state.lastUnbondedTime
    requires forall b | b in s.history ::
               && s'.history[b].time == s.history[b].time
               && s'.history[b].amount == s.history[b].amount
               && (s'.history[b].released <==> b <= s'.state.lastProcessedBatch)
    ensures Lifecycle(s') && Accounted(s')
  {
  }

  /** The release keeps the books; it releases the next batches in order, none twice. */
  lemma ReleaseKeeps(s: Storage, cutoff: nat, vaultBalance: nat)
    requires Lifecycle(s) && Accounted(s)
    requires ProcessWithdrawRate(s, cutoff, vaultBalance).Ok?
    ensures var s' := ProcessWithdrawRate(s, cutoff, vaultBalance).value;
            && Lifecycle(s') && Accounted(s')
            && s'.waitList == s.waitList && s'.batch == s.batch
            && s'.state.prevVaultBalance == s.state.prevVaultBalance
            && s'.state.actualUnbondedAmount == 0
            && s.state.lastProcessedBatch <= s'.state.lastProcessedBatch
  {
    var s' := ProcessWithdrawRate(s, cutoff, vaultBalance).value;
    var first := s.state.lastProcessedBatch + 1;
    var end := ReleaseEnd(s.history, first, cutoff);
    var total := TotalUnbonded(s.history, first, cutoff);
    var slashed := FromSubtraction(total, Arrived(s.state, vaultBalance));
    if end > first {
      ReleaseBatchesFrame(s.history, first, cutoff, total, slashed);
      assert Releasable(s.history, end - 1, cutoff);
      forall b | b in s.history
        ensures && s'.history[b].time == s.history[b].time
                && s'.history[b].amount == s.history[b].amount
                && (s'.history[b].released <==> b <= s'.state.lastProcessedBatch)
      {
        if first <= b < end {
          assert s'.history[b].(withdrawRate := 0, released := false)
                 == s.history[b].(withdrawRate := 0, released := false);
        } else {
          assert s'.history[b] == s.history[b];
        }
      }
    }
    LongerPrefixKeeps(s, s');
  }

  // ----- withdrawing -----

  lemma {:induction false} RemoveWaitListKeys(waitList: WaitList, batches: seq<nat>, sender: Addr)
    ensures var after := RemoveWaitList(waitList, batches, sender);
            && (forall k :: k in after <==> k in waitList && !(k.0 == sender && k.1 in batches))
            && (forall k | k in after :: after[k] == waitList[k])
  {
    if batches != [] {
      RemoveWaitListKeys(waitList - {(sender, batches[0])}, batches[1..], sender);
    }
  }

  lemma {:induction false} KeepReleasedMembers(h: Histories, batches: seq<nat>)
    ensures forall b :: b in KeepReleased(h, batches) <==> b in batches && IsReleased(h, b)
  {
    if batches != [] {
      KeepReleasedMembers(h, batches[1..]);
    }
  }

  lemma RemoveBatchSum(waitList: WaitList, batches: seq<nat>, sender: Addr, b: nat)
    ensures var after := RemoveWaitList(waitList, batches, sender);
            && BatchSum(after, b) <= BatchSum(waitList, b)
            && (b !in batches ==> BatchSum(after, b) == BatchSum(waitList, b))
  {
    var after := RemoveWaitList(waitList, batches, sender);
    RemoveWaitListKeys(waitList, batches, sender);
    assert after.Keys <= waitList.Keys;
    SumExtend(after.Keys, waitList.Keys, BatchPart(after, b));
    SumMono(waitList.Keys, BatchPart(after, b), BatchPart(waitList, b));
    if b !in batches {
      SumCongruent(waitList.Keys, BatchPart(after, b), BatchPart(waitList, b));
    }
  }

  /** paying takes entries of released batches only, so the books stay right */
  lemma PayKeeps(s: Storage, sender: Addr)
    requires Lifecycle(s) && Accounted(s)
    ensures var s' := s.(waitList := RemoveWaitList(s.waitList, UnbondBatches(s, sender), sender));
            Lifecycle(s') && Accounted(s')
  {
    var batches := UnbondBatches(s, sender);
    KeepReleasedMembers(s.history, PagedBatches(s.waitList, sender));
    RemoveWaitListKeys(s.waitList, batches, sender);
    RemoveBatchSum(s.waitList, batches, sender, s.batch.id);
    forall b | b in s.history
      ensures var after := RemoveWaitList(s.waitList, batches, sender);
              && BatchSum(after, b) <= BatchSum(s.waitList, b)
              && (!s.history[b].released ==> BatchSum(after, b) == BatchSum(s.waitList, b))
    {
      RemoveBatchSum(s.waitList, batches, sender, b);
    }
  }

  /** a withdrawal releases, takes the paid entries off, and remembers the balance */
  lemma WithdrawForm(s: Storage, now: nat, sender: Addr, vaultBalance: nat)
    requires ExecuteWithdrawUnbonded(s, now, sender, vaultBalance).Ok?
    ensures now >= s.params.unbondingPeriod
    ensures ProcessWithdrawRate(s, now - s.params.unbondingPeriod, vaultBalance).Ok?
    ensures var p := ProcessWithdrawRate(s, now - s.params.unbondingPeriod, vaultBalance).value;
            var s' := ExecuteWithdrawUnbonded(s, now, sender, vaultBalance).value.store;
            && p.waitList == s.waitList && p.batch == s.batch
            && s' == p.(
                 waitList := RemoveWaitList(p.waitList, UnbondBatches(p, sender), sender),
                 state := p.state.(prevVaultBalance := s'.state.prevVaultBalance))
  {
    hide ReleaseBatches, TotalUnbonded, RemoveWaitList, UnbondBatches, FinishedAmount;
  }

  lemma BalanceAside(s: Storage, balance: nat)
    requires Lifecycle(s) && Accounted(s)
    ensures var s' := s.(state := s.state.(prevVaultBalance := balance));
            Lifecycle(s') && Accounted(s')
  {
  }

  lemma WithdrawKeeps(s: Storage, now: nat, sender: Addr, vaultBalance: nat)
    requires Lifecycle(s) && Accounted(s)
    requires ExecuteWithdrawUnbonded(s, now, sender, vaultBalance).Ok?
    ensures var s' := ExecuteWithdrawUnbonded(s, now, sender, vaultBalance).value.store;
            && Lifecycle(s') && Accounted(s')
            && s'.batch == s.batch
            && s'.waitList.Keys <= s.waitList.Keys
  {
    hide *;
    WithdrawForm(s, now, sender, vaultBalance);
    var cutoff := now - s.params.unbondingPeriod;
    var p := ProcessWithdrawRate(s, cutoff, vaultBalance).value;
    ReleaseKeeps(s, cutoff, vaultBalance);
    PayKeeps(p, sender);
    var batches := UnbondBatches(p, sender);
    RemoveWaitListKeys(p.waitList, batches, sender);
    var s' := ExecuteWithdrawUnbonded(s, now, sender, vaultBalance).value.store;
    BalanceAside(p.(waitList := RemoveWaitList(p.waitList, batches, sender)), s'.state.prevVaultBalance);
  }

  /** A withdrawal takes every entry it pays for off the wait list, and no other. */
  lemma PaidEntriesLeave(s: Storage, now: nat, sender: Addr, vaultBalance: nat)
    requires ExecuteWithdrawUnbonded(s, now, sender, vaultBalance).Ok?
    ensures var s' := ExecuteWithdrawUnbonded(s, now, sender, vaultBalance).value.store;
            forall k | k in s.waitList ::
              k in s'.waitList <==>
              !(k.0 == sender && IsReleased(s'.history, k.1) && k.1 in PagedBatches(s.waitList, sender))
  {
    var processed := ProcessWithdrawRate(s, now - s.params.unbondingPeriod, vaultBalance).value;
    KeepReleasedMembers(processed.history, PagedBatches(processed.waitList, sender));
    RemoveWaitListKeys(processed.waitList, UnbondBatches(processed, sender), sender);
  }
}
