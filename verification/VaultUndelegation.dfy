/** The split of an undelegation over randomly drawn validators. */
module VaultUndelegation {
  import opened Addresses
  import opened Results
  import opened FixedPoint
  import opened VaultModel

  function Delegated(delegations: seq<Delegation>): nat {
    if delegations == [] then 0 else delegations[0].amount + Delegated(delegations[1..])
  }

  function Undelegated(messages: seq<Undelegation>): nat {
    if messages == [] then 0 else messages[0].amount + Undelegated(messages[1..])
  }

  lemma {:induction false} DelegatedWithout(delegations: seq<Delegation>, i: nat)
    requires i < |delegations|
    ensures Delegated(delegations) == Delegated(Without(delegations, i)) + delegations[i].amount
  {
    if i == 0 {
      assert Without(delegations, 0) == delegations[1..];
    } else {
      DelegatedWithout(delegations[1..], i - 1);
      assert Without(delegations, i)[1..] == Without(delegations[1..], i - 1);
    }
  }

  lemma WithoutOne(delegations: seq<Delegation>, i: nat)
    requires i < |delegations|
    ensures multiset(delegations) == multiset(Without(delegations, i)) + multiset{delegations[i]}
  {
    assert delegations == delegations[..i] + [delegations[i]] + delegations[i + 1..];
  }

  /** each message takes a positive part of its own delegation, in order */
  ghost predicate Covers(used: seq<Delegation>, messages: seq<Undelegation>) {
    && |used| == |messages|
    && forall i | 0 <= i < |used| ::
         && messages[i].validator == used[i].validator
         && 0 < messages[i].amount <= used[i].amount
  }

  /** the delegations the messages are taken from */
  ghost function Used(delegations: seq<Delegation>, claim: nat, height: nat, iteration: nat, draw: nat -> nat)
    : seq<Delegation>
    decreases |delegations|
  {
    if claim == 0 || delegations == [] then []
    else
      var index := Drawn(draw, height + iteration, |delegations|);
      var part := Part(delegations[index], claim);
      var more := Used(Without(delegations, index), claim - part, height, iteration + 1, draw);
      if part > 0 then [delegations[index]] + more else more
  }

  /** the split exists exactly when the delegations cover the claim, and adds up to it */
  lemma {:induction false} PickAddsUp(
      delegations: seq<Delegation>, claim: nat, height: nat, iteration: nat, draw: nat -> nat)
    ensures var r := PickUnbondValidator(delegations, claim, height, iteration, draw);
            && (r.Some? <==> claim <= Delegated(delegations))
            && (r.Some? ==> Undelegated(r.value) == claim)
    decreases |delegations|
  {
    hide Without, Drawn;
    if claim > 0 && delegations != [] {
      var index := Drawn(draw, height + iteration, |delegations|);
      var d, part := delegations[index], Part(delegations[index], claim);
      DelegatedWithout(delegations, index);
      PickAddsUp(Without(delegations, index), claim - part, height, iteration + 1, draw);
      var tail := PickUnbondValidator(Without(delegations, index), claim - part, height, iteration + 1, draw);
      if tail.Some? && part > 0 {
        assert ([Undelegation(d.validator, part)] + tail.value)[1..] == tail.value;
      }
    }
  }

  lemma {:induction false} PickCovers(
      delegations: seq<Delegation>, claim: nat, height: nat, iteration: nat, draw: nat -> nat)
    requires PickUnbondValidator(delegations, claim, height, iteration, draw).Some?
    ensures Covers(Used(delegations, claim, height, iteration, draw),
                   PickUnbondValidator(delegations, claim, height, iteration, draw).value)
    decreases |delegations|
  {
    hide Without, Drawn;
    if claim > 0 {
      var index := Drawn(draw, height + iteration, |delegations|);
      PickCovers(Without(delegations, index), claim - Part(delegations[index], claim), height, iteration + 1, draw);
    }
  }

  lemma {:induction false} UsedOnce(
      delegations: seq<Delegation>, claim: nat, height: nat, iteration: nat, draw: nat -> nat)
    ensures multiset(Used(delegations, claim, height, iteration, draw)) <= multiset(delegations)
    decreases |delegations|
  {
    hide Without, Drawn;
    if claim > 0 && delegations != [] {
      var index := Drawn(draw, height + iteration, |delegations|);
      var d, part := delegations[index], Part(delegations[index], claim);
      WithoutOne(delegations, index);
      UsedOnce(Without(delegations, index), claim - part, height, iteration + 1, draw);
      var more := Used(Without(delegations, index), claim - part, height, iteration + 1, draw);
      assert multiset([d] + more) == multiset{d} + multiset(more);
    }
  }

  /** For every sequence of draws: the split succeeds exactly when the delegations cover the
      claim; then the messages add up to the claim, each takes a positive part of one
      delegation, and no delegation is used twice. */
  lemma UndelegationSplit(delegations: seq<Delegation>, claim: nat, height: nat, draw: nat -> nat)
    ensures var r := PickUnbondValidator(delegations, claim, height, 0, draw);
            && (r.Some? <==> claim <= Delegated(delegations))
            && (r.Some? ==>
                  && Undelegated(r.value) == claim
                  && exists used :: Covers(used, r.value) && multiset(used) <= multiset(delegations))
  {
    PickAddsUp(delegations, claim, height, 0, draw);
    if PickUnbondValidator(delegations, claim, height, 0, draw).Some? {
      PickCovers(delegations, claim, height, 0, draw);
      UsedOnce(delegations, claim, height, 0, draw);
    }
  }

  lemma {:induction false} BondedWithinDelegated(delegations: seq<Delegation>)
    ensures BondedAmount(delegations) <= Delegated(delegations)
  {
    if delegations != [] {
      BondedWithinDelegated(delegations[1..]);
    }
  }

  /** An unbond that reaches the epoch's end is never stopped for lack of delegations or of
      bonded coins: slashing was accounted first, and the batch's share is within the bond.
      Once the request has joined the batch, all that can stop it is a share of exactly one
      unit. */
  lemma EpochNeverStuck(
      s: Storage, now: nat, height: nat, draw: nat -> nat,
      amount: nat, sender: Addr, supply: nat, delegations: seq<Delegation>)
    requires delegations != [] && s.state.totalBondAmount > 0 && BondedAmount(delegations) > 0
    ensures var r := ExecuteUnbond(s, now, height, draw, amount, sender, supply, delegations);
            && r != Err(NoDelegationLeft) && r != Err(BondUnderflow)
            && var joined := JoinBatch(s, amount, sender, supply, delegations);
               joined.Ok? && now > s.state.lastUnbondedTime + s.params.epochPeriod ==>
                 var s1 := joined.value.0;
                 r.Ok? <==> !(E <= s1.batch.requestedWithFee * s1.state.exchangeRate < 2 * E)
  {
    var joined := JoinBatch(s, amount, sender, supply, delegations);
    if joined.Ok? {
      var s1 := joined.value.0;
      var b, x := s1.state.totalBondAmount, supply - amount + s1.batch.requestedWithFee;
      BondedWithinDelegated(delegations);
      assert 0 < b <= BondedAmount(delegations);
      var u := MulDec(s1.batch.requestedWithFee, s1.state.exchangeRate);
      if x > 0 {
        RatioPaysAtMost(b, x);
        MulDecMono(s1.batch.requestedWithFee, x, s1.state.exchangeRate);
      }
      assert u <= b;
      PickAddsUp(delegations, u, height, 0, draw);
      MulDecBounds(s1.batch.requestedWithFee, s1.state.exchangeRate);
    }
  }
}
