/** How well the bonded coins back the tokens: bonding, the fee of unbonding, and what an
    epoch's undelegation leaves for the holders who stay. */
module VaultBacking {
  import opened Addresses
  import opened Results
  import opened FixedPoint
  import opened VaultModel

  /** tokens that still claim the bonded coins: the supply and the open batch */
  function Claims(s: Storage, supply: nat): nat {
    supply + s.batch.requestedWithFee
  }

  // ----- division by a rate -----

  /** `decimal_division` rounds once, after cutting the rate to nine places */
  lemma DecimalDivisionExact(a: nat, b: nat)
    requires b >= DECIMAL_FRACTIONAL
    ensures b / DECIMAL_FRACTIONAL > 0
    ensures DecimalDivision(a, b) == Ok(a * DECIMAL_FRACTIONAL / (b / DECIMAL_FRACTIONAL))
  {
    CutToNine(b);
    DivAtLeast(b, DECIMAL_FRACTIONAL, 1);
    var c := b / DECIMAL_FRACTIONAL;
    CutToNine(Ratio(a, c));
    RatioInTwoSteps(a, c);
  }

  lemma RatioInTwoSteps(a: nat, c: nat)
    requires c > 0
    ensures Ratio(a, c) / DECIMAL_FRACTIONAL == a * DECIMAL_FRACTIONAL / c
  {
    var d := DECIMAL_FRACTIONAL;
    assert a * E == a * d * d;
    DivBounds(a * d, c);
    DivBounds(a * d * d, c);
    DivNonneg(a * d, c);
    DivNonneg(a * d * d, c);
    NestedFloor(a * d, d, c, a * d / c, a * d * d / c);
  }

  lemma CutToNine(b: nat)
    ensures MulDec(DECIMAL_FRACTIONAL, b) == b / DECIMAL_FRACTIONAL
  {
    var d := DECIMAL_FRACTIONAL;
    DivBounds(b, d);
    assert b / d * d * d == b / d * E;
    DivUnique(d * b, E, b / d);
  }

  lemma NestedFloor(x: nat, d: nat, c: nat, q: nat, inner: nat)
    requires d > 0 && c > 0
    requires q * c <= x < q * c + c
    requires inner * c <= x * d < inner * c + c
    ensures inner / d == q
  {
    assert q * d * c == q * c * d;
    MulMono(q * c, x, d);
    MulCancelLt(q * d, inner + 1, c);
    assert (q * d + d) * c == (q * c + c) * d;
    MulMono(x + 1, q * c + c, d);
    assert (x + 1) * d == x * d + d;
    MulCancelLt(inner, q * d + d, c);
    DivUnique(inner, d, q);
  }

  /** at a rate below `1 + 10^-9` a bond mints at least one token per coin */
  lemma MintsAtLeastPayment(payment: nat, rate: nat)
    requires DECIMAL_FRACTIONAL <= rate < E + DECIMAL_FRACTIONAL
    ensures DecimalDivision(payment, rate).Ok? && DecimalDivision(payment, rate).value >= payment
  {
    var d := DECIMAL_FRACTIONAL;
    DecimalDivisionExact(payment, rate);
    var c := rate / d;
    DivBounds(rate, d);
    assert c <= d by {
      MulCancelLt(c, d + 1, d);
    }
    MulMono(c, d, payment);
    DivAtLeast(payment * d, c, payment);
  }

  // ----- bonding and joining a batch -----

  /** Bonded coins exceed the claims on them by at most `excess`, and the stored rate is
      below `1 + 10^-9`. */
  ghost predicate Backed(s: Storage, supply: nat, excess: nat) {
    && s.state.totalBondAmount <= Claims(s, supply) + excess
    && s.state.exchangeRate < E + DECIMAL_FRACTIONAL
    && s.params.erThreshold <= E && s.params.pegRecoveryFee <= E
  }

  /** a freshly computed rate is below `1 + 10^-9` while the excess is that small */
  lemma FreshRate(st: State, issued: nat, requested: nat, excess: nat)
    requires st.totalBondAmount <= issued + requested + excess
    requires excess * DECIMAL_FRACTIONAL < issued + requested
    ensures UpdateExchangeRate(st, issued, requested).exchangeRate < E + DECIMAL_FRACTIONAL
  {
    var b, x := st.totalBondAmount, issued + requested;
    if b > 0 && x > 0 {
      RatioBounds(b, x);
      MulMono(b, x + excess, E);
      assert (x + excess) * E == x * E + excess * DECIMAL_FRACTIONAL * DECIMAL_FRACTIONAL by {
        assert E == DECIMAL_FRACTIONAL * DECIMAL_FRACTIONAL;
      }
      MulMono(excess * DECIMAL_FRACTIONAL + 1, x, DECIMAL_FRACTIONAL);
      assert x * E + x * DECIMAL_FRACTIONAL == (E + DECIMAL_FRACTIONAL) * x;
      MulCancelLt(Ratio(b, x), E + DECIMAL_FRACTIONAL, x);
    }
  }

  lemma SlashingKeepsBacked(s: Storage, delegations: seq<Delegation>, supply: nat, excess: nat)
    requires Backed(s, supply, excess) && excess * DECIMAL_FRACTIONAL < Claims(s, supply)
    ensures Backed(s.(state := Slashing(s.state, s.batch, delegations, supply)), supply, excess)
    ensures Slashing(s.state, s.batch, delegations, supply).totalBondAmount <= s.state.totalBondAmount
  {
    var bonded := BondedAmount(delegations);
    if delegations != [] && s.state.totalBondAmount > bonded {
      FreshRate(s.state.(totalBondAmount := bonded), supply, s.batch.requestedWithFee, excess);
    }
  }

  /** A bond keeps the backing: the coins it adds are matched by the tokens it mints, with
      or without the peg recovery fee. */
  lemma BondKeepsBacked(s: Storage, payment: nat, supply: nat, delegations: seq<Delegation>, excess: nat)
    requires Backed(s, supply, excess) && excess * DECIMAL_FRACTIONAL < Claims(s, supply)
    ensures ExecuteBond(s, payment, supply, delegations).Ok? ==>
              var o := ExecuteBond(s, payment, supply, delegations).value;
              && o.store.state.totalBondAmount <= Claims(o.store, supply + o.minted) + excess
              && (excess * DECIMAL_FRACTIONAL < Claims(o.store, supply + o.minted) ==>
                    Backed(o.store, supply + o.minted, excess))
  {
    SlashingKeepsBacked(s, delegations, supply, excess);
    var st := Slashing(s.state, s.batch, delegations, supply);
    if st.exchangeRate < DECIMAL_FRACTIONAL {
      CutToNine(st.exchangeRate);
    } else if ExecuteBond(s, payment, supply, delegations).Ok? {
      MintsAtLeastPayment(payment, st.exchangeRate);
      var o := ExecuteBond(s, payment, supply, delegations).value;
      var bonded := st.(totalBondAmount := st.totalBondAmount + payment);
      if excess * DECIMAL_FRACTIONAL < Claims(o.store, supply + o.minted) {
        FreshRate(bonded, supply + o.minted, s.batch.requestedWithFee, excess);
      }
    }
  }

  /** With full backing a bond fails only for an empty payment or a rate under 10^-9. */
  lemma BondSucceedsIff(s: Storage, payment: nat, supply: nat, delegations: seq<Delegation>)
    requires Backed(s, supply, 0) && Claims(s, supply) > 0
    ensures ExecuteBond(s, payment, supply, delegations).Ok? <==>
            payment > 0 && Slashing(s.state, s.batch, delegations, supply).exchangeRate >= DECIMAL_FRACTIONAL
  {
    SlashingKeepsBacked(s, delegations, supply, 0);
    var st := Slashing(s.state, s.batch, delegations, supply);
    CutToNine(st.exchangeRate);
    if st.exchangeRate >= DECIMAL_FRACTIONAL {
      MintsAtLeastPayment(payment, st.exchangeRate);
      var mint := DecimalDivision(payment, st.exchangeRate).value;
      MulDecAtMost(mint, s.params.pegRecoveryFee);
    } else {
      DivBounds(st.exchangeRate, DECIMAL_FRACTIONAL);
    }
  }

  /** Joining a batch keeps the backing: a fee never takes more than is missing. */
  lemma JoinKeepsBacked(s: Storage, amount: nat, sender: Addr, supply: nat, delegations: seq<Delegation>, excess: nat)
    requires Backed(s, supply, excess) && excess * DECIMAL_FRACTIONAL < Claims(s, supply)
    requires JoinBatch(s, amount, sender, supply, delegations).Ok?
    ensures var (s', withFee) := JoinBatch(s, amount, sender, supply, delegations).value;
            && amount <= supply
            && s'.state.totalBondAmount <= Claims(s', supply - amount) + excess
            && (excess * DECIMAL_FRACTIONAL < Claims(s', supply - amount) ==>
                  Backed(s', supply - amount, excess))
  {
    SlashingKeepsBacked(s, delegations, supply, excess);
    var st := Slashing(s.state, s.batch, delegations, supply);
    var (s', withFee) := JoinBatch(s, amount, sender, supply, delegations).value;
    if excess * DECIMAL_FRACTIONAL < Claims(s', supply - amount) {
      FreshRate(st, supply - amount, s'.batch.requestedWithFee, excess);
    }
  }

  // ----- an epoch's undelegation -----

  /** What an epoch undelegates is at most the bonded amount, at most the batch's exact
      share of it, and below that share by less than two coins. */
  lemma UndelegationBounds(bonded: nat, requested: nat, supply: nat)
    requires bonded > 0 && supply + requested > 0
    ensures var u := MulDec(requested, Ratio(bonded, supply + requested));
            && u <= bonded
            && u * (supply + requested) <= requested * bonded
            && (requested <= E ==> (u + 2) * (supply + requested) > requested * bonded)
  {
    var x := supply + requested;
    var r := Ratio(bonded, x);
    var u := MulDec(requested, r);
    RatioBounds(bonded, x);
    MulDecBounds(requested, r);
    ShareOfBond(E, bonded, requested, x, r, u);
  }

  lemma ShareOfBond(e: nat, b: nat, q: nat, x: nat, r: nat, u: nat)
    requires e > 0 && x > 0 && q <= x
    requires r * x <= b * e < r * x + x && u * e <= q * r < u * e + e
    ensures u * x <= q * b
    ensures u <= b
    ensures q <= e ==> (u + 2) * x > q * b
  {
    TimesRate(e, b, q, x, r);
    TimesClaims(e, q, x, q * r, u);
    MulCancelLe(u * x, q * b, e);
    if q <= e {
      MulCancelLt(q * b, (u + 2) * x, e);
    }
    MulMono(q, x, b);
    MulCancelLe(u, b, x);
  }

  lemma TimesRate(e: int, b: int, q: int, x: int, r: int)
    requires q >= 0 && r * x <= b * e < r * x + x
    ensures (q * r) * x <= (q * b) * e <= (q * r) * x + q * x
  {
    MulMono(r * x, b * e, q);
    MulMono(b * e, r * x + x, q);
    assert q * (r * x) == (q * r) * x && q * (b * e) == (q * b) * e;
  }

  lemma TimesClaims(e: int, q: int, x: int, p: int, u: int)
    requires x > 0 && u * e <= p < u * e + e
    ensures (u * x) * e <= p * x
    ensures q <= e ==> p * x + q * x < ((u + 2) * x) * e
  {
    MulMono(u * e, p, x);
    MulMono(p + 1, u * e + e, x);
    assert (u * e) * x == (u * x) * e;
    if q <= e {
      MulMono(q, e, x);
      assert ((u + 2) * x) * e == (u * e + e) * x + e * x;
    }
  }

  lemma OvershootBound(b: int, q: int, x: int, u: int, excess: int)
    requires 0 <= q <= x && x > 0 && excess >= 0
    requires b <= x + excess && (u + 2) * x > q * b
    ensures b - u <= x - q + excess + 1
  {
    MulMono(b, x + excess, x - q);
    assert (x + excess) * (x - q) == x * (x - q) + excess * (x - q);
    MulMono(x - q, x, excess);
    assert b * (x - q) == b * x - q * b;
    assert (u + 2) * x == u * x + 2 * x && (b - u) * x == b * x - u * x;
    assert (x - q + excess + 2) * x == x * (x - q) + excess * x + 2 * x;
    MulCancelLt(b - u, x - q + excess + 2, x);
  }

  /** The epoch leaves the remaining holders a rate no lower than before, measured without
      rounding, and overshoots the backing by at most one coin. */
  lemma UndelegateFair(
      s: Storage, now: nat, height: nat, draw: nat -> nat, delegations: seq<Delegation>, supply: nat, excess: nat)
    requires s.state.totalBondAmount > 0 && Claims(s, supply) > 0
    requires s.state.exchangeRate == Ratio(s.state.totalBondAmount, Claims(s, supply))
    requires UndelegateBatch(s, now, height, draw, delegations).Ok?
    ensures var s' := UndelegateBatch(s, now, height, draw, delegations).value.0;
            && s'.state.totalBondAmount * Claims(s, supply) >= s.state.totalBondAmount * Claims(s', supply)
            && Claims(s', supply) == supply
            && (s.batch.requestedWithFee <= E && s.state.totalBondAmount <= Claims(s, supply) + excess ==>
                  s'.state.totalBondAmount <= Claims(s', supply) + excess + 1)
  {
    var b, q, x := s.state.totalBondAmount, s.batch.requestedWithFee, Claims(s, supply);
    var u := MulDec(q, s.state.exchangeRate);
    UndelegationBounds(b, q, supply);
    assert (b - u) * x == b * x - u * x && b * (x - q) == b * x - q * b;
    if q <= E && b <= x + excess {
      OvershootBound(b, q, x, u, excess);
    }
  }

  /** The overshoot of one coin happens: a vault with four bonded coins and six claims, all
      of them in the open batch, is left with one coin that nobody claims. */
  lemma OvershootHappens(s: Storage, now: nat, height: nat, draw: nat -> nat)
    requires s.state.totalBondAmount == 4 && s.batch.requestedWithFee == 6
    requires s.state.exchangeRate == Ratio(4, 6)
    ensures var r := UndelegateBatch(s, now, height, draw, [Delegation(0, 4, true)]);
            r.Ok? && r.value.0.state.totalBondAmount == Claims(r.value.0, 0) + 1
  {
    assert MulDec(6, Ratio(4, 6)) == 3;
    var d := [Delegation(0, 4, true)];
    assert Drawn(draw, height + 0, |d|) == 0;
    assert PickUnbondValidator(Without(d, 0), 0, height, 1, draw) == Some([]);
  }

  // ----- every run -----

  datatype World = World(store: Storage, supply: nat, epochs: nat)

  datatype Op =
    | Bond(payment: nat, delegations: seq<Delegation>)
    | Unbond(now: nat, height: nat, draw: nat -> nat, amount: nat, sender: Addr, delegations: seq<Delegation>)
    | CheckSlashing(delegations: seq<Delegation>)
    | SetParams(params: Parameters)

  /** One transaction, with the token supply it mints or burns and the count of epochs
      undelegated so far. */
  function Step(w: World, op: Op): World {
    match op
    case Bond(payment, delegations) =>
      (match ExecuteBond(w.store, payment, w.supply, delegations)
       case Ok(o) => w.(store := o.store, supply := w.supply + o.minted)
       case Err(_) => w)
    case Unbond(now, height, draw, amount, sender, delegations) =>
      (match ExecuteUnbond(w.store, now, height, draw, amount, sender, w.supply, delegations)
       case Ok(o) =>
         if amount <= w.supply then
           World(o.store, w.supply - amount,
                 if o.store.batch.id == w.store.batch.id then w.epochs else w.epochs + 1)
         else w
       case Err(_) => w)
    case CheckSlashing(delegations) =>
      w.(store := w.store.(state := Slashing(w.store.state, w.store.batch, delegations, w.supply)))
    case SetParams(params) =>
      (match UpdateParams(w.store, params)
       case Ok(s) => w.(store := s)
       case Err(_) => w)
  }

  function Run(w: World, ops: seq<Op>): World
    decreases |ops|
  {
    if ops == [] then w else Run(Step(w, ops[0]), ops[1..])
  }

  /** claims are above a milliard per undelegated epoch, and no batch above 10^18 */
  ghost predicate Sizable(w: World) {
    && w.epochs * DECIMAL_FRACTIONAL < Claims(w.store, w.supply)
    && Claims(w.store, w.supply) <= E
    && w.store.state.totalBondAmount > 0
  }

  ghost predicate SizableRun(w: World, ops: seq<Op>)
    decreases |ops|
  {
    Sizable(w) && (ops != [] ==> SizableRun(Step(w, ops[0]), ops[1..]))
  }

  lemma UnbondStepBacked(w: World, op: Op)
    requires op.Unbond? && Sizable(w) && Sizable(Step(w, op))
    requires Backed(w.store, w.supply, w.epochs)
    ensures Backed(Step(w, op).store, Step(w, op).supply, Step(w, op).epochs)
  {
    var Unbond(now, height, draw, amount, sender, delegations) := op;
    var r := ExecuteUnbond(w.store, now, height, draw, amount, sender, w.supply, delegations);
    if r.Ok? {
      JoinKeepsBacked(w.store, amount, sender, w.supply, delegations, w.epochs);
      var joined := JoinBatch(w.store, amount, sender, w.supply, delegations).value.0;
      if now - joined.state.lastUnbondedTime > w.store.params.epochPeriod {
        CloseStepBacked(w, joined, now, height, draw, delegations, w.supply - amount);
      }
    }
  }

  lemma CloseStepBacked(
      w: World, s: Storage, now: nat, height: nat, draw: nat -> nat, delegations: seq<Delegation>, supply: nat)
    requires s.state.totalBondAmount <= Claims(s, supply) + w.epochs
    requires s.state == UpdateExchangeRate(s.state, supply, s.batch.requestedWithFee)
    requires s.params.erThreshold <= E && s.params.pegRecoveryFee <= E
    requires UndelegateBatch(s, now, height, draw, delegations).Ok?
    requires var s' := UndelegateBatch(s, now, height, draw, delegations).value.0;
             && (w.epochs + 1) * DECIMAL_FRACTIONAL < Claims(s', supply)
             && s'.state.totalBondAmount > 0
    requires Claims(s, supply) <= E
    ensures var s' := UndelegateBatch(s, now, height, draw, delegations).value.0;
            Backed(s', supply, w.epochs + 1)
  {
    var s' := UndelegateBatch(s, now, height, draw, delegations).value.0;
    assert Claims(s', supply) == supply;
    UndelegateFair(s, now, height, draw, delegations, supply, w.epochs);
    assert (w.epochs + 1) * DECIMAL_FRACTIONAL == w.epochs * DECIMAL_FRACTIONAL + DECIMAL_FRACTIONAL;
    FreshRate(s.state, supply, s.batch.requestedWithFee, w.epochs);
  }

  lemma {:induction false} RunKeepsBacked(w: World, ops: seq<Op>)
    requires SizableRun(w, ops) && Backed(w.store, w.supply, w.epochs)
    ensures Backed(Run(w, ops).store, Run(w, ops).supply, Run(w, ops).epochs)
    decreases |ops|
  {
    if ops != [] {
      var op := ops[0];
      var w' := Step(w, op);
      assert Sizable(w');
      match op {
        case Bond(payment, delegations) =>
          if ExecuteBond(w.store, payment, w.supply, delegations).Ok? {
            BondKeepsBacked(w.store, payment, w.supply, delegations, w.epochs);
          }
        case Unbond(_, _, _, _, _, _) =>
          UnbondStepBacked(w, op);
        case CheckSlashing(delegations) =>
          SlashingKeepsBacked(w.store, delegations, w.supply, w.epochs);
        case SetParams(_) =>
      }
      RunKeepsBacked(w', ops[1..]);
    }
  }

  /** the vault starts with the tokens instantiation mints to it, one for each coin */
  function Start(params: Parameters, payment: nat, now: nat): World
    requires Instantiate(params, payment, now).Ok?
  {
    World(Instantiate(params, payment, now).value, payment, 0)
  }

  /** Over every run from instantiation the bonded coins exceed the claims on them by at most
      one coin per undelegated epoch, and the rate stays below `1 + 10^-9`: a token is never
      credited with more than the coin that was bonded for it. */
  lemma BackedOverRuns(params: Parameters, payment: nat, now: nat, ops: seq<Op>)
    requires Instantiate(params, payment, now).Ok?
    requires SizableRun(Start(params, payment, now), ops)
    ensures var w := Run(Start(params, payment, now), ops); Backed(w.store, w.supply, w.epochs)
  {
    var w := Start(params, payment, now);
    assert Backed(w.store, w.supply, w.epochs);
    hide Start, Instantiate, Backed, SizableRun, Run;
    RunKeepsBacked(w, ops);
  }
}
