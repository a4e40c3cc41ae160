/** Custody over every run of LP staking, whatever clock, schedules and weights do. */
module LpStakingHolding {
  import opened Addresses
  import opened Results
  import opened Sums
  import opened RewardIndex
  import opened LpStakingModel
  import opened LpStakingOrders
  import opened LpStakingCustody
  import opened LpStakingReweighting
  import opened LpStakingRuns

  // ----- cover -----

  /** for every pool the contract holds at least what is bonded and pending */
  ghost predicate Covered(s: Storage, balances: map<Addr, nat>) {
    forall t | t in s.pools :: PoolCovered(s.pools[t], BalanceAt(balances, t))
  }

  predicate PoolCovered(pool: Pool, balance: nat) {
    pool.totalBond + pool.totalPendingWithdraw <= balance
  }

  lemma CoverAfter(s: Storage, s': Storage, token: Addr, pool: Pool, balances: map<Addr, nat>, balance: nat)
    requires Covered(s, balances) && s'.pools == s.pools[token := pool]
    requires PoolCovered(pool, balance)
    ensures Covered(s', balances[token := balance])
  {
    hide PoolCovered;
    var after := balances[token := balance];
    forall t | t in s'.pools ensures PoolCovered(s'.pools[t], BalanceAt(after, t)) {
      if t != token {
        assert PoolCovered(s.pools[t], BalanceAt(balances, t));
      }
    }
  }

  lemma CoverUnder(s: Storage, balances: map<Addr, nat>, token: Addr)
    requires Covered(s, balances) && token in s.pools
    ensures PoolCovered(s.pools[token], BalanceAt(balances, token))
  {
  }

  lemma SameBalances(s: Storage, balances: map<Addr, nat>, token: Addr, balance: nat)
    requires balance == BalanceAt(balances, token) && Covered(s, balances[token := balance])
    ensures Covered(s, balances)
  {
    hide PoolCovered;
    forall t | t in s.pools ensures PoolCovered(s.pools[t], BalanceAt(balances, t)) {
      assert PoolCovered(s.pools[t], BalanceAt(balances[token := balance], t));
    }
  }

  lemma SameCover(s: Storage, pools': Pools, balances: map<Addr, nat>)
    requires Covered(s, balances)
    requires forall a | a in pools' ::
               a in s.pools && pools'[a].totalBond == s.pools[a].totalBond
               && pools'[a].totalPendingWithdraw == s.pools[a].totalPendingWithdraw
    ensures Covered(s.(pools := pools'), balances)
  {
    forall t | t in pools' ensures PoolCovered(pools'[t], BalanceAt(balances, t)) {
      assert PoolCovered(s.pools[t], BalanceAt(balances, t));
    }
  }

  lemma CoverLooksAt(s: Storage, s': Storage, balances: map<Addr, nat>)
    requires Covered(s, balances) && s'.pools == s.pools
    ensures Covered(s', balances)
  {
  }

  // ----- what every call has in common -----

  /** a record is the old one, or was credited up to an index the pool has reached */
  ghost predicate RecordAdvances(s: Storage, s': Storage, k: RewardKey)
    requires k in s'.rewards
  {
    || (k in s.rewards && s'.rewards[k].rewardIndex == s.rewards[k].rewardIndex)
    || (k.1 in s'.pools && s'.rewards[k].rewardIndex <= s'.pools[k.1].rewardIndex)
  }

  /** a pool's index rises only, and its time is the old one or now */
  ghost predicate PoolAdvances(s: Storage, s': Storage, a: Addr, now: nat)
    requires a in s'.pools
  {
    && (a in s.pools ==> s.pools[a].rewardIndex <= s'.pools[a].rewardIndex)
    && (s'.pools[a].lastDistributed == now || (a in s.pools && s'.pools[a].lastDistributed == s.pools[a].lastDistributed))
  }

  /** schedules are only added, and are never empty */
  ghost predicate ConfigAdvances(cfg: Config, cfg': Config) {
    && cfg'.owner == cfg.owner && cfg'.prismToken == cfg.prismToken
    && forall e | e in cfg'.schedule :: e in cfg.schedule || e.start < e.end
  }

  ghost predicate Advances(s: Storage, s': Storage, now: nat) {
    && ConfigAdvances(s.cfg, s'.cfg)
    && s.pools.Keys <= s'.pools.Keys
    && (forall a | a in s'.pools :: PoolAdvances(s, s', a, now))
    && (forall k | k in s'.rewards :: RecordAdvances(s, s', k))
  }

  lemma AdvancesTwice(s: Storage, s1: Storage, s2: Storage, now: nat)
    requires Advances(s, s1, now) && Advances(s1, s2, now)
    ensures Advances(s, s2, now)
  {
    forall a | a in s2.pools ensures PoolAdvances(s, s2, a, now) {
      assert PoolAdvances(s1, s2, a, now);
      if a in s1.pools {
        assert PoolAdvances(s, s1, a, now);
      }
    }
    forall k | k in s2.rewards ensures RecordAdvances(s, s2, k) {
      assert RecordAdvances(s1, s2, k);
      if k in s1.rewards {
        assert RecordAdvances(s, s1, k);
        if k.1 in s1.pools {
          assert PoolAdvances(s1, s2, k.1, now);
        }
      }
    }
  }

  /** the books agree and the contract holds what they say */
  ghost predicate Held(s: Storage, balances: map<Addr, nat>) {
    Books(s) && Covered(s, balances)
  }

  /** a call that moves one staker's record in one pool */
  lemma MovedHeld(s: Storage, s': Storage, staker: Addr, token: Addr, info: RewardInfo, pool: Pool,
                  balances: map<Addr, nat>, balance: nat)
    requires Held(s, balances)
    requires Moved(s, s', staker, token, info, pool) && TotalsFollow(s, s', staker, token, info, pool)
    requires PoolCovered(s.pools[token], BalanceAt(balances, token)) ==> PoolCovered(pool, balance)
    ensures Held(s', balances[token := balance])
  {
    hide Books, Covered, RecordMoved, SameElsewhere, TotalsFollow, PoolCovered;
    MovedBooks(s, s', staker, token, info, pool);
    CoverUnder(s, balances, token);
    CoverAfter(s, s', token, pool, balances, balance);
  }

  lemma MovedAdvances(s: Storage, s': Storage, now: nat, staker: Addr, token: Addr, info: RewardInfo, pool: Pool)
    requires Moved(s, s', staker, token, info, pool)
    requires pool.rewardIndex >= s.pools[token].rewardIndex
    requires pool.lastDistributed == now || pool.lastDistributed == s.pools[token].lastDistributed
    requires info.rewardIndex == pool.rewardIndex || info.rewardIndex == InfoOf(s, staker, token).rewardIndex
    requires (staker, token) in s.rewards || info.rewardIndex == pool.rewardIndex
    ensures Advances(s, s', now)
  {
    hide SameElsewhere, OrderTimes;
  }

  lemma SettledAdvances(s: Storage, s': Storage, now: nat, staker: Addr, token: Addr, m: Move)
    requires SettledMove(s, s', now, staker, token, m)
    ensures Moved(s, s', staker, token, m.info, m.pool) && TotalsFollow(s, s', staker, token, m.info, m.pool)
    ensures Advances(s, s', now) && s'.pools.Keys == s.pools.Keys
  {
    hide RecordMoved, SameElsewhere, TotalsFollow, ComputePoolReward, Advances, Credit, InfoOf;
    assert token in s.pools by { MoveInPools(s, s', now, staker, token, m); }
    PoolKept(s.cfg, s.pools[token], now);
    MovedAdvances(s, s', now, staker, token, m.info, m.pool);
  }

  // ----- staking -----

  /** only the owner's registration adds a pool */
  ghost predicate OnlyNew(w: World, op: Op, pools: Pools) {
    forall a | a in pools ::
      a in w.store.pools || (op.NewToken? && op.caller == w.store.cfg.owner && a == op.token)
  }

  ghost predicate StepHolds(w: World, now: nat, op: Op) {
    var w' := Step(w, now, op);
    Held(w'.store, w'.balances) && Advances(w.store, w'.store, now) && OnlyNew(w, op, w'.store.pools)
  }

  lemma SameAdvances(s: Storage, now: nat)
    ensures Advances(s, s, now)
  {
  }

  lemma StakeHeld(w: World, now: nat, op: Op)
    requires Held(w.store, w.balances) && op.Stake?
    ensures StepHolds(w, now, op)
  {
    hide Held, Advances, Bond, Moving, SettledMove, Moved, TotalsFollow;
    SameAdvances(w.store, now);
    var r := Bond(w.store, now, op.token, op.sender, op.amount);
    if r.Ok? {
      var m := BondMoves(w.store, now, op.token, op.sender, op.amount);
      MoveInPools(w.store, r.value, now, op.sender, op.token, m);
      SettledAdvances(w.store, r.value, now, op.sender, op.token, m);
      MovedHeld(w.store, r.value, op.sender, op.token, m.info, m.pool, w.balances,
                BalanceAt(w.balances, op.token) + op.amount);
    }
  }

  lemma HeldSame(s: Storage, balances: map<Addr, nat>, token: Addr)
    requires Held(s, balances[token := BalanceAt(balances, token)])
    ensures Held(s, balances)
  {
    hide Books, Covered;
    SameBalances(s, balances, token, BalanceAt(balances, token));
  }

  lemma SurplusHeld(w: World, now: nat, op: Op)
    requires Held(w.store, w.balances) && op.StakeSurplus?
    ensures StepHolds(w, now, op)
  {
    hide Held, Advances, AutoStake, Moving, SettledMove, Moved, TotalsFollow;
    SameAdvances(w.store, now);
    var balance := BalanceAt(w.balances, op.token);
    var r := AutoStake(w.store, now, op.token, op.sender, balance);
    if r.Ok? {
      var m := SurplusMoves(w.store, now, op.token, op.sender, balance);
      SettledAdvances(w.store, r.value, now, op.sender, op.token, m);
      MovedHeld(w.store, r.value, op.sender, op.token, m.info, m.pool, w.balances, balance);
      HeldSame(r.value, w.balances, op.token);
    }
  }

  lemma HeldLinked(s: Storage, balances: map<Addr, nat>)
    requires Held(s, balances)
    ensures Linked(s)
  {
    hide Linked;
  }

  lemma UnstakeHeld(w: World, now: nat, op: Op)
    requires Held(w.store, w.balances) && op.Unstake?
    ensures StepHolds(w, now, op)
  {
    hide Held, Linked, Advances, Unbond, Moving, SettledMove, Moved, TotalsFollow, ImmediateUnbond;
    SameAdvances(w.store, now);
    HeldLinked(w.store, w.balances);
    var r := Unbond(w.store, now, op.sender, op.token, op.part);
    if r.Ok? && BalanceAt(w.balances, op.token) >= r.value.sent {
      var m := UnbondMoves(w.store, now, op.sender, op.token, op.part);
      MoveInPools(w.store, r.value.store, now, op.sender, op.token, m);
      SettledAdvances(w.store, r.value.store, now, op.sender, op.token, m);
      MovedHeld(w.store, r.value.store, op.sender, op.token, m.info, m.pool, w.balances,
                BalanceAt(w.balances, op.token) - r.value.sent);
    }
  }

  lemma FetchHeld(w: World, now: nat, op: Op)
    requires Held(w.store, w.balances) && op.Fetch?
    ensures StepHolds(w, now, op)
  {
    hide Held, Linked, Advances, ClaimUnbonded, RecordMoved, SameElsewhere, TotalsFollow;
    SameAdvances(w.store, now);
    HeldLinked(w.store, w.balances);
    var r := ClaimUnbonded(w.store, now, op.sender, op.token);
    if r.Ok? && BalanceAt(w.balances, op.token) >= r.value.sent {
      FetchHasRecord(w.store, now, op.sender, op.token);
      var info, pool := ClaimUnbondedMoves(w.store, now, op.sender, op.token);
      MovedAdvances(w.store, r.value.store, now, op.sender, op.token, info, pool);
      MovedHeld(w.store, r.value.store, op.sender, op.token, info, pool, w.balances,
                BalanceAt(w.balances, op.token) - r.value.sent);
    }
  }

  // ----- claiming -----

  /** no pool's bonded and pending amounts change in sum */
  ghost predicate SameTotals(pools: Pools, pools': Pools) {
    && pools'.Keys == pools.Keys
    && forall a | a in pools ::
         pools'[a].totalBond + pools'[a].totalPendingWithdraw == pools[a].totalBond + pools[a].totalPendingWithdraw
  }

  lemma {:induction false} ClaimEachHeld(s: Storage, balances: map<Addr, nat>, now: nat, sender: Addr, tokens: seq<Addr>)
    requires Held(s, balances) && ClaimEach(s, now, sender, tokens).Ok?
    ensures var o := ClaimEach(s, now, sender, tokens).value;
            && Held(o.store, balances) && Advances(s, o.store, now)
            && SameTotals(s.pools, o.store.pools)
    decreases |tokens|
  {
    hide Held, Linked, Advances, ClaimOne, SettledMove, TotalsFollow, RecordMoved, SameElsewhere;
    if tokens == [] {
      SameAdvances(s, now);
    } else {
      var o := ClaimOne(s, now, sender, tokens[0]).value;
      HeldLinked(s, balances);
      var m := ClaimOneMoves(s, now, sender, tokens[0]);
      SettledAdvances(s, o.store, now, sender, tokens[0], m);
      MovedHeld(s, o.store, sender, tokens[0], m.info, m.pool, balances, BalanceAt(balances, tokens[0]));
      HeldSame(o.store, balances, tokens[0]);
      ClaimEachHeld(o.store, balances, now, sender, tokens[1..]);
      AdvancesTwice(s, o.store, ClaimEach(s, now, sender, tokens).value.store, now);
    }
  }

  /** A claim pays no more PRISM than the contract holds beyond the PRISM staked in it. */
  ghost predicate PaysOwnPrism(w: World, now: nat, op: Op) {
    var prism := w.store.cfg.prismToken;
    op.Claim? && prism in w.store.pools && ClaimRewards(w.store, now, op.sender, op.only).Ok? ==>
      var sent, balance := ClaimRewards(w.store, now, op.sender, op.only).value.sent, BalanceAt(w.balances, prism);
      balance < sent || PoolCovered(w.store.pools[prism], balance - sent)
  }

  /** paying from a balance keeps the cover exactly when the token's own pool stays covered */
  lemma PayIff(s: Storage, balances: map<Addr, nat>, token: Addr, balance: nat)
    requires Covered(s, balances)
    ensures Covered(s, balances[token := balance]) <==> (token in s.pools ==> PoolCovered(s.pools[token], balance))
  {
    hide PoolCovered;
    var after := balances[token := balance];
    if token in s.pools ==> PoolCovered(s.pools[token], balance) {
      forall t | t in s.pools ensures PoolCovered(s.pools[t], BalanceAt(after, t)) {
        assert PoolCovered(s.pools[t], BalanceAt(balances, t));
      }
    } else {
      assert !PoolCovered(s.pools[token], BalanceAt(after, token));
    }
  }

  lemma ClaimHeldIff(w: World, now: nat, op: Op)
    requires Held(w.store, w.balances) && op.Claim?
    ensures var w' := Step(w, now, op);
            && Books(w'.store) && Advances(w.store, w'.store, now) && OnlyNew(w, op, w'.store.pools)
            && (Held(w'.store, w'.balances) <==> PaysOwnPrism(w, now, op))
  {
    hide Books, Covered, Advances, ClaimEach, ClaimTally;
    SameAdvances(w.store, now);
    var r, prism := ClaimRewards(w.store, now, op.sender, op.only), w.store.cfg.prismToken;
    if r.Ok? && BalanceAt(w.balances, prism) >= r.value.sent {
      var tokens := if op.only.Some? then [op.only.value] else StakedTokens(w.store.rewards, op.sender);
      ClaimEachHeld(w.store, w.balances, now, op.sender, tokens);
      PayIff(r.value.store, w.balances, prism, BalanceAt(w.balances, prism) - r.value.sent);
    }
  }

  // ----- donations and administration -----

  lemma DonateHeld(w: World, now: nat, op: Op)
    requires Held(w.store, w.balances) && op.Donate?
    ensures StepHolds(w, now, op)
  {
    hide Books, Covered, Advances, PoolCovered;
    SameAdvances(w.store, now);
    PayIff(w.store, w.balances, op.token, BalanceAt(w.balances, op.token) + op.amount);
    if op.token in w.store.pools {
      CoverUnder(w.store, w.balances, op.token);
      MoreCovers(w.store.pools[op.token], BalanceAt(w.balances, op.token), op.amount);
    }
  }

  lemma MoreCovers(pool: Pool, balance: nat, more: nat)
    requires PoolCovered(pool, balance)
    ensures PoolCovered(pool, balance + more)
  {
  }

  lemma ExtendHeld(w: World, now: nat, op: Op)
    requires Held(w.store, w.balances) && op.Extend?
    ensures StepHolds(w, now, op)
  {
    hide Books, Covered;
    var s := w.store;
    if AddSchedule(s, now, op.caller, op.added).Ok? {
      var s' := AddSchedule(s, now, op.caller, op.added).value;
      BooksLookAt(s, s');
      CoverLooksAt(s, s', w.balances);
    }
  }

  /** the settling loop over all pools */
  lemma LoopHeld(s: Storage, balances: map<Addr, nat>, token: Addr, weight: nat, now: nat)
    requires Held(s, balances)
    requires UpdateEach(s.cfg, s.pools, Ascending(s.pools.Keys), token, weight, now, false).Ok?
    ensures var r := UpdateEach(s.cfg, s.pools, Ascending(s.pools.Keys), token, weight, now, false).value;
            && Held(s.(pools := r.pools), balances)
            && r.pools.Keys == s.pools.Keys
            && Advances(s, s.(pools := r.pools), now)
            && r.cfg == s.cfg.(totalWeight := r.cfg.totalWeight)
  {
    hide UpdateEach, Books, Covered, Ascending;
    var tokens := Ascending(s.pools.Keys);
    AscendingDistinct(tokens);
    LoopShape(s.cfg, s.pools, tokens, token, weight, now, false);
    var r := UpdateEach(s.cfg, s.pools, tokens, token, weight, now, false).value;
    SettledBooks(s, r.pools, tokens, token, weight, now);
    AllAtNow(s.pools, r.pools, token, weight, now);
    SameCover(s, r.pools, balances);
  }

  /** a change of the total weight alone */
  lemma ConfigHeld(s: Storage, s': Storage, balances: map<Addr, nat>, now: nat)
    requires Held(s, balances) && s' == s.(cfg := s.cfg.(totalWeight := s'.cfg.totalWeight))
    ensures Held(s', balances) && Advances(s, s', now)
  {
    hide Books, Covered;
    BooksLookAt(s, s');
    CoverLooksAt(s, s', balances);
  }

  lemma NewTokenHeld(w: World, now: nat, op: Op)
    requires Held(w.store, w.balances) && op.NewToken?
    ensures StepHolds(w, now, op)
  {
    hide Held, UpdateEach, RegisterEach, SettleAll, Ascending, Advances;
    var s, tokens := w.store, Ascending(w.store.pools.Keys);
    SameAdvances(s, now);
    if Register(s, now, op.caller, op.token, op.period, op.weight).Ok? {
      RegisterIsUpdate(s.cfg, s.pools, tokens, op.token, op.weight, now, false);
      LoopHeld(s, w.balances, op.token, op.weight, now);
      var r := UpdateEach(s.cfg, s.pools, tokens, op.token, op.weight, now, false).value;
      var mid, pool := s.(pools := r.pools), Pool(now, op.weight, 0, 0, 0, 0, op.period);
      AddedHeld(mid, w.balances, now, op.token, pool);
      var mid' := mid.(pools := mid.pools[op.token := pool]);
      var s' := Register(s, now, op.caller, op.token, op.period, op.weight).value;
      ConfigHeld(mid', s', w.balances, now);
      AdvancesTwice(s, mid, mid', now);
      AdvancesTwice(s, mid', s', now);
    }
  }

  lemma AddedHeld(s: Storage, balances: map<Addr, nat>, now: nat, token: Addr, pool: Pool)
    requires Held(s, balances) && token !in s.pools
    requires pool.totalBond == 0 && pool.totalPendingWithdraw == 0 && pool.lastDistributed == now
    ensures var s' := s.(pools := s.pools[token := pool]); Held(s', balances) && Advances(s, s', now)
  {
    hide Books, Covered;
    var s' := s.(pools := s.pools[token := pool]);
    NewPoolBooks(s, token, pool);
    CoverAfter(s, s', token, pool, balances, BalanceAt(balances, token));
    SameBalances(s', balances, token, BalanceAt(balances, token));
  }

  lemma PeriodHeld(s: Storage, balances: map<Addr, nat>, now: nat, token: Addr, period: nat)
    requires Held(s, balances) && token in s.pools
    ensures var s' := s.(pools := s.pools[token := s.pools[token].(unbondPeriod := period)]);
            Held(s', balances) && Advances(s, s', now)
  {
    hide Books, Covered;
    var pool := s.pools[token].(unbondPeriod := period);
    var s' := s.(pools := s.pools[token := pool]);
    PeriodBooks(s, s', token, pool);
    CoverUnder(s, balances, token);
    CoverAfter(s, s', token, pool, balances, BalanceAt(balances, token));
    SameBalances(s', balances, token, BalanceAt(balances, token));
  }

  lemma ReweightHeld(s: Storage, balances: map<Addr, nat>, now: nat, token: Addr, weight: nat)
    requires Held(s, balances) && Reweight(s, now, token, weight).Ok?
    ensures var s' := Reweight(s, now, token, weight).value;
            Held(s', balances) && Advances(s, s', now) && s'.pools.Keys == s.pools.Keys
  {
    hide Held, UpdateEach, Ascending, Advances;
    LoopHeld(s, balances, token, weight, now);
    var r := UpdateEach(s.cfg, s.pools, Ascending(s.pools.Keys), token, weight, now, false).value;
    var mid, s' := s.(pools := r.pools), Reweight(s, now, token, weight).value;
    ConfigHeld(mid, s', balances, now);
    AdvancesTwice(s, mid, s', now);
  }

  lemma ChangeHeld(w: World, now: nat, op: Op)
    requires Held(w.store, w.balances) && op.ChangeToken?
    ensures StepHolds(w, now, op)
  {
    hide Held, Reweight, SettleAll, Ascending, Advances;
    var s := w.store;
    var r := UpdateToken(s, now, op.caller, op.token, op.newPeriod, op.newWeight);
    SameAdvances(s, now);
    if r.Ok? {
      var s1 := s;
      if op.newWeight.Some? {
        ReweightHeld(s, w.balances, now, op.token, op.newWeight.value);
        s1 := Reweight(s, now, op.token, op.newWeight.value).value;
      }
      if op.newPeriod.Some? {
        PeriodHeld(s1, w.balances, now, op.token, op.newPeriod.value);
        AdvancesTwice(s, s1, r.value, now);
      }
    }
  }

  // ----- every run -----

  /** Every transaction keeps books and cover, with the one exception of a claim that pays
      out staked PRISM: exactly that one breaks custody, and it keeps the books. */
  lemma StepHeldIff(w: World, now: nat, op: Op)
    requires Held(w.store, w.balances)
    ensures var w' := Step(w, now, op);
            && Books(w'.store) && Advances(w.store, w'.store, now) && OnlyNew(w, op, w'.store.pools)
            && (Held(w'.store, w'.balances) <==> PaysOwnPrism(w, now, op))
  {
    hide Books, Covered, Advances, Step;
    match op
    case Stake(_, _, _) => StakeHeld(w, now, op);
    case Unstake(_, _, _) => UnstakeHeld(w, now, op);
    case Fetch(_, _) => FetchHeld(w, now, op);
    case Claim(_, _) => ClaimHeldIff(w, now, op);
    case StakeSurplus(_, _) => SurplusHeld(w, now, op);
    case Donate(_, _) => DonateHeld(w, now, op);
    case Extend(_, _) => ExtendHeld(w, now, op);
    case NewToken(_, _, _, _) => NewTokenHeld(w, now, op);
    case ChangeToken(_, _, _, _) => ChangeHeld(w, now, op);
  }

  /** every claim of the run pays from PRISM that is not staked */
  ghost predicate OwnPrismRun(w: World, txs: seq<Tx>)
    decreases |txs|
  {
    txs != [] ==> PaysOwnPrism(w, txs[0].now, txs[0].op) && OwnPrismRun(Step(w, txs[0].now, txs[0].op), txs[1..])
  }

  /** custody holds now and after every transaction of the run */
  ghost predicate HeldThroughout(w: World, txs: seq<Tx>)
    decreases |txs|
  {
    Held(w.store, w.balances) && (txs != [] ==> HeldThroughout(Step(w, txs[0].now, txs[0].op), txs[1..]))
  }

  /** Custody lasts through a run exactly when every claim of the run pays from PRISM that is
      not staked. */
  lemma {:induction false} CustodyLastsIff(w: World, txs: seq<Tx>)
    requires Held(w.store, w.balances)
    ensures HeldThroughout(w, txs) <==> OwnPrismRun(w, txs)
    decreases |txs|
  {
    hide Held, Step, PaysOwnPrism, Books, Advances;
    if txs != [] {
      StepHeldIff(w, txs[0].now, txs[0].op);
      if PaysOwnPrism(w, txs[0].now, txs[0].op) {
        CustodyLastsIff(Step(w, txs[0].now, txs[0].op), txs[1..]);
      }
    }
  }

  lemma {:induction false} RunHeld(w: World, txs: seq<Tx>)
    requires Held(w.store, w.balances) && OwnPrismRun(w, txs)
    ensures Held(Run(w, txs).store, Run(w, txs).balances)
    decreases |txs|
  {
    hide Held, Step, PaysOwnPrism, Books, Advances;
    if txs != [] {
      StepHeldIff(w, txs[0].now, txs[0].op);
      RunHeld(Step(w, txs[0].now, txs[0].op), txs[1..]);
    }
  }

  /** PRISM is no staking token, and the owner never registers it */
  ghost predicate PrismApart(w: World, txs: seq<Tx>) {
    var cfg := w.store.cfg;
    && cfg.prismToken !in w.store.pools
    && forall tx | tx in txs && tx.op.NewToken? && tx.op.caller == cfg.owner :: tx.op.token != cfg.prismToken
  }

  lemma {:induction false} ApartIsOwnPrism(w: World, txs: seq<Tx>)
    requires Held(w.store, w.balances) && PrismApart(w, txs)
    ensures OwnPrismRun(w, txs)
    decreases |txs|
  {
    hide Held, Step, Books, ClaimRewards, PoolCovered, PoolAdvances, RecordAdvances;
    if txs != [] {
      assert txs[0] in txs && forall tx | tx in txs[1..] :: tx in txs;
      StepHeldIff(w, txs[0].now, txs[0].op);
      ApartIsOwnPrism(Step(w, txs[0].now, txs[0].op), txs[1..]);
    }
  }

  // ----- custody -----

  /** In every state of every run in which PRISM is no staking token, whatever its clock, its
      schedules and its weights, the contract holds of every staking token at least what its
      stakers have bonded, on order, and released but not fetched; and every order belongs to
      a record that still exists. */
  lemma CustodyOverRuns(w: World, txs: seq<Tx>)
    requires Held(w.store, w.balances) && PrismApart(w, txs)
    ensures var w' := Run(w, txs);
            var s := w'.store;
            && (forall token | token in s.pools ::
                  BondSum(s.rewards, token) + OrderSum(s.orders, token) + OwedSum(s.rewards, token)
                  <= BalanceAt(w'.balances, token))
            && (forall k | k in s.orders :: (k.0, k.1) in s.rewards)
            && (forall k: RewardKey :: (k.1, k.0) in s.stakers <==> k in s.rewards)
  {
    hide Run, OwnPrismRun, PrismApart, BondSum, OrderSum, OwedSum;
    ApartIsOwnPrism(w, txs);
    RunHeld(w, txs);
    var w' := Run(w, txs);
    forall token | token in w'.store.pools
      ensures BondSum(w'.store.rewards, token) + OrderSum(w'.store.orders, token) + OwedSum(w'.store.rewards, token)
              <= BalanceAt(w'.balances, token)
    {
      CoverUnder(w'.store, w'.balances, token);
      assert PoolBooks(w'.store, token);
    }
  }

  /** Staking the surplus leaves the contract with exactly what is on its books. */
  lemma SurplusIsExact(w: World, now: nat, token: Addr, sender: Addr)
    requires Held(w.store, w.balances)
    ensures AutoStake(w.store, now, token, sender, BalanceAt(w.balances, token)).Ok? ==>
              var w' := Step(w, now, StakeSurplus(token, sender));
              && token in w'.store.pools
              && BondSum(w'.store.rewards, token) + OrderSum(w'.store.orders, token) + OwedSum(w'.store.rewards, token)
                 == BalanceAt(w'.balances, token)
  {
    hide Covered, Advances, AutoStake, Moving, BondSum, OrderSum, OwedSum, Linked, RecordMoved, SameElsewhere,
         TotalsFollow, ComputePoolReward, Credit;
    var balance := BalanceAt(w.balances, token);
    if AutoStake(w.store, now, token, sender, balance).Ok? {
      var m := SurplusMoves(w.store, now, token, sender, balance);
      SurplusHeld(w, now, StakeSurplus(token, sender));
      var w' := Step(w, now, StakeSurplus(token, sender));
      assert w'.store.pools[token] == m.pool;
      assert PoolBooks(w'.store, token);
    }
  }

  // ----- clocks -----

  /** No pool was settled in the future, no record was credited beyond its pool's index, and no
      schedule is empty. */
  ghost predicate Timely(w: World) {
    && (forall a | a in w.store.pools :: w.store.pools[a].lastDistributed <= w.now)
    && (forall k | k in w.store.rewards ::
          k.1 in w.store.pools && w.store.rewards[k].rewardIndex <= w.store.pools[k.1].rewardIndex)
    && (forall e | e in w.store.cfg.schedule :: e.start < e.end)
  }

  lemma AdvancesTimely(w: World, w': World)
    requires Timely(w) && w.now <= w'.now && Advances(w.store, w'.store, w'.now) && Books(w'.store)
    ensures Timely(w')
  {
    hide PoolBooks;
    forall a | a in w'.store.pools ensures w'.store.pools[a].lastDistributed <= w'.now {
      assert PoolAdvances(w.store, w'.store, a, w'.now);
    }
    forall k | k in w'.store.rewards
      ensures k.1 in w'.store.pools && w'.store.rewards[k].rewardIndex <= w'.store.pools[k.1].rewardIndex
    {
      assert RecordAdvances(w.store, w'.store, k);
      assert PoolAdvances(w.store, w'.store, k.1, w'.now);
    }
  }

  predicate ClockForward(now: nat, txs: seq<Tx>)
    decreases |txs|
  {
    txs != [] ==> now <= txs[0].now && ClockForward(txs[0].now, txs[1..])
  }

  lemma StepTime(w: World, now: nat, op: Op)
    ensures Step(w, now, op).now == now
  {
    hide Bond, AutoStake, Unbond, ClaimUnbonded, ClaimRewards, AddSchedule, Register, UpdateToken, Moving, ClaimTally,
         SettleAll, Ascending;
  }

  lemma {:induction false} RunTimely(w: World, txs: seq<Tx>)
    requires Held(w.store, w.balances) && Timely(w) && OwnPrismRun(w, txs) && ClockForward(w.now, txs)
    ensures Held(Run(w, txs).store, Run(w, txs).balances) && Timely(Run(w, txs))
    decreases |txs|
  {
    hide Held, Timely, Step, PaysOwnPrism, Books, Advances;
    if txs != [] {
      StepHeldIff(w, txs[0].now, txs[0].op);
      StepTime(w, txs[0].now, txs[0].op);
      AdvancesTimely(w, Step(w, txs[0].now, txs[0].op));
      RunTimely(Step(w, txs[0].now, txs[0].op), txs[1..]);
    }
  }
}
