/** Every run of LP staking: the books, the emission budget, and the rewards paid, together. */
module LpStakingRuns {
  import opened Addresses
  import opened Results
  import opened FixedPoint
  import opened Sums
  import opened RewardIndex
  import opened LpStakingModel
  import opened LpStakingOrders
  import opened LpStakingCustody
  import opened LpStakingBudget
  import opened LpStakingRewards
  import opened LpStakingReweighting

  /** the storage, the time of the last block, the tokens the contract holds, and the history */
  datatype World = World(store: Storage, now: nat, balances: map<Addr, nat>, tally: Tally)

  function BalanceAt(balances: map<Addr, nat>, token: Addr): nat {
    if token in balances then balances[token] else 0
  }

  datatype Op =
    | Stake(token: Addr, sender: Addr, amount: nat)
    | Unstake(sender: Addr, token: Addr, part: Option<nat>)
    | Fetch(sender: Addr, token: Addr)
    | Claim(sender: Addr, only: Option<Addr>)
    | StakeSurplus(token: Addr, sender: Addr)
    | Donate(token: Addr, amount: nat)
    | Extend(caller: Addr, added: seq<Entry>)
    | NewToken(caller: Addr, token: Addr, period: nat, weight: nat)
    | ChangeToken(caller: Addr, token: Addr, newPeriod: Option<nat>, newWeight: Option<nat>)

  // ----- one transaction -----

  /** a settling call: the pool received, the staker was credited and perhaps paid */
  ghost function Moving(t: Tally, s: Storage, s': Storage, now: nat, staker: Addr, token: Addr, paid: nat): Tally
    requires token in s.pools && token in s'.pools
  {
    Credit1(Receive(t, token, Received(s.cfg, s.pools[token], now)), token, InfoOf(s, staker, token),
            Move(InfoOf(s', staker, token), s'.pools[token], paid))
  }

  ghost function ClaimTally(t: Tally, s: Storage, now: nat, sender: Addr, tokens: seq<Addr>): Tally
    decreases |tokens|
  {
    if tokens == [] || ClaimOne(s, now, sender, tokens[0]).Err? then t
    else
      var o := ClaimOne(s, now, sender, tokens[0]).value;
      ClaimTally(Moving(t, s, o.store, now, sender, tokens[0], o.sent), o.store, now, sender, tokens[1..])
  }

  /** One transaction at time `now`.  A failing call changes nothing, and so does one whose
      transfer the contract's balance does not cover. */
  ghost function Step(w: World, now: nat, op: Op): World {
    var idle := w.(now := now);
    match op
    case Stake(token, sender, amount) =>
      (match Bond(w.store, now, token, sender, amount)
       case Ok(s') =>
         World(s', now, w.balances[token := BalanceAt(w.balances, token) + amount],
               Moving(w.tally, w.store, s', now, sender, token, 0))
       case Err(_) => idle)
    case StakeSurplus(token, sender) =>
      (match AutoStake(w.store, now, token, sender, BalanceAt(w.balances, token))
       case Ok(s') => World(s', now, w.balances, Moving(w.tally, w.store, s', now, sender, token, 0))
       case Err(_) => idle)
    case Unstake(sender, token, part) =>
      (match Unbond(w.store, now, sender, token, part)
       case Ok(o) =>
         if BalanceAt(w.balances, token) < o.sent then idle else
         World(o.store, now, w.balances[token := BalanceAt(w.balances, token) - o.sent],
               Moving(w.tally, w.store, o.store, now, sender, token, 0))
       case Err(_) => idle)
    case Fetch(sender, token) =>
      (match ClaimUnbonded(w.store, now, sender, token)
       case Ok(o) =>
         if BalanceAt(w.balances, token) < o.sent then idle else
         World(o.store, now, w.balances[token := BalanceAt(w.balances, token) - o.sent], w.tally)
       case Err(_) => idle)
    case Claim(sender, only) =>
      (match ClaimRewards(w.store, now, sender, only)
       case Ok(o) =>
         var prism := w.store.cfg.prismToken;
         if BalanceAt(w.balances, prism) < o.sent then idle else
         World(o.store, now, w.balances[prism := BalanceAt(w.balances, prism) - o.sent],
               ClaimTally(w.tally, w.store, now, sender,
                          if only.Some? then [only.value] else StakedTokens(w.store.rewards, sender)))
       case Err(_) => idle)
    case Donate(token, amount) =>
      idle.(balances := w.balances[token := BalanceAt(w.balances, token) + amount])
    case Extend(caller, added) =>
      (match AddSchedule(w.store, now, caller, added)
       case Ok(s') =>
         var zeros := seq(|added|, _ => 0);
         World(s', now, w.balances, w.tally.(base := w.tally.base + zeros, emitted := w.tally.emitted + zeros))
       case Err(_) => idle)
    case NewToken(caller, token, period, weight) =>
      (match Register(w.store, now, caller, token, period, weight)
       case Ok(s') =>
         World(s', now, w.balances,
               Restart(SettleAll(w.tally, w.store.cfg, w.store.pools, Ascending(w.store.pools.Keys), token, weight, now), now))
       case Err(_) => idle)
    case ChangeToken(caller, token, newPeriod, newWeight) =>
      (match UpdateToken(w.store, now, caller, token, newPeriod, newWeight)
       case Ok(s') =>
         if newWeight.None? then World(s', now, w.balances, w.tally) else
         World(s', now, w.balances,
               Restart(SettleAll(w.tally, w.store.cfg, w.store.pools, Ascending(w.store.pools.Keys), token,
                                 newWeight.value, now), now))
       case Err(_) => idle)
  }

  datatype Tx = Tx(now: nat, op: Op)

  ghost function Run(w: World, txs: seq<Tx>): World
    decreases |txs|
  {
    if txs == [] then w else Run(Step(w, txs[0].now, txs[0].op), txs[1..])
  }

  /** Time does not run backwards, and the owner changes weights safely; what others ask for is
      refused. */
  ghost predicate Orderly(w: World, now: nat, op: Op) {
    && w.now <= now
    && (op.ChangeToken? && op.caller == w.store.cfg.owner && op.newWeight.Some? ==>
          SafeWeight(w.store.pools, Ascending(w.store.pools.Keys), op.token, op.newWeight.value))
  }

  ghost predicate OrderlyRun(w: World, txs: seq<Tx>)
    decreases |txs|
  {
    txs != [] ==> Orderly(w, txs[0].now, txs[0].op) && OrderlyRun(Step(w, txs[0].now, txs[0].op), txs[1..])
  }

  // ----- the invariant -----

  /** only pools have a history */
  ghost predicate Registered(s: Storage, t: Tally) {
    t.ledgers.Keys <= s.pools.Keys && t.paid.Keys <= s.pools.Keys
  }

  ghost predicate Sound(w: World) {
    && Books(w.store)
    && Registered(w.store, w.tally)
    && Budgeted(w.store.cfg.schedule, w.store.cfg.totalWeight, w.store.pools, w.tally, w.now)
    && RewardsSound(w.store.rewards, w.store.pools, w.tally)
  }

  // ----- waiting -----

  lemma LaterBudget(schedule: seq<Entry>, total: nat, pools: Pools, t: Tally, before: nat, now: nat)
    requires Budgeted(schedule, total, pools, t, before) && before <= now
    ensures Budgeted(schedule, total, pools, t, now)
  {
    hide EntrySound, WeightSum;
    LaterTimes(pools, t.since, before, now);
  }

  lemma WaitSound(w: World, now: nat)
    requires Sound(w) && w.now <= now
    ensures Sound(w.(now := now))
  {
    hide Books, Registered, Budgeted, RewardsSound;
    LaterBudget(w.store.cfg.schedule, w.store.cfg.totalWeight, w.store.pools, w.tally, w.now, now);
  }

  // ----- settling calls -----

  lemma SameTallyParts(t: Tally, token: Addr, before: RewardInfo, m: Move)
    ensures var t' := Credit1(t, token, before, m);
            t'.since == t.since && t'.base == t.base && t'.emitted == t.emitted
  {
  }

  lemma BudgetLooksAt(schedule: seq<Entry>, total: nat, pools: Pools, t: Tally, t': Tally, now: nat)
    requires Budgeted(schedule, total, pools, t, now)
    requires t'.since == t.since && t'.base == t.base && t'.emitted == t.emitted
    ensures Budgeted(schedule, total, pools, t', now)
  {
    hide WeightSum, TimesWithin, EntryBudget;
    forall j | 0 <= j < |schedule| ensures EntrySound(schedule[j], total, pools, t', j) {
      assert EntrySound(schedule[j], total, pools, t, j);
    }
  }

  /** a settling call keeps books, budget and rewards */
  lemma MoveSound(s: Storage, s': Storage, before: nat, now: nat, staker: Addr, token: Addr, m: Move, t: Tally)
    requires Books(s) && Registered(s, t) && RewardsSound(s.rewards, s.pools, t)
    requires Budgeted(s.cfg.schedule, s.cfg.totalWeight, s.pools, t, before) && before <= now
    requires SettledMove(s, s', now, staker, token, m)
    ensures var t' := Credit1(Receive(t, token, Received(s.cfg, s.pools[token], now)), token, InfoOf(s, staker, token), m);
            && Books(s') && Registered(s', t') && RewardsSound(s'.rewards, s'.pools, t')
            && Budgeted(s'.cfg.schedule, s'.cfg.totalWeight, s'.pools, t', now)
            && s'.cfg == s.cfg && s'.pools == s.pools[token := m.pool]
  {
    hide Books, RewardsSound, Budgeted, ComputePoolReward, Received, RecordMoved, SameElsewhere, TotalsFollow, InfoOf, Credit;
    var t1 := Receive(t, token, Received(s.cfg, s.pools[token], now));
    LaterBudget(s.cfg.schedule, s.cfg.totalWeight, s.pools, t, before, now);
    PoolKept(s.cfg, s.pools[token], now);
    MovedBooks(s, s', staker, token, m.info, m.pool);
    assert |t.emitted| == |s.cfg.schedule| by { BudgetLengths(s.cfg.schedule, s.cfg.totalWeight, s.pools, t, now); }
    CreditSound(s, s', now, staker, token, m, t);
    SettleBudgeted(s.cfg, s.cfg.totalWeight, s.pools, t, now, token, s.pools[token], m.pool);
    SameTallyParts(t1, token, InfoOf(s, staker, token), m);
    BudgetLooksAt(s.cfg.schedule, s.cfg.totalWeight, s'.pools, t1, Credit1(t1, token, InfoOf(s, staker, token), m), now);
  }

  lemma BudgetLengths(schedule: seq<Entry>, total: nat, pools: Pools, t: Tally, now: nat)
    requires Budgeted(schedule, total, pools, t, now)
    ensures |t.emitted| == |schedule| && |t.base| == |schedule|
  {
  }

  /** the tally of a settling call, read off the storage */
  lemma MovingIs(t: Tally, s: Storage, s': Storage, now: nat, staker: Addr, token: Addr, m: Move)
    requires SettledMove(s, s', now, staker, token, m)
    ensures token in s'.pools
    ensures Moving(t, s, s', now, staker, token, m.paid)
            == Credit1(Receive(t, token, Received(s.cfg, s.pools[token], now)), token, InfoOf(s, staker, token), m)
  {
    hide ComputePoolReward, Received, OrderTimes, SameElsewhere, TotalsFollow, Credit;
    var key: RewardKey := (staker, token);
    if s'.rewards == s.rewards - {key} && s'.rewards != s.rewards[key := m.info] {
      assert InfoOf(s', staker, token).bond == m.info.bond;
    } else {
      assert InfoOf(s', staker, token) == m.info;
    }
  }

  lemma StakeSound(w: World, now: nat, op: Op)
    requires Sound(w) && w.now <= now && op.Stake?
    ensures Sound(Step(w, now, op))
  {
    hide Books, Registered, Budgeted, RewardsSound, Bond, Moving, SettledMove;
    var r := Bond(w.store, now, op.token, op.sender, op.amount);
    if r.Err? {
      WaitSound(w, now);
    } else {
      var m := BondMoves(w.store, now, op.token, op.sender, op.amount);
      MoveInPools(w.store, r.value, now, op.sender, op.token, m);
      StakedSound(w, now, op.token, op.sender, r.value, m, Step(w, now, op).balances);
    }
  }

  lemma StakedSound(w: World, now: nat, token: Addr, sender: Addr, s': Storage, m: Move, balances: map<Addr, nat>)
    requires Sound(w) && w.now <= now
    requires SettledMove(w.store, s', now, sender, token, m) && m.paid == 0
    requires token in w.store.pools
    ensures token in s'.pools
    ensures Sound(World(s', now, balances, Moving(w.tally, w.store, s', now, sender, token, 0)))
  {
    hide Books, Registered, Budgeted, RewardsSound, Moving, SettledMove;
    MoveSound(w.store, s', w.now, now, sender, token, m, w.tally);
    MovingIs(w.tally, w.store, s', now, sender, token, m);
  }

  /** staking the surplus takes everything the contract holds of the token onto the books */
  lemma SurplusMoves(s: Storage, now: nat, token: Addr, sender: Addr, balance: nat) returns (m: Move)
    requires AutoStake(s, now, token, sender, balance).Ok?
    ensures var s' := AutoStake(s, now, token, sender, balance).value;
            && SettledMove(s, s', now, sender, token, m) && m.paid == 0
            && m.pool.totalBond + m.pool.totalPendingWithdraw == balance
    ensures token in s.pools
  {
    hide Bond, SettledMove;
    m := BondMoves(s, now, token, sender, balance - s.pools[token].totalBond - s.pools[token].totalPendingWithdraw);
  }

  lemma SurplusSound(w: World, now: nat, op: Op)
    requires Sound(w) && w.now <= now && op.StakeSurplus?
    ensures Sound(Step(w, now, op))
  {
    hide Books, Registered, Budgeted, RewardsSound, AutoStake, Moving, SettledMove;
    var balance := BalanceAt(w.balances, op.token);
    var r := AutoStake(w.store, now, op.token, op.sender, balance);
    if r.Err? {
      WaitSound(w, now);
    } else {
      var m := SurplusMoves(w.store, now, op.token, op.sender, balance);
      StakedSound(w, now, op.token, op.sender, r.value, m, w.balances);
    }
  }

  lemma MoveInPools(s: Storage, s': Storage, now: nat, staker: Addr, token: Addr, m: Move)
    requires SettledMove(s, s', now, staker, token, m)
    ensures token in s.pools
  {
  }

  lemma UnstakeSound(w: World, now: nat, op: Op)
    requires Sound(w) && w.now <= now && op.Unstake?
    ensures Sound(Step(w, now, op))
  {
    hide Linked, PoolBooks, Registered, Budgeted, RewardsSound, Unbond, Moving, SettledMove, ImmediateUnbond;
    var r := Unbond(w.store, now, op.sender, op.token, op.part);
    if r.Err? || BalanceAt(w.balances, op.token) < r.value.sent {
      WaitSound(w, now);
    } else {
      var m := UnbondMoves(w.store, now, op.sender, op.token, op.part);
      hide Books;
      var s' := r.value.store;
      MoveInPools(w.store, s', now, op.sender, op.token, m);
      MoveSound(w.store, s', w.now, now, op.sender, op.token, m, w.tally);
      MovingIs(w.tally, w.store, s', now, op.sender, op.token, m);
    }
  }

  lemma FetchSound(w: World, now: nat, op: Op)
    requires Sound(w) && w.now <= now && op.Fetch?
    ensures Sound(Step(w, now, op))
  {
    hide Linked, PoolBooks, Budgeted, RewardsSound, ClaimUnbonded, RecordMoved, SameElsewhere, TotalsFollow;
    var r := ClaimUnbonded(w.store, now, op.sender, op.token);
    if r.Err? || BalanceAt(w.balances, op.token) < r.value.sent {
      WaitSound(w, now);
    } else {
      FetchHasRecord(w.store, now, op.sender, op.token);
      var info, pool := ClaimUnbondedMoves(w.store, now, op.sender, op.token);
      var s, s' := w.store, r.value.store;
      MovedBooks(s, s', op.sender, op.token, info, pool);
      hide Books;
      UntouchedSound(s, s', op.sender, op.token, info, pool, w.tally);
      LaterBudget(s.cfg.schedule, s.cfg.totalWeight, s.pools, w.tally, w.now, now);
      SamePoolTimes(s.cfg, s.pools, w.tally, now, op.token, pool);
    }
  }

  lemma FetchHasRecord(s: Storage, now: nat, sender: Addr, token: Addr)
    requires ClaimUnbonded(s, now, sender, token).Ok?
    ensures (sender, token) in s.rewards && token in s.pools
  {
  }

  /** the budget looks at a pool's weight and time only */
  lemma SamePoolTimes(cfg: Config, pools: Pools, t: Tally, now: nat, a: Addr, pool: Pool)
    requires Budgeted(cfg.schedule, cfg.totalWeight, pools, t, now) && a in pools
    requires pool.weight == pools[a].weight && pool.lastDistributed == pools[a].lastDistributed
    ensures Budgeted(cfg.schedule, cfg.totalWeight, pools[a := pool], t, now)
  {
    hide WeightSum;
    var after := pools[a := pool];
    SameWeight(pools, a, pool);
    forall j | 0 <= j < |cfg.schedule| ensures EntrySound(cfg.schedule[j], cfg.totalWeight, after, t, j) {
      assert EntrySound(cfg.schedule[j], cfg.totalWeight, pools, t, j);
      SameSettledTime(pools, cfg.schedule[j], t.since, a, pool);
    }
  }

  lemma SameSettledTime(pools: Pools, e: Entry, since: nat, a: Addr, pool: Pool)
    requires a in pools
    requires pool.weight == pools[a].weight && pool.lastDistributed == pools[a].lastDistributed
    ensures SettledTime(pools[a := pool], e, since) == SettledTime(pools, e, since)
  {
    hide Overlap;
    var after := pools[a := pool];
    assert after.Keys == pools.Keys;
    SumCongruent(pools.Keys, SettledPart(pools, e, since), SettledPart(after, e, since));
  }

  // ----- claiming rewards -----

  lemma ClaimOneFound(s: Storage, now: nat, sender: Addr, token: Addr)
    requires ClaimOne(s, now, sender, token).Ok?
    ensures token in s.pools && (sender, token) in s.rewards
  {
  }

  /** Claiming from several pools settles one after the other, and changes no bond and no
      pending amount of tokens. */
  lemma {:induction false} ClaimEachSound(w: World, now: nat, sender: Addr, tokens: seq<Addr>)
    requires Sound(w) && w.now <= now && ClaimEach(w.store, now, sender, tokens).Ok?
    ensures var o := ClaimEach(w.store, now, sender, tokens).value;
            && Sound(World(o.store, now, w.balances, ClaimTally(w.tally, w.store, now, sender, tokens)))
            && o.store.cfg == w.store.cfg
    decreases |tokens|
  {
    hide Linked, PoolBooks, Registered, Budgeted, RewardsSound, ClaimOne, Moving, SettledMove;
    if tokens == [] {
      WaitSound(w, now);
    } else {
      var token := tokens[0];
      var o := ClaimOne(w.store, now, sender, token).value;
      var m := ClaimOneMoves(w.store, now, sender, token);
      ClaimOneFound(w.store, now, sender, token);
      hide Books;
      MoveSound(w.store, o.store, w.now, now, sender, token, m, w.tally);
      MovingIs(w.tally, w.store, o.store, now, sender, token, m);
      var w1 := World(o.store, now, w.balances, Moving(w.tally, w.store, o.store, now, sender, token, o.sent));
      ClaimEachSound(w1, now, sender, tokens[1..]);
    }
  }

  lemma ClaimSound(w: World, now: nat, op: Op)
    requires Sound(w) && w.now <= now && op.Claim?
    ensures Sound(Step(w, now, op))
  {
    hide Books, Registered, Budgeted, RewardsSound, ClaimEach, ClaimTally;
    var r := ClaimRewards(w.store, now, op.sender, op.only);
    var prism := w.store.cfg.prismToken;
    if r.Err? || BalanceAt(w.balances, prism) < r.value.sent {
      WaitSound(w, now);
    } else {
      var tokens := if op.only.Some? then [op.only.value] else StakedTokens(w.store.rewards, op.sender);
      ClaimEachSound(w, now, op.sender, tokens);
    }
  }

  // ----- donations and administration -----

  lemma DonateSound(w: World, now: nat, op: Op)
    requires Sound(w) && w.now <= now && op.Donate?
    ensures Sound(Step(w, now, op))
  {
    hide Books, Registered, Budgeted, RewardsSound;
    WaitSound(w, now);
  }

  ghost function Extended(t: Tally, n: nat): Tally {
    var zeros := seq(n, _ => 0);
    t.(base := t.base + zeros, emitted := t.emitted + zeros)
  }

  lemma {:induction false} SumSeqZeros(q: seq<nat>, zeros: seq<nat>)
    requires forall i | 0 <= i < |zeros| :: zeros[i] == 0
    ensures SumSeq(q + zeros) == SumSeq(q)
    decreases |q| + |zeros|
  {
    if q != [] {
      assert (q + zeros)[1..] == q[1..] + zeros;
      SumSeqZeros(q[1..], zeros);
    } else if zeros != [] {
      assert q + zeros == zeros && q + zeros[1..] == zeros[1..];
      SumSeqZeros(q, zeros[1..]);
    } else {
      assert q + zeros == q;
    }
  }

  lemma NewEntrySound(e: Entry, total: nat, pools: Pools, since: nat)
    requires e.start < e.end
    ensures EntryBudget(e, pools, total, since, 0, 0)
  {
    SettledTimeNonneg(pools, e, since);
    hide SettledTime, Elapsed;
    MulNonneg(e.amount, SettledTime(pools, e, since));
    MulNonneg(e.amount, Elapsed(e, since));
    assert (0 - 0) * total * (e.end - e.start) == 0;
  }

  /** a new schedule starts with nothing emitted */
  lemma ExtendBudget(schedule: seq<Entry>, added: seq<Entry>, total: nat, pools: Pools, t: Tally, now: nat)
    requires Budgeted(schedule, total, pools, t, now)
    requires forall e | e in added :: e.start < e.end
    ensures Budgeted(schedule + added, total, pools, Extended(t, |added|), now)
  {
    hide EntryBudget, WeightSum, TimesWithin;
    var t' := Extended(t, |added|);
    forall j | 0 <= j < |schedule + added| ensures EntrySound((schedule + added)[j], total, pools, t', j) {
      if j < |schedule| {
        assert EntrySound(schedule[j], total, pools, t, j);
      } else {
        assert added[j - |schedule|] in added;
        NewEntrySound(added[j - |schedule|], total, pools, t.since);
      }
    }
  }

  lemma ExtendRewards(rewards: Rewards, pools: Pools, t: Tally, n: nat)
    requires RewardsSound(rewards, pools, t)
    ensures RewardsSound(rewards, pools, Extended(t, n))
  {
    hide PoolConserved, PendingSum;
    var t' := Extended(t, n);
    SumSeqZeros(t.emitted, seq(n, _ => 0));
    SumCongruent(pools.Keys, EmittedPart(t), EmittedPart(t'));
    forall token | token in pools ensures PoolSound(rewards, pools, token, t') {
      assert PoolSound(rewards, pools, token, t);
    }
  }

  lemma BooksLookAt(s: Storage, s': Storage)
    requires Books(s) && s' == s.(cfg := s'.cfg)
    ensures Books(s')
  {
    hide BondSum, OwedSum, OrderSum;
    forall t | t in s'.pools ensures PoolBooks(s', t) {
      assert PoolBooks(s, t);
    }
  }

  lemma ExtendSound(w: World, now: nat, op: Op)
    requires Sound(w) && w.now <= now && op.Extend?
    ensures Sound(Step(w, now, op))
  {
    hide Books, Budgeted, RewardsSound;
    var s := w.store;
    if AddSchedule(s, now, op.caller, op.added).Err? {
      WaitSound(w, now);
    } else {
      var s' := AddSchedule(s, now, op.caller, op.added).value;
      BooksLookAt(s, s');
      LaterBudget(s.cfg.schedule, s.cfg.totalWeight, s.pools, w.tally, w.now, now);
      ExtendBudget(s.cfg.schedule, op.added, s.cfg.totalWeight, s.pools, w.tally, now);
      ExtendRewards(s.rewards, s.pools, w.tally, |op.added|);
    }
  }

  // ----- changes of weights -----

  /** The settling loop over all pools, with a safe weight, from a sound world. */
  lemma LoopSound(w: World, now: nat, token: Addr, weight: nat) returns (r: Reweighted, t': Tally)
    requires Sound(w) && w.now <= now
    requires UpdateEach(w.store.cfg, w.store.pools, Ascending(w.store.pools.Keys), token, weight, now, false).Ok?
    requires SafeWeight(w.store.pools, Ascending(w.store.pools.Keys), token, weight)
    ensures UpdateEach(w.store.cfg, w.store.pools, Ascending(w.store.pools.Keys), token, weight, now, false) == Ok(r)
    ensures t' == SettleAll(w.tally, w.store.cfg, w.store.pools, Ascending(w.store.pools.Keys), token, weight, now)
    ensures var s, tokens := w.store, Ascending(w.store.pools.Keys);
            && AllSettled(s.pools, r.pools, tokens, token, weight, now)
            && Books(s.(pools := r.pools))
            && RewardsSound(s.rewards, r.pools, t')
            && Paced(s.cfg.schedule, t', now)
            && r.found == (token in s.pools)
            && r.cfg == s.cfg.(totalWeight := r.cfg.totalWeight)
            && r.cfg.totalWeight == WeightSum(r.pools)
            && t'.paid == w.tally.paid && t'.ledgers.Keys <= s.pools.Keys
  {
    hide UpdateEach, SettleAll, Books, RewardsSound, SafeWeight, Ascending, AllSettled, WeightSum, Paced, EntrySound;
    var s, t, tokens := w.store, w.tally, Ascending(w.store.pools.Keys);
    AscendingDistinct(tokens);
    LaterBudget(s.cfg.schedule, s.cfg.totalWeight, s.pools, t, w.now, now);
    LoopShape(s.cfg, s.pools, tokens, token, weight, now, false);
    LoopRewards(s.rewards, s.cfg, s.pools, tokens, token, weight, now, false, t);
    SeenFirst(s.pools, tokens);
    LoopBudget(s.cfg, s.pools, tokens, token, weight, now, false, s.cfg.totalWeight, s.pools, t);
    r := UpdateEach(s.cfg, s.pools, tokens, token, weight, now, false).value;
    t' := SettleAll(t, s.cfg, s.pools, tokens, token, weight, now);
    SettledBooks(s, r.pools, tokens, token, weight, now);
    ReweighedSum(s.pools, r.pools, token, weight, now);
  }

  lemma SeenFirst(pools: Pools, tokens: seq<Addr>)
    requires forall a | a in tokens :: a in pools
    ensures Unsettled(pools, pools, tokens)
  {
  }

  /** every pool was settled at `now` */
  lemma AllAtNow(pools: Pools, pools': Pools, token: Addr, weight: nat, now: nat)
    requires AllSettled(pools, pools', Ascending(pools.Keys), token, weight, now)
    ensures pools'.Keys == pools.Keys
    ensures forall a | a in pools' :: pools'[a].lastDistributed == now
    ensures forall a | a in pools' ::
              pools'[a].totalBond == pools[a].totalBond && pools'[a].totalPendingWithdraw == pools[a].totalPendingWithdraw
  {
  }

  lemma RestartSame(rewards: Rewards, pools: Pools, t: Tally, now: nat)
    requires RewardsSound(rewards, pools, t)
    ensures RewardsSound(rewards, pools, Restart(t, now))
  {
    hide PoolConserved, PendingSum;
    var t' := Restart(t, now);
    SumCongruent(pools.Keys, EmittedPart(t), EmittedPart(t'));
    forall token | token in pools ensures PoolSound(rewards, pools, token, t') {
      assert PoolSound(rewards, pools, token, t);
    }
  }

  lemma ReweighSoundStep(w: World, now: nat, token: Addr, weight: nat)
    requires Sound(w) && w.now <= now
    requires SafeWeight(w.store.pools, Ascending(w.store.pools.Keys), token, weight)
    requires Reweight(w.store, now, token, weight).Ok?
    ensures Sound(World(Reweight(w.store, now, token, weight).value, now, w.balances,
                        Restart(SettleAll(w.tally, w.store.cfg, w.store.pools, Ascending(w.store.pools.Keys),
                                          token, weight, now), now)))
  {
    hide UpdateEach, SettleAll, Books, RewardsSound, Budgeted, SafeWeight, Ascending, AllSettled, WeightSum, Paced;
    var s, tokens := w.store, Ascending(w.store.pools.Keys);
    var r, t := LoopSound(w, now, token, weight);
    AllAtNow(s.pools, r.pools, token, weight, now);
    RestartBudgeted(s.cfg.schedule, r.cfg.totalWeight, r.pools, t, now);
    RestartSame(s.rewards, r.pools, t, now);
    var mid, s' := s.(pools := r.pools), Reweight(s, now, token, weight).value;
    assert s' == mid.(cfg := r.cfg);
    BooksLookAt(mid, s');
  }

  /** the unbonding period is outside all of it */
  lemma PeriodSound(w: World, token: Addr, period: nat)
    requires Sound(w) && token in w.store.pools
    ensures Sound(w.(store := w.store.(pools := w.store.pools[token := w.store.pools[token].(unbondPeriod := period)])))
  {
    hide Linked, BondSum, OwedSum, OrderSum, Budgeted, EmissionSplit, Conserved, PendingSum, StakesOf;
    var s, pool := w.store, w.store.pools[token].(unbondPeriod := period);
    var s' := s.(pools := s.pools[token := pool]);
    PeriodBooks(s, s', token, pool);
    SamePoolTimes(s.cfg, s.pools, w.tally, w.now, token, pool);
    SplitSame(s.pools, s'.pools, w.tally, w.tally);
    forall t | t in s'.pools ensures PoolSound(s.rewards, s'.pools, t, w.tally) {
      assert PoolSound(s.rewards, s.pools, t, w.tally);
    }
  }

  lemma PeriodBooks(s: Storage, s': Storage, token: Addr, pool: Pool)
    requires Books(s) && token in s.pools && s' == s.(pools := s.pools[token := pool])
    requires pool.totalBond == s.pools[token].totalBond
    requires pool.totalPendingWithdraw == s.pools[token].totalPendingWithdraw
    ensures Books(s')
  {
    hide BondSum, OwedSum, OrderSum;
    forall t | t in s'.pools ensures PoolBooks(s', t) {
      assert PoolBooks(s, t);
    }
  }

  lemma ChangeSound(w: World, now: nat, op: Op)
    requires Sound(w) && Orderly(w, now, op) && op.ChangeToken?
    ensures Sound(Step(w, now, op))
  {
    hide Sound, Reweight, SettleAll, SafeWeight, Ascending;
    var s := w.store;
    var r := UpdateToken(s, now, op.caller, op.token, op.newPeriod, op.newWeight);
    WaitSound(w, now);
    if r.Ok? {
      var w1 := w.(now := now);
      if op.newWeight.Some? {
        ReweighSoundStep(w, now, op.token, op.newWeight.value);
        w1 := World(Reweight(s, now, op.token, op.newWeight.value).value, now, w.balances,
                    Restart(SettleAll(w.tally, s.cfg, s.pools, Ascending(s.pools.Keys), op.token,
                                      op.newWeight.value, now), now));
      }
      if op.newPeriod.Some? {
        PeriodSound(w1, op.token, op.newPeriod.value);
      }
    }
  }

  // ----- new pools -----

  lemma EmptyPart(rewards: Rewards, token: Addr, f: RewardInfo -> int)
    requires forall k | k in rewards :: k.1 != token
    ensures PartSum(rewards, token, f) == 0
  {
    SumZero(rewards.Keys, Part(rewards, token, f));
  }

  lemma NewPoolBooks(s: Storage, token: Addr, pool: Pool)
    requires Books(s) && token !in s.pools
    requires pool.totalBond == 0 && pool.totalPendingWithdraw == 0
    ensures Books(s.(pools := s.pools[token := pool]))
  {
    hide PartSum, OrderSum;
    var s' := s.(pools := s.pools[token := pool]);
    forall t | t in s'.pools ensures PoolBooks(s', t) {
      if t == token {
        EmptyPart(s.rewards, token, Bonds);
        EmptyPart(s.rewards, token, Owed);
        NoOrders(s, token);
      } else {
        assert PoolBooks(s, t);
      }
    }
  }

  lemma NoOrders(s: Storage, token: Addr)
    requires Linked(s) && token !in s.pools
    ensures OrderSum(s.orders, token) == 0
  {
    SumZero(s.orders.Keys, OrderPart(s.orders, token));
  }

  lemma NoRecords(s: Storage, token: Addr)
    requires Books(s) && token !in s.pools
    ensures forall k | k in s.rewards :: k.1 != token
  {
    hide PoolBooks;
  }

  lemma NewPoolRewards(s: Storage, pools: Pools, t: Tally, token: Addr, pool: Pool)
    requires RewardsSound(s.rewards, pools, t) && token !in pools
    requires forall k | k in s.rewards :: k.1 != token
    requires token !in t.ledgers && token !in t.paid
    requires pool.totalBond == 0 && pool.pendingReward == 0
    ensures RewardsSound(s.rewards, pools[token := pool], t)
  {
    hide Conserved, PartSum;
    var after := pools[token := pool];
    EmptyConserved<RewardKey>(pool.rewardIndex);
    assert StakesOf(s.rewards, token) == map[];
    EmptyPart(s.rewards, token, Pending);
    SumExtend(pools.Keys, after.Keys, EmittedPart(t));
    forall a | a in after ensures PoolSound(s.rewards, after, a, t) {
      if a != token {
        assert PoolSound(s.rewards, pools, a, t);
      }
    }
  }

  lemma NewWeight(pools: Pools, token: Addr, pool: Pool)
    requires token !in pools
    ensures WeightSum(pools[token := pool]) == WeightSum(pools) + pool.weight
  {
    var after := pools[token := pool];
    SumUpdate(pools.Keys, after.Keys, token, WeightPart(pools), WeightPart(after));
  }

  lemma NewTokenSound(w: World, now: nat, op: Op)
    requires Sound(w) && Orderly(w, now, op) && op.NewToken?
    ensures Sound(Step(w, now, op))
  {
    hide UpdateEach, RegisterEach, SettleAll, Books, RewardsSound, Budgeted, Ascending, AllSettled, WeightSum, Paced;
    var s, tokens := w.store, Ascending(w.store.pools.Keys);
    if Register(s, now, op.caller, op.token, op.period, op.weight).Err? {
      WaitSound(w, now);
    } else {
      var token, pool := op.token, Pool(now, op.weight, 0, 0, 0, 0, op.period);
      RegisterIsUpdate(s.cfg, s.pools, tokens, token, op.weight, now, false);
      var r, t := LoopSound(w, now, token, op.weight);
      AllAtNow(s.pools, r.pools, token, op.weight, now);
      var mid := s.(pools := r.pools);
      var mid' := mid.(pools := r.pools[token := pool]);
      NewPoolBooks(mid, token, pool);
      NoRecords(s, token);
      NewPoolRewards(s, r.pools, t, token, pool);
      NewWeight(r.pools, token, pool);
      RestartBudgeted(s.cfg.schedule, s.cfg.totalWeight + op.weight, mid'.pools, t, now);
      RestartSame(s.rewards, mid'.pools, t, now);
      var s' := Register(s, now, op.caller, token, op.period, op.weight).value;
      BooksLookAt(mid', s');
    }
  }
}
