/** What the clock of the launch pool decides over every run: when index updates work, and
    when rewards can be claimed. */
module LaunchPoolTiming {
  import opened Addresses
  import opened Results
  import opened FixedPoint
  import opened Sums
  import opened LaunchPoolModel
  import opened LaunchPoolAccounts
  import opened LaunchPoolEmission
  import opened LaunchPoolVesting
  import opened LaunchPoolRuns

  /** time does not run backwards */
  predicate ClockForward(now: nat, txs: seq<Tx>)
    decreases |txs|
  {
    txs != [] ==> now <= txs[0].now && ClockForward(txs[0].now, txs[1..])
  }

  lemma StepTime(w: World, now: nat, op: Op)
    ensures Step(w, now, op).now == now
  {
    hide Apply, Recorded;
  }

  // ----- index updates -----

  /** no update works any more */
  ghost predicate Stuck(s: Storage, now: nat) {
    forall later | later >= now :: UpdateRewardIndexes(s, later).Err?
  }

  /** the owner's ratio is fair; what others ask for is refused */
  predicate Fair(s: Storage, now: nat, op: Op) {
    op.UpdateConfig? && op.caller == s.cfg.owner && op.ratio.Some? && op.ratio.value <= E ==>
      FairRatio(s, now, op.ratio.value)
  }

  ghost predicate FairRun(w: World, txs: seq<Tx>)
    decreases |txs|
  {
    txs != [] ==> Fair(w.store, txs[0].now, txs[0].op) && FairRun(Step(w, txs[0].now, txs[0].op), txs[1..])
  }

  /** all that an index update reads, apart from the weights */
  predicate SameEmission(s: Storage, s': Storage) {
    && s'.cfg.schedule == s.cfg.schedule && s'.cfg.basePoolRatio == s.cfg.basePoolRatio
    && s'.base.totalDistributed == s.base.totalDistributed
    && s'.boost.totalDistributed == s.boost.totalDistributed
  }

  lemma {:induction false} EachSameEmission(s: Storage, now: nat, accounts: seq<Addr>)
    requires WithdrawEach(s, now, accounts).Ok?
    ensures SameEmission(s, WithdrawEach(s, now, accounts).value)
    decreases |accounts|
  {
    hide WithdrawSingle;
    if accounts != [] {
      WithdrawKeepsPools(s, now, accounts[0]);
      EachSameEmission(WithdrawSingle(s, now, accounts[0]).value, now, accounts[1..]);
    }
  }

  lemma CoresSameEmission(s: Storage, a: Addr, amount: nat, part: Option<nat>, boost: nat)
    ensures BondCore(s, a, amount, boost).Ok? ==> SameEmission(s, BondCore(s, a, amount, boost).value)
    ensures UnbondCore(s, a, part, boost).Ok? ==> SameEmission(s, UnbondCore(s, a, part, boost).value)
    ensures RefreshCore(s, a, boost).Ok? ==> SameEmission(s, RefreshCore(s, a, boost).value)
  {
    hide PullPendingRewards, BoostFor, Bonded;
  }

  /** a settling call is an index update, and does nothing more to the emission */
  lemma SettlingEmission(s: Storage, now: nat, op: Op)
    requires Apply(s, now, op).Ok? && !op.UpdateConfig? && !op.Claim?
    ensures UpdateRewardIndexes(s, now).Ok?
    ensures SameEmission(UpdateRewardIndexes(s, now).value, Apply(s, now, op).value)
  {
    UpdatedFirst(s, now, op);
    var s1 := UpdateRewardIndexes(s, now).value;
    hide UpdateRewardIndexes, BondCore, UnbondCore, RefreshCore, WithdrawSingle, WithdrawEach, PagedAccounts, Bonded,
         SameEmission;
    match op
    case Bond(sender, amount, boost) => CoresSameEmission(s1, sender, amount, None, boost);
    case Unbond(sender, part, boost) => CoresSameEmission(s1, sender, 0, part, boost);
    case ActivateBoost(sender, boost) => CoresSameEmission(s1, sender, 0, None, boost);
    case PrivilegedRefresh(_, account, boost) => CoresSameEmission(s1, account, 0, None, boost);
    case Withdraw(sender) => WithdrawOne(s1, now, sender);
    case WithdrawBulk(_, limit, startAfter) => EachSameEmission(s1, now, PagedAccounts(s1.rewards, limit, startAfter));
    case _ =>
  }

  lemma WithdrawOne(s: Storage, now: nat, a: Addr)
    requires WithdrawSingle(s, now, a).Ok?
    ensures SameEmission(s, WithdrawSingle(s, now, a).value)
  {
    hide WithdrawSingle;
    WithdrawKeepsPools(s, now, a);
  }

  /** a claim leaves the pools alone */
  lemma ClaimEmission(s: Storage, now: nat, op: Op)
    requires op.Claim? && Apply(s, now, op).Ok?
    ensures SameEmission(s, Apply(s, now, op).value)
  {
    hide ClaimWithdrawnRewards, Holdings, VestAt, PendingOf;
    ClaimPays(s, now, op.sender);
  }

  /** a configuration call is a ratio change, or does nothing to the emission */
  lemma ConfigEmission(s: Storage, now: nat, op: Op)
    requires op.UpdateConfig?
    ensures Apply(s, now, op).Ok? <==> op.caller == s.cfg.owner && (op.ratio.Some? ==> ChangeRatio(s, now, op.ratio.value).Ok?)
    ensures Apply(s, now, op).Ok? ==>
              SameEmission(if op.ratio.Some? then ChangeRatio(s, now, op.ratio.value).value else s, Apply(s, now, op).value)
  {
    hide ChangeRatio;
  }

  lemma SameOnSchedule(s: Storage, s': Storage, before: nat, now: nat)
    requires OnSchedule(s, before) && before <= now && SameEmission(s, s')
    ensures OnSchedule(s', now)
  {
    CapMono(s.cfg.schedule, before, now, s.cfg.basePoolRatio);
    CapMono(s.cfg.schedule, before, now, E - s.cfg.basePoolRatio);
    hide Cap;
  }

  /** whether an update works depends on the emission only */
  lemma SameUpdates(s: Storage, s': Storage, now: nat)
    requires SameEmission(s, s')
    ensures UpdateRewardIndexes(s', now).Ok? <==> UpdateRewardIndexes(s, now).Ok?
  {
    hide MulDec, Released, Ratio;
  }

  lemma SameStuck(s: Storage, s': Storage, before: nat, now: nat)
    requires Stuck(s, before) && before <= now && SameEmission(s, s')
    ensures Stuck(s', now)
  {
    hide UpdateRewardIndexes, SameEmission;
    forall later | later >= now ensures UpdateRewardIndexes(s', later).Err? {
      SameUpdates(s, s', later);
    }
  }

  /** From a state on schedule, a fair transaction leads to one, and any other to a state in
      which no update works any more. */
  lemma StepFate(w: World, now: nat, op: Op)
    requires OnSchedule(w.store, w.now) && w.now <= now
    ensures if Fair(w.store, now, op) then OnSchedule(Step(w, now, op).store, now) else Stuck(Step(w, now, op).store, now)
  {
    hide Apply, Recorded, ChangeRatio, UpdateRewardIndexes, Cap, FairRatio;
    var s := w.store;
    SameOnSchedule(s, s, w.now, now);
    if op.UpdateConfig? {
      ConfigEmission(s, now, op);
      if op.caller == s.cfg.owner {
        RatioFate(w, now, op);
      }
    } else if Apply(s, now, op).Ok? {
      var s' := Apply(s, now, op).value;
      if op.Claim? {
        ClaimEmission(s, now, op);
        SameOnSchedule(s, s', w.now, now);
      } else {
        SettlingEmission(s, now, op);
        UpdateSucceeds(s, w.now, now);
        SameOnSchedule(UpdateRewardIndexes(s, now).value, s', now, now);
      }
    }
  }

  lemma RatioFate(w: World, now: nat, op: Op)
    requires OnSchedule(w.store, w.now) && w.now <= now && op.UpdateConfig? && op.caller == w.store.cfg.owner
    ensures if Fair(w.store, now, op) then OnSchedule(Step(w, now, op).store, now) else Stuck(Step(w, now, op).store, now)
  {
    hide Apply, Recorded, UpdateRewardIndexes, Cap, FairRatio, SameEmission, Reschedule;
    var s := w.store;
    ConfigEmission(s, now, op);
    assert SameEmission(s, s) by {
      SameItself(s);
    }
    SameOnSchedule(s, s, w.now, now);
    if op.ratio.None? {
      SameOnSchedule(s, Apply(s, now, op).value, w.now, now);
    } else if op.ratio.value <= E {
      FairChange(s, w.now, now, op.ratio.value);
      var s1 := ChangeRatio(s, now, op.ratio.value).value;
      hide ChangeRatio, OnSchedule, Fair;
      if FairRatio(s, now, op.ratio.value) {
        SameOnSchedule(s1, Apply(s, now, op).value, now, now);
      } else {
        SameStuck(s1, Apply(s, now, op).value, now, now);
      }
      FairIs(s, now, op);
    }
  }

  lemma FairIs(s: Storage, now: nat, op: Op)
    requires op.UpdateConfig? && op.caller == s.cfg.owner && op.ratio.Some? && op.ratio.value <= E
    ensures Fair(s, now, op) <==> FairRatio(s, now, op.ratio.value)
  {
    hide FairRatio;
  }

  lemma SameItself(s: Storage)
    ensures SameEmission(s, s)
  {
  }

  /** once no update works, none ever will */
  lemma StuckStays(w: World, now: nat, op: Op)
    requires Stuck(w.store, w.now) && w.now <= now
    ensures Stuck(Step(w, now, op).store, now)
  {
    hide Apply, Recorded, UpdateRewardIndexes, SameEmission, Reschedule;
    var s := w.store;
    SameItself(s);
    SameStuck(s, s, w.now, now);
    assert UpdateRewardIndexes(s, now).Err?;
    if Apply(s, now, op).Ok? {
      if op.UpdateConfig? {
        ConfigEmission(s, now, op);
      } else if op.Claim? {
        ClaimEmission(s, now, op);
      } else {
        SettlingEmission(s, now, op);
      }
      SameStuck(s, Apply(s, now, op).value, w.now, now);
    }
  }

  lemma {:induction false} RunFate(w: World, txs: seq<Tx>)
    requires ClockForward(w.now, txs)
    ensures OnSchedule(w.store, w.now) && FairRun(w, txs) ==> OnSchedule(Run(w, txs).store, Run(w, txs).now)
    ensures OnSchedule(w.store, w.now) && !FairRun(w, txs) ==> Stuck(Run(w, txs).store, Run(w, txs).now)
    ensures Stuck(w.store, w.now) ==> Stuck(Run(w, txs).store, Run(w, txs).now)
    decreases |txs|
  {
    hide Step, OnSchedule, Stuck, Fair;
    if txs != [] {
      StepTime(w, txs[0].now, txs[0].op);
      if OnSchedule(w.store, w.now) {
        StepFate(w, txs[0].now, txs[0].op);
      }
      if Stuck(w.store, w.now) {
        StuckStays(w, txs[0].now, txs[0].op);
      }
      RunFate(Step(w, txs[0].now, txs[0].op), txs[1..]);
    }
  }

  lemma StartOnSchedule(cfg: Config)
    requires Instantiate(cfg).Ok? && cfg.schedule.start < cfg.schedule.end
    ensures OnSchedule(Start(cfg).store, 0)
  {
    if cfg.schedule.start == 0 {
      DivNonneg(Released(cfg.schedule, 0) * cfg.basePoolRatio, E);
      DivNonneg(Released(cfg.schedule, 0) * (E - cfg.basePoolRatio), E);
    }
    hide MulDec, Released;
  }

  /** Index updates, and with them bonding, unbonding and withdrawing, keep working through a
      run exactly when every ratio the owner set after the schedule's end was fair. */
  lemma UpdatesWorkIff(cfg: Config, txs: seq<Tx>, now: nat)
    requires Instantiate(cfg).Ok? && cfg.schedule.start < cfg.schedule.end
    requires ClockForward(0, txs) && Run(Start(cfg), txs).now <= now
    ensures UpdateRewardIndexes(Run(Start(cfg), txs).store, now).Ok? <==> FairRun(Start(cfg), txs)
  {
    hide Run, FairRun, OnSchedule, UpdateRewardIndexes, Instantiate;
    StartOnSchedule(cfg);
    RunFate(Start(cfg), txs);
    var w := Run(Start(cfg), txs);
    if FairRun(Start(cfg), txs) {
      UpdateSucceeds(w.store, w.now, now);
    }
  }

  /** Once they are brought up to date at or after the end, the pools have been handed all of
      the original amount, or all but one unit. */
  lemma EmissionCompletes(cfg: Config, txs: seq<Tx>, now: nat)
    requires Instantiate(cfg).Ok? && cfg.schedule.start < cfg.schedule.end
    requires ClockForward(0, txs) && FairRun(Start(cfg), txs)
    requires Run(Start(cfg), txs).now <= now && now >= Run(Start(cfg), txs).store.cfg.schedule.end
    ensures var w := Run(Start(cfg), txs);
            && UpdateRewardIndexes(w.store, now).Ok?
            && var emitted := Emitted(Emit(w.tally, w.store, UpdateRewardIndexes(w.store, now).value));
               Emitted(w.tally) <= emitted <= cfg.schedule.amount <= emitted + 1
  {
    hide Run, FairRun, Instantiate, OnSchedule, WeightsInv, BothConserved, BooksSound, Cap;
    StartOnSchedule(cfg);
    RunFate(Start(cfg), txs);
    ReachableSound(cfg, txs);
    var w := Run(Start(cfg), txs);
    UpdateSucceeds(w.store, w.now, now);
    TotalsAtEnd(w.store, w.now, now);
    EmissionGrows(w.store, now);
    hide UpdateRewardIndexes;
  }

  lemma EmissionGrows(s: Storage, now: nat)
    requires UpdateRewardIndexes(s, now).Ok?
    ensures var s1 := UpdateRewardIndexes(s, now).value;
            && s1.cfg == s.cfg
            && s.base.totalDistributed <= s1.base.totalDistributed
            && s.boost.totalDistributed <= s1.boost.totalDistributed
  {
  }

  /** a schedule that ends when it starts, which instantiation allows */
  predicate NoSpan(s: Storage) {
    s.cfg.schedule.start == s.cfg.schedule.end && s.cfg.basePoolRatio <= E
  }

  lemma NoSpanStays(w: World, now: nat, op: Op)
    requires NoSpan(w.store)
    ensures NoSpan(Step(w, now, op).store) && Step(w, now, op).store.cfg.schedule == w.store.cfg.schedule
  {
    hide Apply, Recorded, UpdateRewardIndex;
    var s := w.store;
    if Apply(s, now, op).Ok? {
      if op.UpdateConfig? {
        ConfigEmission(s, now, op);
      } else if op.Claim? {
        ClaimEmission(s, now, op);
      } else {
        SettlingEmission(s, now, op);
      }
    }
  }

  lemma {:induction false} NoSpanRuns(w: World, txs: seq<Tx>)
    requires NoSpan(w.store)
    ensures NoSpan(Run(w, txs).store) && Run(w, txs).store.cfg.schedule == w.store.cfg.schedule
    decreases |txs|
  {
    hide Step;
    if txs != [] {
      NoSpanStays(w, txs[0].now, txs[0].op);
      NoSpanRuns(Step(w, txs[0].now, txs[0].op), txs[1..]);
    }
  }

  /** The only schedule accepted that does not start before its end is one without a span, and
      with it updates work exactly until it starts, in every run. */
  lemma NoSpanUpdatesIff(cfg: Config, txs: seq<Tx>, now: nat)
    requires Instantiate(cfg).Ok? && !(cfg.schedule.start < cfg.schedule.end)
    ensures cfg.schedule.start == cfg.schedule.end
    ensures UpdateRewardIndexes(Run(Start(cfg), txs).store, now).Ok? <==> now < cfg.schedule.start
  {
    NoSpanRuns(Start(cfg), txs);
    hide Run;
  }

  // ----- nothing is claimable before its vesting period -----

  /** no entry has more than was scheduled for it, and those of the future have all of it */
  ghost predicate TimeLocked(vests: Vests, scheduled: Vests, now: nat) {
    forall k: Key ::
      VestAt(vests, k) <= VestAt(scheduled, k) && (k.1 > now ==> VestAt(vests, k) == VestAt(scheduled, k))
  }

  ghost predicate Locked(w: World) {
    TimeLocked(w.store.vests, w.tally.scheduled, w.now)
  }

  lemma VestLocked(vests: Vests, vests': Vests, scheduled: Vests, now: nat, key: Key, amount: nat)
    requires TimeLocked(vests, scheduled, now)
    requires VestsGrow(vests, vests', now, key, amount)
    ensures TimeLocked(vests', scheduled[key := VestAt(scheduled, key) + amount], now)
  {
  }

  lemma LaterLocked(vests: Vests, vests': Vests, scheduled: Vests, before: nat, now: nat)
    requires TimeLocked(vests, scheduled, before) && before <= now
    requires forall k: Key :: VestAt(vests', k) <= VestAt(vests, k)
    requires forall k: Key | k.1 > now :: VestAt(vests', k) == VestAt(vests, k)
    ensures TimeLocked(vests', scheduled, now)
  {
    hide VestAt;
  }

  lemma WithdrawLocked(s: Storage, now: nat, t: Tally, a: Addr)
    requires WeightsInv(s) && TimeLocked(s.vests, t.scheduled, now)
    ensures WithdrawSingle(s, now, a).Ok?
    ensures var s' := WithdrawSingle(s, now, a).value;
            WeightsInv(s') && TimeLocked(s'.vests, Vest(Settle(t, s, s', a), s, now, a).scheduled, now)
  {
    hide WeightsInv, WithdrawSingle, TimeLocked, VestsGrow, Holdings, SettlesAt, Credits, PendingReward, Withdrawn, VestEnd,
         SettledLedgers, VestAt;
    NoBondNoWeight(s, a);
    WithdrawSettles(s, now, a);
    var s' := WithdrawSingle(s, now, a).value;
    SettlesKeepsWeights(s, s', a, Bonded(s, a), BoostWeight(s, a));
    VestLocked(s.vests, s'.vests, t.scheduled, now, (a, VestEnd(s.cfg, now)), Withdrawn(s, a));
  }

  lemma {:induction false} EachLocked(s: Storage, now: nat, t: Tally, accounts: seq<Addr>)
    requires WeightsInv(s) && TimeLocked(s.vests, t.scheduled, now)
    ensures WithdrawEach(s, now, accounts).Ok?
    ensures TimeLocked(WithdrawEach(s, now, accounts).value.vests, VestEach(t, s, now, accounts).scheduled, now)
    decreases |accounts|
  {
    hide WeightsInv, WithdrawSingle, TimeLocked, Vest, Settle;
    if accounts != [] {
      WithdrawLocked(s, now, t, accounts[0]);
      var s' := WithdrawSingle(s, now, accounts[0]).value;
      EachLocked(s', now, Vest(Settle(t, s, s', accounts[0]), s, now, accounts[0]), accounts[1..]);
    }
  }

  /** the indexes, once brought up to date, leave the vesting entries alone */
  lemma EmitLocked(w: World, now: nat)
    requires WeightsInv(w.store) && Locked(w) && w.now <= now && UpdateRewardIndexes(w.store, now).Ok?
    ensures var s1 := UpdateRewardIndexes(w.store, now).value;
            && WeightsInv(s1) && s1.vests == w.store.vests
            && TimeLocked(s1.vests, Emit(w.tally, w.store, s1).scheduled, now)
  {
    IndexKeepsWeights(w.store, now);
    hide WeightsInv, UpdateRewardIndex;
    LaterLocked(w.store.vests, w.store.vests, w.tally.scheduled, w.now, now);
  }

  /** bonding, unbonding and refreshing touch no vesting entry */
  lemma CoresSameVests(s: Storage, a: Addr, amount: nat, part: Option<nat>, boost: nat)
    ensures BondCore(s, a, amount, boost).Ok? ==> BondCore(s, a, amount, boost).value.vests == s.vests
    ensures UnbondCore(s, a, part, boost).Ok? ==> UnbondCore(s, a, part, boost).value.vests == s.vests
    ensures RefreshCore(s, a, boost).Ok? ==> RefreshCore(s, a, boost).value.vests == s.vests
  {
    hide PullPendingRewards, BoostFor, Bonded;
  }

  lemma SettlingLocked(w: World, now: nat, op: Op)
    requires WeightsInv(w.store) && Locked(w) && w.now <= now
    requires Apply(w.store, now, op).Ok? && !op.UpdateConfig? && !op.Claim?
    ensures Locked(Step(w, now, op))
  {
    UpdatedFirst(w.store, now, op);
    EmitLocked(w, now);
    var s1 := UpdateRewardIndexes(w.store, now).value;
    hide UpdateRewardIndexes, BondCore, UnbondCore, RefreshCore, WithdrawSingle, WithdrawEach, PagedAccounts, Bonded,
         WeightsInv, TimeLocked, EmittedLedgers, SettledLedgers, Credits, Withdrawn, VestEnd, VestAt;
    match op
    case Bond(sender, amount, boost) => CoresSameVests(s1, sender, amount, None, boost);
    case Unbond(sender, part, boost) => CoresSameVests(s1, sender, 0, part, boost);
    case ActivateBoost(sender, boost) => CoresSameVests(s1, sender, 0, None, boost);
    case PrivilegedRefresh(_, account, boost) => CoresSameVests(s1, account, 0, None, boost);
    case Withdraw(sender) => WithdrawLocked(s1, now, Emit(w.tally, w.store, s1), sender);
    case WithdrawBulk(_, limit, startAfter) =>
      EachLocked(s1, now, Emit(w.tally, w.store, s1), PagedAccounts(s1.rewards, limit, startAfter));
    case _ =>
  }

  lemma ClaimLocked(w: World, now: nat, op: Op)
    requires Locked(w) && w.now <= now && op.Claim? && Apply(w.store, now, op).Ok?
    ensures Locked(Step(w, now, op))
  {
    hide TimeLocked, ClaimWithdrawnRewards, VestAt, Holdings, PendingOf;
    ClaimPays(w.store, now, op.sender);
    LaterLocked(w.store.vests, Apply(w.store, now, op).value.vests, w.tally.scheduled, w.now, now);
  }

  lemma ConfigLocked(w: World, now: nat, op: Op)
    requires Locked(w) && w.now <= now && (Apply(w.store, now, op).Err? || op.UpdateConfig?)
    ensures Locked(Step(w, now, op))
  {
    hide TimeLocked, VestAt, UpdateRewardIndex, Recorded;
    LaterLocked(w.store.vests, w.store.vests, w.tally.scheduled, w.now, now);
    if Apply(w.store, now, op).Ok? {
      ConfigRecorded(w.tally, w.store, now, op, Apply(w.store, now, op).value);
    }
    hide Apply;
  }

  lemma ConfigRecorded(t: Tally, s: Storage, now: nat, op: Op, s': Storage)
    requires op.UpdateConfig?
    ensures Recorded(t, s, now, op, s').scheduled == t.scheduled
  {
    hide UpdateRewardIndexes, EmittedLedgers;
  }

  lemma StepLocked(w: World, now: nat, op: Op)
    requires WeightsInv(w.store) && Locked(w) && w.now <= now
    ensures Locked(Step(w, now, op))
  {
    hide WeightsInv, Locked, Apply, Step;
    if Apply(w.store, now, op).Err? || op.UpdateConfig? {
      ConfigLocked(w, now, op);
    } else if op.Claim? {
      ClaimLocked(w, now, op);
    } else {
      SettlingLocked(w, now, op);
    }
  }

  lemma {:induction false} RunLocked(w: World, txs: seq<Tx>, original: nat)
    requires Sound(w, original) && Locked(w) && ClockForward(w.now, txs)
    ensures Locked(Run(w, txs))
    decreases |txs|
  {
    hide WeightsInv, BothConserved, EmissionBooks, BooksSound, Locked, Step;
    if txs != [] {
      StepTime(w, txs[0].now, txs[0].op);
      StepLocked(w, txs[0].now, txs[0].op);
      StepSound(w, txs[0].now, txs[0].op, original);
      hide Sound;
      RunLocked(Step(w, txs[0].now, txs[0].op), txs[1..], original);
    }
  }

  ghost function MaturePart(scheduled: Vests, a: Addr, now: nat): Key -> int {
    (k: Key) => if k.0 == a && k.1 <= now then VestAt(scheduled, k) else 0
  }

  /** what was scheduled for an account up to a time */
  ghost function Matured(scheduled: Vests, a: Addr, now: nat): int {
    Sum(scheduled.Keys, MaturePart(scheduled, a, now))
  }

  lemma MaturedIsRest(vests: Vests, scheduled: Vests, a: Addr, now: nat)
    requires TimeLocked(vests, scheduled, now)
    ensures VestSum(scheduled, a) <= VestSum(vests, a) + Matured(scheduled, a, now)
  {
    var all := vests.Keys + scheduled.Keys;
    var left, whole, mature := VestPart(vests, a), VestPart(scheduled, a), MaturePart(scheduled, a, now);
    var still := (k: Key) => left(k) + mature(k);
    forall k | k in all ensures whole(k) <= still(k) {
      assert VestAt(vests, k) <= VestAt(scheduled, k);
    }
    hide TimeLocked;
    SumExtend(vests.Keys, all, left);
    SumExtend(scheduled.Keys, all, whole);
    SumExtend(scheduled.Keys, all, mature);
    SumPlus(all, left, mature, still);
    SumMono(all, whole, still);
  }

  lemma PayableMatured(w: World, original: nat, a: Addr)
    requires Sound(w, original) && Locked(w)
    ensures At(w.tally.claimed, a) + PendingOf(w.store, a) <= Matured(w.tally.scheduled, a, w.now)
  {
    hide PoolsSound, CreditBooks, TimeLocked, VestSum, Matured, PendingReward, PendingOf;
    assert Booked(w.store, w.tally, a);
    MaturedIsRest(w.store.vests, w.tally.scheduled, a, w.now);
  }

  /** In every run an account has been paid, or can be paid, only what was scheduled for times
      that have come. */
  lemma OnlyMaturedIsPayable(cfg: Config, txs: seq<Tx>, a: Addr)
    requires Instantiate(cfg).Ok? && ClockForward(0, txs)
    ensures var w := Run(Start(cfg), txs);
            At(w.tally.claimed, a) + PendingOf(w.store, a) <= Matured(w.tally.scheduled, a, w.now)
  {
    assert Locked(Start(cfg));
    hide Run, Sound, Locked, Instantiate, Matured, PendingOf;
    StartSound(cfg);
    RunLocked(Start(cfg), txs, cfg.schedule.amount);
    ReachableSound(cfg, txs);
    PayableMatured(Run(Start(cfg), txs), cfg.schedule.amount, a);
  }

  /** entries before `first` are as they were */
  ghost predicate EarlierKept(t: Tally, t': Tally, first: nat) {
    forall k: Key | k.1 < first :: VestAt(t'.scheduled, k) == VestAt(t.scheduled, k)
  }

  lemma {:induction false} VestEachLater(t: Tally, s: Storage, now: nat, accounts: seq<Addr>, first: nat)
    requires first <= VestEnd(s.cfg, now)
    ensures EarlierKept(t, VestEach(t, s, now, accounts), first)
    decreases |accounts|
  {
    hide WithdrawSingle;
    if accounts != [] && WithdrawSingle(s, now, accounts[0]).Ok? {
      WithdrawKeepsPools(s, now, accounts[0]);
      var s' := WithdrawSingle(s, now, accounts[0]).value;
      VestEachLater(Vest(Settle(t, s, s', accounts[0]), s, now, accounts[0]), s', now, accounts[1..], first);
    }
  }

  lemma VestEndLater(cfg: Config, before: nat, now: nat)
    requires before <= now
    ensures VestEnd(cfg, before) <= VestEnd(cfg, now)
  {
    var a, b := before + cfg.vestingPeriod, now + cfg.vestingPeriod;
    DivMono(a, b, TIME_UNIT);
  }

  lemma {:induction false} EachKeepsConfig(s: Storage, now: nat, accounts: seq<Addr>)
    requires WithdrawEach(s, now, accounts).Ok?
    ensures WithdrawEach(s, now, accounts).value.cfg == s.cfg
    decreases |accounts|
  {
    hide WithdrawSingle;
    if accounts != [] {
      WithdrawKeepsPools(s, now, accounts[0]);
      EachKeepsConfig(WithdrawSingle(s, now, accounts[0]).value, now, accounts[1..]);
    }
  }

  /** no call changes the vesting period */
  lemma SamePeriod(s: Storage, now: nat, op: Op)
    requires Apply(s, now, op).Ok?
    ensures Apply(s, now, op).value.cfg.vestingPeriod == s.cfg.vestingPeriod
  {
    hide UpdateRewardIndex, PullPendingRewards, PagedAccounts, Due, PagedVests, SumVests, RemoveVests, WithdrawEach;
    if op.WithdrawBulk? {
      var s1 := UpdateRewardIndexes(s, now).value;
      EachKeepsConfig(s1, now, PagedAccounts(s1.rewards, op.limit, op.startAfter));
    }
  }

  lemma StepVestsLater(w: World, now: nat, op: Op, first: nat)
    requires first <= VestEnd(w.store.cfg, now)
    ensures EarlierKept(w.tally, Step(w, now, op).tally, first)
    ensures Step(w, now, op).store.cfg.vestingPeriod == w.store.cfg.vestingPeriod
    ensures Step(w, now, op).now == now
  {
    hide Apply, VestEnd, UpdateRewardIndex;
    if Apply(w.store, now, op).Ok? {
      SamePeriod(w.store, now, op);
      RecordedLater(w.tally, w.store, now, op, Apply(w.store, now, op).value, first);
    }
  }

  lemma RecordedLater(t: Tally, s: Storage, now: nat, op: Op, s': Storage, first: nat)
    requires first <= VestEnd(s.cfg, now)
    ensures EarlierKept(t, Recorded(t, s, now, op, s'), first)
  {
    var updated := UpdateRewardIndexes(s, now);
    var s1 := if updated.Ok? then updated.value else s;
    assert s1.cfg == s.cfg;
    hide UpdateRewardIndexes, VestEnd, Credits, SettledLedgers, ClaimWithdrawnRewards, Withdrawn;
    if op.WithdrawBulk? {
      VestEachLater(Emit(t, s, s1), s1, now, PagedAccounts(s1.rewards, op.limit, op.startAfter), first);
    }
  }

  lemma {:induction false} RunVestsLater(w: World, txs: seq<Tx>, first: nat)
    requires ClockForward(w.now, txs) && first <= VestEnd(w.store.cfg, w.now)
    ensures EarlierKept(w.tally, Run(w, txs).tally, first)
    decreases |txs|
  {
    hide Step, VestAt;
    if txs != [] {
      var w1 := Step(w, txs[0].now, txs[0].op);
      VestEndLater(w.store.cfg, w.now, txs[0].now);
      StepVestsLater(w, txs[0].now, txs[0].op, first);
      RunVestsLater(w1, txs[1..], first);
    }
  }

  lemma MaturedBefore(t: Tally, t': Tally, a: Addr, now: nat, first: nat)
    requires EarlierKept(t, t', first) && now < first
    ensures Matured(t'.scheduled, a, now) <= VestSum(t.scheduled, a)
  {
    var all := t.scheduled.Keys + t'.scheduled.Keys;
    var mature, whole := MaturePart(t'.scheduled, a, now), VestPart(t.scheduled, a);
    SumExtend(t'.scheduled.Keys, all, mature);
    SumExtend(t.scheduled.Keys, all, whole);
    SumMono(all, mature, whole);
  }

  /** Rewards withdrawn from now on cannot be claimed before the vesting period, less the day in
      which it ends, is over: until then an account is paid only from what was scheduled
      before. */
  lemma NothingEarly(w: World, txs: seq<Tx>, original: nat, a: Addr)
    requires Sound(w, original) && Locked(w) && ClockForward(w.now, txs)
    requires Run(w, txs).now + 86400 <= w.now + w.store.cfg.vestingPeriod
    ensures var w' := Run(w, txs);
            At(w'.tally.claimed, a) + PendingOf(w'.store, a) <= VestSum(w.tally.scheduled, a)
  {
    var first := VestEnd(w.store.cfg, w.now);
    VestEndIs(w.store.cfg, w.now);
    RunSound(w, txs, original);
    RunLocked(w, txs, original);
    RunVestsLater(w, txs, first);
    hide *;
    var w' := Run(w, txs);
    PayableMatured(w', original, a);
    MaturedBefore(w.tally, w'.tally, a, w'.now, first);
  }

  // ----- when calls succeed -----

  lemma {:induction false} SumVestsPositive(vests: Vests, a: Addr, times: seq<nat>)
    ensures SumVests(vests, a, times) > 0 <==> exists t :: t in times && VestAt(vests, (a, t)) > 0
    decreases |times|
  {
    hide VestAt;
    if times != [] {
      SumVestsPositive(vests, a, times[1..]);
      assert times == [times[0]] + times[1..];
    }
  }

  /** a claim succeeds exactly when something was released or is due among the first fifty */
  lemma ClaimSucceedsIff(s: Storage, now: nat, sender: Addr)
    ensures ClaimWithdrawnRewards(s, now, sender).Ok? <==>
            || PendingOf(s, sender) > 0
            || exists t :: t in PagedVests(s.vests, sender) && t <= now && VestAt(s.vests, (sender, t)) > 0
  {
    var times := PagedVests(s.vests, sender);
    PagedAscending(s.vests, sender);
    DuePrefix(times, now);
    SumVestsPositive(s.vests, sender, Due(times, now));
    hide Due, PagedVests, SumVests, RemoveVests, StrictlyAscending;
    assert forall t | t in Due(times, now) :: t in times by {
      var due := Due(times, now);
      assert forall i | 0 <= i < |due| :: due[i] == times[i];
    }
  }

  /** who may call, and what stops a call, apart from the clock of the emission */
  predicate Allowed(s: Storage, s1: Storage, op: Op) {
    match op
    case Bond(_, amount, _) => amount >= s.cfg.minBondAmount
    case Unbond(sender, part, _) => UnbondAllowed(s1, sender, part)
    case ActivateBoost(sender, _) => Bonded(s, sender) > 0
    case PrivilegedRefresh(caller, _, _) => caller == s.cfg.boostContract
    case Withdraw(_) => true
    case WithdrawBulk(caller, _, _) => caller == s.cfg.operator
    case _ => false
  }

  /** A call that settles succeeds exactly when the indexes can be brought up to date, the caller
      may call it, and the bond it leaves is large enough. */
  lemma SettlingSucceedsIff(w: World, now: nat, op: Op, original: nat)
    requires Sound(w, original) && !op.Claim? && !op.UpdateConfig?
    ensures Apply(w.store, now, op).Ok? <==>
            UpdateRewardIndexes(w.store, now).Ok? && Allowed(w.store, UpdateRewardIndexes(w.store, now).value, op)
  {
    hide UpdateRewardIndexes, BondCore, UnbondCore, RefreshCore, WithdrawSingle, WithdrawEach, PagedAccounts,
         UnbondAllowed, BooksSound, BothConserved, WeightsInv, WithinAmount, SettlesAt, Credits, PendingReward;
    var s := w.store;
    if UpdateRewardIndexes(s, now).Ok? {
      IndexKeepsWeights(s, now);
      var s1 := UpdateRewardIndexes(s, now).value;
      match op {
        case Bond(sender, amount, boost) => BondSettles(s1, sender, amount, boost);
        case Unbond(sender, part, boost) => UnbondSettles(s1, sender, part, boost);
        case ActivateBoost(sender, boost) => RefreshSettles(s1, sender, boost);
        case PrivilegedRefresh(_, account, boost) => RefreshSettles(s1, account, boost);
        case Withdraw(sender) => WithdrawSettles(s1, now, sender);
        case WithdrawBulk(_, limit, startAfter) => EachSucceeds(s1, now, PagedAccounts(s1.rewards, limit, startAfter));
        case _ =>
      }
    }
  }

  lemma {:induction false} EachSucceeds(s: Storage, now: nat, accounts: seq<Addr>)
    requires WeightsInv(s)
    ensures WithdrawEach(s, now, accounts).Ok?
    decreases |accounts|
  {
    hide WeightsInv, WithdrawSingle, SettlesAt, Credits, PendingReward, Holdings;
    if accounts != [] {
      WithdrawSettles(s, now, accounts[0]);
      var s' := WithdrawSingle(s, now, accounts[0]).value;
      NoBondNoWeight(s, accounts[0]);
      SettlesKeepsWeights(s, s', accounts[0], Bonded(s, accounts[0]), BoostWeight(s, accounts[0]));
      EachSucceeds(s', now, accounts[1..]);
    }
  }

  /** A configuration call succeeds exactly for the owner, with a valid ratio and indexes that
      can be brought up to date if there is a ratio; every other call leaves it alone. */
  lemma ConfigSucceedsIff(w: World, now: nat, op: Op, original: nat)
    requires Sound(w, original) && op.UpdateConfig?
    ensures Apply(w.store, now, op).Ok? <==>
            && op.caller == w.store.cfg.owner
            && (op.ratio.Some? ==> op.ratio.value <= E && UpdateRewardIndexes(w.store, now).Ok?)
    ensures Apply(w.store, now, op).Ok? ==>
              var s, s' := w.store, Apply(w.store, now, op).value;
              && s'.cfg == s.cfg.(
                   minBondAmount := if op.minBond.Some? then op.minBond.value else s.cfg.minBondAmount,
                   basePoolRatio := if op.ratio.Some? then op.ratio.value else s.cfg.basePoolRatio,
                   schedule := s'.cfg.schedule)
              && (op.ratio.None? ==> s' == s.(cfg := s'.cfg) && s'.cfg.schedule == s.cfg.schedule)
  {
    hide UpdateRewardIndexes, BooksSound, BothConserved, WeightsInv;
    if UpdateRewardIndexes(w.store, now).Ok? {
      UpdateWithinAmount(w.store, now);
      SameConfig(w.store, now);
    }
  }

  lemma SameConfig(s: Storage, now: nat)
    requires UpdateRewardIndexes(s, now).Ok?
    ensures UpdateRewardIndexes(s, now).value.cfg == s.cfg
  {
    hide UpdateRewardIndex;
  }
}
