/** The launch pool's emission over changing base pool ratios. */
module LaunchPoolEmission {
  import opened Results
  import opened FixedPoint
  import opened LaunchPoolModel

  // ----- one schedule shared by two pools -----

  /** what a pool with the given ratio has been handed in total once updated at `now` */
  function Cap(schedule: Schedule, now: nat, ratio: nat): nat
    requires schedule.start < schedule.end
  {
    if now < schedule.start then 0 else MulDec(Released(schedule, now), ratio)
  }

  lemma ReleasedAtMost(schedule: Schedule, now: nat)
    requires schedule.start < schedule.end && schedule.start <= now
    ensures Released(schedule, now) <= schedule.amount
    ensures now >= schedule.end ==> Released(schedule, now) == schedule.amount
  {
    var denom := schedule.end - schedule.start;
    var elapsed := Min(now - schedule.start, denom);
    MultiplyRatioBounds(schedule.amount, elapsed, denom);
    MulMono(elapsed, denom, schedule.amount);
    MulCancelLe(Released(schedule, now), schedule.amount, denom);
    if now >= schedule.end {
      DivUnique(schedule.amount * denom, denom, schedule.amount);
    }
  }

  lemma CapMono(schedule: Schedule, now: nat, later: nat, ratio: nat)
    requires schedule.start < schedule.end && now <= later
    ensures Cap(schedule, now, ratio) <= Cap(schedule, later, ratio)
  {
    if now >= schedule.start {
      var denom := schedule.end - schedule.start;
      var before, after := Min(now - schedule.start, denom), Min(later - schedule.start, denom);
      MulMono(before, after, schedule.amount);
      DivMono(schedule.amount * before, schedule.amount * after, denom);
      MulDecMono(Released(schedule, now), Released(schedule, later), ratio);
    }
  }

  /** Splitting an amount by a ratio loses at most one unit, and none exactly when the base
      share is a whole number of units. */
  lemma SplitLosesAtMostOne(amount: nat, ratio: nat)
    requires ratio <= E
    ensures var parts := MulDec(amount, ratio) + MulDec(amount, E - ratio);
            && amount <= parts + 1 && parts <= amount
            && (parts == amount <==> amount * ratio % E == 0)
  {
    var a, b := amount * ratio, amount * (E - ratio);
    assert a + b == amount * E;
    SplitSum(a, b, amount, E);
  }

  lemma SplitSum(a: nat, b: nat, n: nat, e: nat)
    requires e > 0 && a + b == n * e
    ensures n - 1 <= a / e + b / e <= n
    ensures a / e + b / e == n <==> a % e == 0
  {
    DivBounds(a, e);
    DivBounds(b, e);
    var qa, qb := a / e, b / e;
    assert (qa + qb) * e == qa * e + qb * e;
    assert (qa + qb + 2) * e == (qa + qb) * e + 2 * e;
    MulCancelLe(qa + qb, n, e);
    MulCancelLt(n, qa + qb + 2, e);
    assert a % e == a - qa * e && b % e == b - qb * e;
    if a % e == 0 {
      assert b == (n - qa) * e by { assert (n - qa) * e == n * e - qa * e; }
      DivUnique(b, e, n - qa);
    }
    if qa + qb == n {
      assert n * e == qa * e + qb * e;
    }
  }

  // ----- the invariant -----

  /** Neither pool is ahead of what its ratio allows by the time of the last block. */
  ghost predicate OnSchedule(s: Storage, now: nat) {
    && s.cfg.schedule.start < s.cfg.schedule.end
    && s.cfg.basePoolRatio <= E
    && s.base.totalDistributed <= Cap(s.cfg.schedule, now, s.cfg.basePoolRatio)
    && s.boost.totalDistributed <= Cap(s.cfg.schedule, now, E - s.cfg.basePoolRatio)
  }

  /** The subtraction of an update never underflows, and the update brings both pools to
      exactly what the schedule allows. */
  lemma UpdateSucceeds(s: Storage, before: nat, now: nat)
    requires OnSchedule(s, before) && before <= now
    ensures UpdateRewardIndexes(s, now).Ok?
    ensures var s' := UpdateRewardIndexes(s, now).value;
            && OnSchedule(s', now)
            && s'.cfg == s.cfg
            && (now >= s.cfg.schedule.start ==>
                  && s'.base.totalDistributed == Cap(s.cfg.schedule, now, s.cfg.basePoolRatio)
                  && s'.boost.totalDistributed == Cap(s.cfg.schedule, now, E - s.cfg.basePoolRatio))
  {
    CapMono(s.cfg.schedule, before, now, s.cfg.basePoolRatio);
    CapMono(s.cfg.schedule, before, now, E - s.cfg.basePoolRatio);
    hide MulDec, Released, Ratio;
  }

  /** both pools together have been handed no more than the schedule's amount */
  predicate WithinAmount(s: Storage) {
    s.base.totalDistributed + s.boost.totalDistributed <= s.cfg.schedule.amount
  }

  /** an update that succeeds stays within the amount, whatever was distributed before */
  lemma UpdateWithinAmount(s: Storage, now: nat)
    requires WithinAmount(s) && UpdateRewardIndexes(s, now).Ok?
    ensures WithinAmount(UpdateRewardIndexes(s, now).value)
  {
    if now >= s.cfg.schedule.start {
      ReleasedAtMost(s.cfg.schedule, now);
      SplitLosesAtMostOne(Released(s.cfg.schedule, now), s.cfg.basePoolRatio);
    }
    hide Ratio, Released, MulDec;
  }

  lemma ChangeWithinAmount(s: Storage, now: nat, ratio: nat)
    requires WithinAmount(s) && ChangeRatio(s, now, ratio).Ok?
    ensures WithinAmount(ChangeRatio(s, now, ratio).value)
  {
    UpdateWithinAmount(s, now);
    hide UpdateRewardIndexes;
  }

  /** at any time both pools together are within the schedule's amount */
  lemma TotalsWithinAmount(s: Storage, now: nat)
    requires OnSchedule(s, now)
    ensures s.base.totalDistributed + s.boost.totalDistributed <= s.cfg.schedule.amount
  {
    if now >= s.cfg.schedule.start {
      var released := Released(s.cfg.schedule, now);
      ReleasedAtMost(s.cfg.schedule, now);
      SplitLosesAtMostOne(released, s.cfg.basePoolRatio);
    }
  }

  /** once updated at or after the end, they have received the amount or one unit less */
  lemma TotalsAtEnd(s: Storage, before: nat, now: nat)
    requires OnSchedule(s, before) && before <= now && now >= s.cfg.schedule.end
    ensures UpdateRewardIndexes(s, now).Ok?
    ensures var s' := UpdateRewardIndexes(s, now).value;
            var total := s'.base.totalDistributed + s'.boost.totalDistributed;
            s.cfg.schedule.amount <= total + 1 && total <= s.cfg.schedule.amount
  {
    UpdateSucceeds(s, before, now);
    ReleasedAtMost(s.cfg.schedule, now);
    SplitLosesAtMostOne(s.cfg.schedule.amount, s.cfg.basePoolRatio);
  }

  // ----- the pace of the emission -----

  /** How much of the amount a pool has been handed: its ratio of the elapsed part of the
      schedule, short of two units at most. */
  predicate Paced(schedule: Schedule, now: nat, ratio: nat, distributed: nat)
    requires schedule.start <= now
  {
    var elapsed, length := Min(now - schedule.start, schedule.end - schedule.start), schedule.end - schedule.start;
    && distributed * E * length <= schedule.amount * elapsed * ratio
    && schedule.amount * elapsed * ratio < (distributed + 2) * E * length
  }

  /** The emission is linear: an update that succeeds brings each pool to its ratio of the
      amount times the elapsed seconds over the length, rounded down twice; past the end all
      seconds have elapsed. */
  lemma EmissionPace(s: Storage, now: nat)
    requires UpdateRewardIndexes(s, now).Ok? && s.cfg.schedule.start <= now
    ensures var s', ratio := UpdateRewardIndexes(s, now).value, s.cfg.basePoolRatio;
            && ratio <= E
            && Paced(s.cfg.schedule, now, ratio, s'.base.totalDistributed)
            && Paced(s.cfg.schedule, now, E - ratio, s'.boost.totalDistributed)
  {
    hide Ratio, MulDec, Released, Paced;
    ReleasedPace(s.cfg.schedule, now, s.cfg.basePoolRatio);
    ReleasedPace(s.cfg.schedule, now, E - s.cfg.basePoolRatio);
  }

  lemma ReleasedPace(schedule: Schedule, now: nat, ratio: nat)
    requires schedule.start < schedule.end && schedule.start <= now && ratio <= E
    ensures Paced(schedule, now, ratio, MulDec(Released(schedule, now), ratio))
  {
    var elapsed, length := Min(now - schedule.start, schedule.end - schedule.start), schedule.end - schedule.start;
    var released := MultiplyRatio(schedule.amount, elapsed, length);
    MultiplyRatioBounds(schedule.amount, elapsed, length);
    MulDecBounds(released, ratio);
    TwoRoundings(schedule.amount * elapsed, length, ratio, released, MulDec(released, ratio), E);
  }

  lemma TwoRoundings(product: nat, length: nat, ratio: nat, released: nat, total: nat, e: nat)
    requires length > 0 && ratio <= e && e > 0
    requires released * length <= product < released * length + length
    requires total * e <= released * ratio < total * e + e
    ensures total * e * length <= product * ratio < (total + 2) * e * length
  {
    MulMono(total * e, released * ratio, length);
    MulMono(released * length, product, ratio);
    MulMono(product, released * length + length, ratio);
    assert released * ratio * length == released * length * ratio;
    assert (released * length + length) * ratio == (released * ratio + ratio) * length;
    MulMono(released * ratio + ratio + 1, (total + 2) * e, length);
    assert (released * ratio + ratio + 1) * length == (released * ratio + ratio) * length + length;
  }

  /** What a pool is newly handed reaches its index, rounded down once over its weight; without
      any weight it waits. */
  lemma IndexRises(now: nat, st: DistributionStatus, schedule: Schedule, ratio: nat)
    requires UpdateRewardIndex(now, st, schedule, ratio).Ok?
    ensures var st' := UpdateRewardIndex(now, st, schedule, ratio).value;
            var rise, newly := st'.rewardIndex - st.rewardIndex, st'.totalDistributed - st.totalDistributed;
            && newly >= 0 && rise >= 0 && st'.totalWeight == st.totalWeight
            && (st.totalWeight == 0 ==> rise == 0 && st'.pendingReward == st.pendingReward + newly)
            && (st.totalWeight > 0 && now >= schedule.start ==>
                  && st'.pendingReward == 0
                  && rise * st.totalWeight <= (st.pendingReward + newly) * E < (rise + 1) * st.totalWeight)
            && (now < schedule.start ==> st' == st)
  {
    hide MulDec, Released;
    var st' := UpdateRewardIndex(now, st, schedule, ratio).value;
    if st.totalWeight > 0 && now >= schedule.start {
      RatioBounds(st.pendingReward + (st'.totalDistributed - st.totalDistributed), st.totalWeight);
    }
  }

  // ----- changing the ratio -----

  /** a ratio change that is not refused for its value happens before the schedule's end */
  predicate Timely(s: Storage, now: nat) {
    now < s.cfg.schedule.end
  }

  /** A change before the end always succeeds: the rest of the amount goes to a new schedule,
      and the pools are on it. */
  lemma TimelyChange(s: Storage, before: nat, now: nat, ratio: nat)
    requires OnSchedule(s, before) && before <= now && Timely(s, now) && ratio <= E
    ensures ChangeRatio(s, now, ratio).Ok?
    ensures var s' := ChangeRatio(s, now, ratio).value;
            && OnSchedule(s', now)
            && s'.cfg.basePoolRatio == ratio
            && s'.cfg.schedule.start == Max(s.cfg.schedule.start, now) && s'.cfg.schedule.end == s.cfg.schedule.end
  {
    UpdateSucceeds(s, before, now);
    var s1 := UpdateRewardIndexes(s, now).value;
    TotalsWithinAmount(s1, now);
    hide UpdateRewardIndexes, MulDec, Released, MultiplyRatio;
    if now <= s.cfg.schedule.start {
      ZeroAtStart(s.cfg.schedule, now, s.cfg.basePoolRatio);
      ZeroAtStart(s.cfg.schedule, now, E - s.cfg.basePoolRatio);
    }
  }

  /** A change of the ratio hands out nothing by itself: another update at the same moment
      finds the pools where the change left them. */
  lemma ChangeEmitsNothing(s: Storage, before: nat, now: nat, ratio: nat)
    requires OnSchedule(s, before) && before <= now && Timely(s, now) && ratio <= E
    ensures ChangeRatio(s, now, ratio).Ok?
    ensures var s' := ChangeRatio(s, now, ratio).value;
            && UpdateRewardIndexes(s', now).Ok?
            && UpdateRewardIndexes(s', now).value.base.totalDistributed == s'.base.totalDistributed
            && UpdateRewardIndexes(s', now).value.boost.totalDistributed == s'.boost.totalDistributed
  {
    TimelyChange(s, before, now, ratio);
    var s' := ChangeRatio(s, now, ratio).value;
    hide ChangeRatio;
    UpdateSucceeds(s', now, now);
    hide UpdateRewardIndex, Cap;
    ZeroAtStart(s'.cfg.schedule, now, ratio);
    ZeroAtStart(s'.cfg.schedule, now, E - ratio);
  }

  lemma ZeroAtStart(schedule: Schedule, now: nat, ratio: nat)
    requires schedule.start < schedule.end && now <= schedule.start
    ensures Cap(schedule, now, ratio) == 0
  {
    if now == schedule.start {
      assert schedule.amount * 0 == 0;
    }
  }

  /** What happens to the totals when the ratio changes: before the end what was handed out
      moves from the totals to the shrunken amount. */
  lemma ChangeMovesTotals(s: Storage, now: nat, ratio: nat)
    requires ChangeRatio(s, now, ratio).Ok?
    ensures UpdateRewardIndexes(s, now).Ok?
    ensures var s1, s' := UpdateRewardIndexes(s, now).value, ChangeRatio(s, now, ratio).value;
            && s'.base.totalDistributed + s'.boost.totalDistributed + s.cfg.schedule.amount
               == s1.base.totalDistributed + s1.boost.totalDistributed + s'.cfg.schedule.amount
            && s' == s1.(
                 cfg := s'.cfg,
                 base := s1.base.(totalDistributed := s'.base.totalDistributed),
                 boost := s1.boost.(totalDistributed := s'.boost.totalDistributed))
  {
    hide UpdateRewardIndex;
  }

  /** A change after the end leaves totals that belong to the old ratio.  Every later update
      works exactly when the new shares of the whole amount are no smaller than those totals;
      otherwise every call that updates the indexes fails from then on. */
  lemma LateChangeIff(s: Storage, before: nat, now: nat, ratio: nat, later: nat)
    requires OnSchedule(s, before) && before <= now <= later && now >= s.cfg.schedule.end && ratio <= E
    ensures ChangeRatio(s, now, ratio).Ok?
    ensures var amount := s.cfg.schedule.amount;
            UpdateRewardIndexes(ChangeRatio(s, now, ratio).value, later).Ok? <==>
            && MulDec(amount, ratio) >= MulDec(amount, s.cfg.basePoolRatio)
            && MulDec(amount, E - ratio) >= MulDec(amount, E - s.cfg.basePoolRatio)
  {
    UpdateSucceeds(s, before, now);
    ReleasedAtMost(s.cfg.schedule, now);
    ReleasedAtMost(s.cfg.schedule, later);
    hide MulDec, Released, Ratio;
  }

  /** Before the schedule's end every ratio is fair; from then on only one that gives each
      pool at least what it was handed. */
  predicate FairRatio(s: Storage, now: nat, ratio: nat) {
    || now < s.cfg.schedule.end
    || (ratio <= E && s.cfg.basePoolRatio <= E
        && MulDec(s.cfg.schedule.amount, ratio) >= MulDec(s.cfg.schedule.amount, s.cfg.basePoolRatio)
        && MulDec(s.cfg.schedule.amount, E - ratio) >= MulDec(s.cfg.schedule.amount, E - s.cfg.basePoolRatio))
  }

  /** Every change of the ratio succeeds; a fair one keeps the pools on schedule, and any
      other one makes every later update fail. */
  lemma FairChange(s: Storage, before: nat, now: nat, ratio: nat)
    requires OnSchedule(s, before) && before <= now && ratio <= E
    ensures ChangeRatio(s, now, ratio).Ok?
    ensures FairRatio(s, now, ratio) ==> OnSchedule(ChangeRatio(s, now, ratio).value, now)
    ensures !FairRatio(s, now, ratio) ==>
              forall later | later >= now :: UpdateRewardIndexes(ChangeRatio(s, now, ratio).value, later).Err?
  {
    if Timely(s, now) {
      TimelyChange(s, before, now, ratio);
    } else {
      LateChangeIff(s, before, now, ratio, now);
      UpdateSucceeds(s, before, now);
      ReleasedAtMost(s.cfg.schedule, now);
      hide UpdateRewardIndex, MulDec, Released;
      forall later | later >= now && !FairRatio(s, now, ratio)
        ensures UpdateRewardIndexes(ChangeRatio(s, now, ratio).value, later).Err?
      {
        LateChangeIff(s, before, now, ratio, later);
      }
    }
  }

  /** The late change really can lock the pool: halving the base ratio of a finished schedule
      of a thousand units makes every later update fail. */
  lemma LateChangeCanLock(s: Storage, now: nat, later: nat)
    requires s.cfg.schedule == Schedule(0, 10, 1000) && s.cfg.basePoolRatio == E / 2
    requires s.base.totalDistributed == 0 && s.boost.totalDistributed == 0
    requires 10 <= now <= later
    ensures ChangeRatio(s, now, E / 4).Ok?
    ensures UpdateRewardIndexes(ChangeRatio(s, now, E / 4).value, later).Err?
  {
    assert OnSchedule(s, 0) by {
      DivNonneg(0, E);
    }
    LateChangeIff(s, 0, now, E / 4, later);
    assert MulDec(1000, E / 4) == 250 && MulDec(1000, E / 2) == 500;
  }
}
