/** The emission budget of LP staking: all pools together never take more from a schedule
    than its amount, although they are settled at different times and weights change. */
module LpStakingBudget {
  import opened Addresses
  import opened Results
  import opened FixedPoint
  import opened Sums
  import opened LpStakingModel

  // ----- one pool, one schedule -----

  /** the part of a schedule that lies between two times */
  function Overlap(e: Entry, from: nat, to: nat): nat {
    Max(0, Min(e.end, to) - Max(e.start, from))
  }

  /** the part of a schedule that has passed */
  function Elapsed(e: Entry, to: nat): nat {
    Overlap(e, e.start, to)
  }

  lemma OverlapSplits(e: Entry, from: nat, mid: nat, to: nat)
    requires e.start < e.end && from <= mid <= to
    ensures Overlap(e, from, to) == Overlap(e, from, mid) + Overlap(e, mid, to)
  {
  }

  lemma ElapsedSplits(e: Entry, mid: nat, to: nat)
    requires e.start < e.end && mid <= to
    ensures Elapsed(e, to) == Elapsed(e, mid) + Overlap(e, mid, to)
    ensures Elapsed(e, to) <= e.end - e.start
  {
  }

  /** The chain of four roundings takes at most the exact share: an amount times a weight over
      the total weight, times the seconds over the length. */
  lemma ShareBound(amount: nat, weight: nat, total: nat, length: nat, seconds: nat)
    requires total > 0 && length > 0
    ensures var x := MulDec(seconds, Ratio(MulDec(amount, Ratio(weight, total)), length));
            x * total * length <= amount * weight * seconds
  {
    var r := Ratio(weight, total);
    var m := MulDec(amount, r);
    var q := Ratio(m, length);
    var x := MulDec(seconds, q);
    RatioBounds(weight, total);
    MulDecBounds(amount, r);
    RatioBounds(m, length);
    MulDecBounds(seconds, q);
    RateAtMost(amount, weight, total, r, m, E);
    RateAtMost(seconds, m, length, q, x, E);
    Compose(x, length, seconds, m, total, amount * weight);
    assert seconds * (amount * weight) == amount * weight * seconds;
  }

  lemma Compose(x: nat, length: nat, seconds: nat, m: nat, total: nat, top: nat)
    requires x * length <= seconds * m && m * total <= top
    ensures x * total * length <= seconds * top
  {
    MulMono(x * length, seconds * m, total);
    MulMono(m * total, top, seconds);
    assert x * total * length == x * length * total;
    assert seconds * m * total == seconds * (m * total);
  }

  /** And they take at least that share short of four units, unless amount or seconds are
      astronomically large. */
  lemma ShareBoundBelow(amount: nat, weight: nat, total: nat, length: nat, seconds: nat)
    requires total > 0 && length > 0 && seconds <= length
    requires amount <= E && seconds <= E
    ensures var x := MulDec(seconds, Ratio(MulDec(amount, Ratio(weight, total)), length));
            amount * weight * seconds < (x + 4) * total * length
  {
    var r := Ratio(weight, total);
    var m := MulDec(amount, r);
    var q := Ratio(m, length);
    var x := MulDec(seconds, q);
    RatioBounds(weight, total);
    MulDecBounds(amount, r);
    RatioBounds(m, length);
    MulDecBounds(seconds, q);
    RateAtLeast(amount, weight, total, r, m, E);
    RateAtLeast(seconds, m, length, q, x, E);
    ComposeBelow(x, length, seconds, m, total, amount * weight);
    assert seconds * (amount * weight) == amount * weight * seconds;
  }

  lemma ComposeBelow(x: nat, length: nat, seconds: nat, m: nat, total: nat, top: nat)
    requires total > 0 && seconds <= length
    requires seconds * m < (x + 2) * length && top < (m + 2) * total
    ensures seconds * top < (x + 4) * total * length
  {
    MulMono(top, (m + 2) * total, seconds);
    MulMono(seconds * m + 1, (x + 2) * length, total);
    MulMono(seconds, length, 2 * total);
    assert seconds * ((m + 2) * total) == seconds * m * total + seconds * (2 * total);
    assert (seconds * m + 1) * total == seconds * m * total + total;
    assert (x + 4) * total * length == (x + 2) * length * total + length * (2 * total);
  }

  /** what a pool receives from one schedule is at most its exact share of the time since its
      last distribution, and nothing while there is no weight */
  lemma EntryRewardBound(e: Entry, total: nat, pool: Pool, now: nat)
    requires e.start < e.end && EntryReward(e, total, pool, now).Ok?
    ensures var x := EntryReward(e, total, pool, now).value;
            && x * total * (e.end - e.start) <= e.amount * pool.weight * Overlap(e, pool.lastDistributed, now)
            && (total == 0 ==> x == 0)
  {
    if e.start > now || e.end < pool.lastDistributed {
      MulNonneg(e.amount, pool.weight);
      MulNonneg(e.amount * pool.weight, Overlap(e, pool.lastDistributed, now));
      assert 0 * total * (e.end - e.start) == 0;
    } else {
      var until, from := Min(e.end, now), Max(e.start, pool.lastDistributed);
      ShareBound(e.amount, pool.weight, total, e.end - e.start, until - from);
    }
  }

  /** and at least that share short of four units, whenever it is settled */
  lemma EntryRewardBelow(e: Entry, total: nat, pool: Pool, now: nat)
    requires e.start < e.end && total > 0 && pool.lastDistributed <= now && EntryReward(e, total, pool, now).Ok?
    requires e.amount <= E && e.end - e.start <= E
    ensures var x := EntryReward(e, total, pool, now).value;
            e.amount * pool.weight * Overlap(e, pool.lastDistributed, now) < (x + 4) * total * (e.end - e.start)
  {
    if e.start > now || e.end < pool.lastDistributed {
      assert Overlap(e, pool.lastDistributed, now) == 0;
      assert 4 * total * (e.end - e.start) > 0;
    } else {
      var until, from := Min(e.end, now), Max(e.start, pool.lastDistributed);
      ShareBoundBelow(e.amount, pool.weight, total, e.end - e.start, until - from);
    }
  }

  // ----- all pools, one schedule -----

  ghost function WeightPart(pools: Pools): Addr -> int {
    (a: Addr) => if a in pools then pools[a].weight else 0
  }

  ghost function WeightSum(pools: Pools): int {
    Sum(pools.Keys, WeightPart(pools))
  }

  /** weighted time a pool has been settled for since the weights last changed */
  ghost function SettledPart(pools: Pools, e: Entry, since: nat): Addr -> int {
    (a: Addr) => if a in pools then pools[a].weight * Overlap(e, since, pools[a].lastDistributed) else 0
  }

  ghost function SettledTime(pools: Pools, e: Entry, since: nat): int {
    Sum(pools.Keys, SettledPart(pools, e, since))
  }

  /** What was emitted before the last change of weights is within the time that had passed;
      what was emitted since is within the pools' weighted time. */
  ghost predicate EntryBudget(e: Entry, pools: Pools, total: nat, since: nat, base: nat, emitted: nat) {
    && base <= emitted
    && (e.end - e.start) * base <= e.amount * Elapsed(e, since)
    && (emitted - base) * total * (e.end - e.start) <= e.amount * SettledTime(pools, e, since)
    && (total == 0 ==> emitted == base)
  }

  ghost predicate TimesWithin(pools: Pools, since: nat, now: nat) {
    since <= now && forall a | a in pools :: since <= pools[a].lastDistributed <= now
  }

  lemma SettledTimeNonneg(pools: Pools, e: Entry, since: nat)
    ensures SettledTime(pools, e, since) >= 0
  {
    forall a | a in pools.Keys ensures SettledPart(pools, e, since)(a) >= 0 {
      MulNonneg(pools[a].weight, Overlap(e, since, pools[a].lastDistributed));
    }
    SumNonneg(pools.Keys, SettledPart(pools, e, since));
  }

  /** the weighted time is at most the total weight times the time that has passed */
  lemma SettledTimeBound(pools: Pools, e: Entry, since: nat, now: nat)
    requires e.start < e.end && TimesWithin(pools, since, now)
    ensures SettledTime(pools, e, since) <= Overlap(e, since, now) * WeightSum(pools)
  {
    hide Overlap;
    var o := Overlap(e, since, now);
    var whole := (a: Addr) => o * WeightPart(pools)(a);
    forall a | a in pools.Keys ensures SettledPart(pools, e, since)(a) <= whole(a) {
      var w, part := pools[a].weight, Overlap(e, since, pools[a].lastDistributed);
      OverlapSplits(e, since, pools[a].lastDistributed, now);
      MulMono(part, o, w);
      assert SettledPart(pools, e, since)(a) == w * part;
      assert WeightPart(pools)(a) == w;
    }
    SumMono(pools.Keys, SettledPart(pools, e, since), whole);
    SumScale(pools.Keys, WeightPart(pools), o, whole);
  }

  /** cancelling the total weight */
  lemma ShareOfTime(d: nat, total: nat, length: nat, amount: nat, s: int, o: nat)
    requires d * total * length <= amount * s && s <= o * total
    requires total == 0 ==> d == 0
    ensures length * d <= amount * o
  {
    if total > 0 {
      MulMono(s, o * total, amount);
      assert d * total * length == length * d * total;
      assert amount * (o * total) == amount * o * total;
      MulCancelLe(length * d, amount * o, total);
    } else {
      MulNonneg(amount, o);
    }
  }

  /** everything emitted so far is within the time that has passed */
  lemma EmittedWithinTime(e: Entry, pools: Pools, total: nat, since: nat, base: nat, emitted: nat, now: nat)
    requires e.start < e.end && EntryBudget(e, pools, total, since, base, emitted)
    requires TimesWithin(pools, since, now) && total == WeightSum(pools)
    ensures (e.end - e.start) * emitted <= e.amount * Elapsed(e, now)
  {
    hide SettledTime, Overlap, Elapsed, WeightSum, TimesWithin;
    SettledTimeBound(pools, e, since, now);
    ElapsedSplits(e, since, now) by {
      assert since <= now by { SinceBefore(pools, since, now); }
    }
    var length, o := e.end - e.start, Overlap(e, since, now);
    ShareOfTime(emitted - base, total, length, e.amount, SettledTime(pools, e, since), o);
    AddUp(length, base, emitted, e.amount, Elapsed(e, since), o);
  }

  lemma SinceBefore(pools: Pools, since: nat, now: nat)
    requires TimesWithin(pools, since, now)
    ensures since <= now
  {
  }

  lemma AddUp(length: nat, base: nat, emitted: nat, amount: nat, elapsed: nat, o: nat)
    requires base <= emitted
    requires length * base <= amount * elapsed && length * (emitted - base) <= amount * o
    ensures length * emitted <= amount * (elapsed + o)
  {
    assert length * emitted == length * base + length * (emitted - base);
    assert amount * (elapsed + o) == amount * elapsed + amount * o;
  }

  lemma CancelLength(length: nat, emitted: nat, amount: nat, elapsed: nat)
    requires length > 0 && elapsed <= length && length * emitted <= amount * elapsed
    ensures emitted <= amount
  {
    MulMono(elapsed, length, amount);
    assert emitted * length <= amount * length;
    MulCancelLe(emitted, amount, length);
  }

  /** and so within the amount */
  lemma EmittedWithinAmount(e: Entry, pools: Pools, total: nat, since: nat, base: nat, emitted: nat, now: nat)
    requires e.start < e.end && EntryBudget(e, pools, total, since, base, emitted)
    requires TimesWithin(pools, since, now) && total == WeightSum(pools)
    ensures emitted <= e.amount
  {
    hide EntryBudget, TimesWithin, WeightSum, Elapsed;
    EmittedWithinTime(e, pools, total, since, base, emitted, now);
    SinceBefore(pools, since, now);
    ElapsedSplits(e, since, now);
    CancelLength(e.end - e.start, emitted, e.amount, Elapsed(e, now));
  }

  // ----- settling a pool -----

  /** bringing one pool up to date adds its weight times the time it had not been settled for */
  lemma SettledTimeGrows(pools: Pools, e: Entry, since: nat, a: Addr, pool: Pool, now: nat)
    requires e.start < e.end && a in pools && TimesWithin(pools, since, now)
    requires pool.weight == pools[a].weight && pool.lastDistributed == now
    ensures SettledTime(pools[a := pool], e, since)
            == SettledTime(pools, e, since) + pool.weight * Overlap(e, pools[a].lastDistributed, now)
  {
    hide Overlap;
    var last := pools[a].lastDistributed;
    var after := pools[a := pool];
    SumUpdate(pools.Keys, after.Keys, a, SettledPart(pools, e, since), SettledPart(after, e, since));
    OverlapSplits(e, since, last, now);
    Distribute(pool.weight, Overlap(e, since, last), Overlap(e, last, now));
    assert SettledPart(after, e, since)(a) == pool.weight * Overlap(e, since, now);
  }

  lemma Distribute(w: int, x: int, y: int)
    ensures w * (x + y) == w * x + w * y
  {
  }

  /** Settling a pool with at least the total weight of the budget keeps the budget. */
  lemma SettleKeepsBudget(
      e: Entry, pools: Pools, total: nat, used: nat, since: nat, base: nat, emitted: nat,
      a: Addr, before: Pool, pool: Pool, now: nat)
    requires e.start < e.end && EntryBudget(e, pools, total, since, base, emitted)
    requires TimesWithin(pools, since, now) && a in pools
    requires before.weight == pools[a].weight && before.lastDistributed == pools[a].lastDistributed
    requires pool.weight == before.weight && pool.lastDistributed == now
    requires total <= used || before.weight == 0
    requires total == WeightSum(pools)
    requires EntryReward(e, used, before, now).Ok?
    ensures EntryBudget(e, pools[a := pool], total, since, base, emitted + EntryReward(e, used, before, now).value)
  {
    hide SettledTime, EntryReward, Overlap, WeightSum, Elapsed;
    var x := EntryReward(e, used, before, now).value;
    var length, s, o := e.end - e.start, SettledTime(pools, e, since), Overlap(e, before.lastDistributed, now);
    EntryRewardBound(e, used, before, now);
    SettledTimeGrows(pools, e, since, a, pool, now);
    WeightWithin(pools, a);
    UsedBound(x, used, total, length, e.amount, before.weight, o);
    AddShare(emitted - base, x, total, length, e.amount, s, before.weight, o);
  }

  lemma AddShare(d: nat, x: nat, total: nat, length: nat, amount: nat, s: int, w: nat, o: nat)
    requires d * total * length <= amount * s && x * total * length <= amount * w * o
    ensures (d + x) * total * length <= amount * (s + w * o)
  {
    Distribute(amount, s, w * o);
    assert amount * (w * o) == amount * w * o;
    assert (d + x) * total * length == d * total * length + x * total * length by {
      Distribute(total, d, x);
      Distribute(length, d * total, x * total);
    }
  }

  lemma WeightWithin(pools: Pools, a: Addr)
    requires a in pools
    ensures pools[a].weight <= WeightSum(pools)
  {
    SumAtLeastOne(pools.Keys, a, WeightPart(pools));
  }

  lemma UsedBound(x: nat, used: nat, total: nat, length: nat, amount: nat, weight: nat, o: nat)
    requires length > 0 && x * used * length <= amount * weight * o && (used == 0 ==> x == 0)
    requires total <= used || weight == 0
    requires weight <= total
    ensures x * total * length <= amount * weight * o
    ensures total == 0 ==> x == 0
  {
    if weight == 0 {
      assert amount * weight * o == 0;
      if x > 0 && used > 0 {
        MulMono(1, x, used);
        MulMono(1, x * used, length);
      }
    } else {
      MulMono(total, used, x);
      MulMono(x * total, x * used, length);
    }
  }
}
