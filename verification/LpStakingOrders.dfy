/** Unbond orders of LP staking: the bounded scan is exact, and releasing an order only
    moves its amount. */
module LpStakingOrders {
  import opened Addresses
  import opened Sums
  import opened LpStakingModel

  // ----- the scan -----

  lemma {:induction false} ExpiredWithin(times: seq<nat>, count: nat, now: nat, period: nat)
    ensures var expired := Expired(times, count, now, period);
            && |expired| <= |times|
            && (|times| > 0 && count + |times| > MAX_ORDER_WITHDRAW_PER_TX ==> |expired| < |times|)
            && (|expired| == |times| ==> expired == times)
            && (forall t | t in expired :: t in times && t + period < now)
    decreases |times|
  {
    if times != [] {
      ExpiredWithin(times[1..], count + 1, now, period);
      assert times == [times[0]] + times[1..];
      assert forall t | t in times[1..] :: t in times;
    }
  }

  lemma {:induction false} ExpiredDistinct(times: seq<nat>, count: nat, now: nat, period: nat)
    requires Distinct(times)
    ensures Distinct(Expired(times, count, now, period))
    decreases |times|
  {
    if times != [] {
      var rest := Expired(times[1..], count + 1, now, period);
      ExpiredDistinct(times[1..], count + 1, now, period);
      ExpiredWithin(times[1..], count + 1, now, period);
      assert forall i | 0 <= i < |rest| :: rest[i] in times[1..];
    }
  }

  /** an order is released exactly when it is overdue and among the first fifty */
  lemma {:induction false} ExpiredExact(times: seq<nat>, count: nat, now: nat, period: nat, i: nat)
    requires Distinct(times) && i < |times|
    ensures times[i] in Expired(times, count, now, period) <==> count + i < 50 && times[i] + period < now
    decreases |times|
  {
    var rest := times[1..];
    assert forall j | 0 <= j < |rest| :: rest[j] == times[j + 1];
    ExpiredWithin(rest, count + 1, now, period);
    if i > 0 {
      ExpiredExact(rest, count + 1, now, period, i - 1);
    } else {
      assert times[0] !in rest;
    }
  }

  lemma ScannedAscends(orders: Orders, staker: Addr, token: Addr)
    ensures var scanned, all := Scanned(orders, staker, token), OrderTimes(orders, staker, token);
            && Distinct(scanned)
            && (forall t | t in scanned :: t in all)
            && (|scanned| <= MAX_ORDER_WITHDRAW_PER_TX ==> forall t | t in all :: t in scanned)
  {
    var q := Ascending(OrderTimes(orders, staker, token));
    AscendingDistinct(q);
    hide StrictlyAscending, OrderTimes;
    var scanned := Scanned(orders, staker, token);
    assert forall i | 0 <= i < |scanned| :: scanned[i] == q[i];
  }

  /** an order is released exactly when it is overdue and fewer than fifty are older */
  lemma ReleasedByRank(orders: Orders, staker: Addr, token: Addr, now: nat, period: nat, t: nat)
    requires t in OrderTimes(orders, staker, token)
    ensures t in Expired(Scanned(orders, staker, token), 0, now, period)
            <==> t + period < now && |Below(OrderTimes(orders, staker, token), t)| < 50
  {
    var all, scanned := OrderTimes(orders, staker, token), Scanned(orders, staker, token);
    TakenByRank(all, 51, t);
    ScannedAscends(orders, staker, token);
    ExpiredWithin(scanned, 0, now, period);
    assert t in scanned <==> |Below(all, t)| < 51;
    hide Expired, OrderTimes, Below;
    if t in scanned {
      var q := Ascending(all);
      var i :| 0 <= i < |scanned| && scanned[i] == t;
      assert q[i] == t;
      RankOf(q, all, i);
      ExpiredExact(scanned, 0, now, period, i);
    }
  }

  // ----- removing what was released -----

  lemma {:induction false} RemoveOrdersKeys(orders: Orders, staker: Addr, token: Addr, times: seq<nat>)
    ensures var after := RemoveOrders(orders, staker, token, times);
            && (forall k :: k in after <==> k in orders && !(k.0 == staker && k.1 == token && k.2 in times))
            && (forall k | k in after :: after[k] == orders[k])
    decreases |times|
  {
    if times != [] {
      RemoveOrdersKeys(orders - {(staker, token, times[0])}, staker, token, times[1..]);
    }
  }

  ghost function OrderPart(orders: Orders, token: Addr): OrderKey -> int {
    (k: OrderKey) => if k.1 == token then OrderAt(orders, k) else 0
  }

  /** everything on order to be unbonded from one pool */
  ghost function OrderSum(orders: Orders, token: Addr): int {
    Sum(orders.Keys, OrderPart(orders, token))
  }

  lemma {:induction false} OrdersOff(orders: Orders, staker: Addr, token: Addr, t: nat, times: seq<nat>)
    requires t !in times
    ensures SumOrders(orders - {(staker, token, t)}, staker, token, times) == SumOrders(orders, staker, token, times)
  {
    if times != [] {
      OrdersOff(orders, staker, token, t, times[1..]);
    }
  }

  lemma {:induction false} RemoveOrdersSum(orders: Orders, staker: Addr, token: Addr, times: seq<nat>, other: Addr)
    requires Distinct(times)
    ensures OrderSum(RemoveOrders(orders, staker, token, times), other)
            == OrderSum(orders, other) - if other == token then SumOrders(orders, staker, token, times) else 0
    decreases |times|
  {
    if times != [] {
      var key: OrderKey := (staker, token, times[0]);
      var without := orders - {key};
      SumUpdate(orders.Keys, without.Keys, key, OrderPart(orders, other), OrderPart(without, other));
      OrdersOff(orders, staker, token, times[0], times[1..]);
      RemoveOrdersSum(without, staker, token, times[1..], other);
    }
  }

  /** only the staker's own orders of the token may differ */
  ghost predicate SameElsewhere(orders: Orders, orders': Orders, staker: Addr, token: Addr) {
    forall k: OrderKey | !(k.0 == staker && k.1 == token) ::
      (k in orders' <==> k in orders) && (k in orders ==> orders'[k] == orders[k])
  }

  /** The scan releases exactly the overdue orders with fewer than fifty older ones, and reports
      that orders are pending exactly when one remains. */
  lemma ScanExact(orders: Orders, staker: Addr, token: Addr, info: RewardInfo, now: nat, period: nat)
    ensures var pulled, all := PullExpired(orders, staker, token, info, now, period), OrderTimes(orders, staker, token);
            var left := OrderTimes(pulled.orders, staker, token);
            && (pulled.ordersPending <==> left != {})
            && left <= all
            && (forall t | t in all :: t !in left <==> t + period < now && |Below(all, t)| < 50)
  {
    var scanned := Scanned(orders, staker, token);
    var expired := Expired(scanned, 0, now, period);
    var pulled, all := PullExpired(orders, staker, token, info, now, period), OrderTimes(orders, staker, token);
    LeftOver(orders, staker, token, expired);
    ScannedAscends(orders, staker, token);
    ExpiredWithin(scanned, 0, now, period);
    hide Scanned, Expired, OrderTimes, RemoveOrders, Below;
    if |scanned| > |expired| {
      SomethingLeft(scanned, expired);
    } else {
      assert expired == scanned;
    }
    forall t | t in all ensures t in expired <==> t + period < now && |Below(all, t)| < 50 {
      ReleasedByRank(orders, staker, token, now, period, t);
    }
  }

  lemma LeftOver(orders: Orders, staker: Addr, token: Addr, times: seq<nat>)
    ensures OrderTimes(RemoveOrders(orders, staker, token, times), staker, token)
            == set t | t in OrderTimes(orders, staker, token) && t !in times
  {
    RemoveOrdersKeys(orders, staker, token, times);
    var after := RemoveOrders(orders, staker, token, times);
    hide RemoveOrders;
    forall t | t in OrderTimes(orders, staker, token) && t !in times ensures t in OrderTimes(after, staker, token) {
      var key: OrderKey := (staker, token, t);
      assert key in after.Keys;
    }
  }

  /** Releasing moves amounts from the orders to the withdrawable amount, and touches nothing
      else. */
  lemma PullMoves(orders: Orders, staker: Addr, token: Addr, info: RewardInfo, now: nat, period: nat)
    ensures var pulled := PullExpired(orders, staker, token, info, now, period);
            && pulled.info.withdrawable >= info.withdrawable
            && pulled.info == info.(withdrawable := pulled.info.withdrawable)
            && pulled.info.withdrawable + OrderSum(pulled.orders, token) == info.withdrawable + OrderSum(orders, token)
            && SameElsewhere(orders, pulled.orders, staker, token)
            && pulled.orders.Keys <= orders.Keys
  {
    var expired := Expired(Scanned(orders, staker, token), 0, now, period);
    ScannedAscends(orders, staker, token);
    ExpiredDistinct(Scanned(orders, staker, token), 0, now, period);
    RemoveOrdersKeys(orders, staker, token, expired);
    RemoveOrdersSum(orders, staker, token, expired, token);
    hide Scanned, Expired, RemoveOrders, OrderSum, Distinct;
  }

  /** orders of other pools keep their sum */
  lemma OtherOrders(orders: Orders, orders': Orders, staker: Addr, token: Addr, other: Addr)
    requires SameElsewhere(orders, orders', staker, token) && other != token
    ensures OrderSum(orders', other) == OrderSum(orders, other)
  {
    var all := orders.Keys + orders'.Keys;
    SumExtend(orders.Keys, all, OrderPart(orders, other));
    SumExtend(orders'.Keys, all, OrderPart(orders', other));
    SumCongruent(all, OrderPart(orders, other), OrderPart(orders', other));
  }

  lemma AddOrderSum(orders: Orders, key: OrderKey, amount: nat)
    requires key !in orders
    ensures OrderSum(orders[key := amount], key.1) == OrderSum(orders, key.1) + amount
  {
    var after := orders[key := amount];
    SumUpdate(orders.Keys, after.Keys, key, OrderPart(orders, key.1), OrderPart(after, key.1));
  }
}
