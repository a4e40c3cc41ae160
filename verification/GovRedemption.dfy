/** Redemption orders of xPRISM and the rate at which it is minted and redeemed. */
module GovRedemption {
  import opened Addresses
  import opened Results
  import opened FixedPoint
  import opened Sums
  import opened GovModel

  // ----- what is on order -----

  ghost function XprismPart(orders: Orders): OrderKey -> int {
    (k: OrderKey) => OrderAt(orders, k).xprism
  }

  ghost function PrismPart(orders: Orders): OrderKey -> int {
    (k: OrderKey) => OrderAt(orders, k).prism
  }

  ghost function XprismOrdered(orders: Orders): int {
    Sum(orders.Keys, XprismPart(orders))
  }

  ghost function PrismOrdered(orders: Orders): int {
    Sum(orders.Keys, PrismPart(orders))
  }

  /** the stored totals are the sums of the stored orders */
  ghost predicate OrdersInv(s: Storage) {
    && s.pendingXprism == XprismOrdered(s.orders)
    && s.pendingPrism == PrismOrdered(s.orders)
  }

  /** the sums follow a change of one order */
  lemma OrderMoved(orders: Orders, orders': Orders, key: OrderKey)
    requires orders'.Keys <= orders.Keys + {key} && orders.Keys <= orders'.Keys + {key}
    requires forall k | k in orders && k != key :: k in orders' && orders'[k] == orders[k]
    ensures XprismOrdered(orders')
            == XprismOrdered(orders) + OrderAt(orders', key).xprism - OrderAt(orders, key).xprism
    ensures PrismOrdered(orders')
            == PrismOrdered(orders) + OrderAt(orders', key).prism - OrderAt(orders, key).prism
  {
    SumUpdate(orders.Keys, orders'.Keys, key, XprismPart(orders), XprismPart(orders'));
    SumUpdate(orders.Keys, orders'.Keys, key, PrismPart(orders), PrismPart(orders'));
  }

  lemma {:induction false} OrdersOff(orders: Orders, a: Addr, t: nat, times: seq<nat>)
    requires t !in times
    ensures SumXprism(orders - {(a, t)}, a, times) == SumXprism(orders, a, times)
    ensures SumPrism(orders - {(a, t)}, a, times) == SumPrism(orders, a, times)
  {
    if times != [] {
      OrdersOff(orders, a, t, times[1..]);
    }
  }

  lemma {:induction false} RemoveOrdersSums(orders: Orders, a: Addr, times: seq<nat>)
    requires Distinct(times)
    ensures var after := RemoveOrders(orders, a, times);
            && XprismOrdered(after) == XprismOrdered(orders) - SumXprism(orders, a, times)
            && PrismOrdered(after) == PrismOrdered(orders) - SumPrism(orders, a, times)
    decreases |times|
  {
    hide XprismOrdered, PrismOrdered;
    if times != [] {
      var key: OrderKey := (a, times[0]);
      var without := orders - {key};
      OrderMoved(orders, without, key);
      OrdersOff(orders, a, times[0], times[1..]);
      RemoveOrdersSums(without, a, times[1..]);
    }
  }

  lemma {:induction false} RemoveOrdersKeys(orders: Orders, a: Addr, times: seq<nat>)
    ensures var after := RemoveOrders(orders, a, times);
            && (forall k :: k in after <==> k in orders && !(k.0 == a && k.1 in times))
            && (forall k | k in after :: after[k] == orders[k])
    decreases |times|
  {
    if times != [] {
      RemoveOrdersKeys(orders - {(a, times[0])}, a, times[1..]);
    }
  }

  lemma OrderedNonneg(orders: Orders)
    ensures XprismOrdered(orders) >= 0 && PrismOrdered(orders) >= 0
  {
    SumNonneg(orders.Keys, XprismPart(orders));
    SumNonneg(orders.Keys, PrismPart(orders));
  }

  lemma PagedAscends(orders: Orders, a: Addr)
    ensures StrictlyAscending(PagedOrders(orders, a))
  {
  }

  /** the orders a claim pays */
  function DueOrders(s: Storage, now: nat, sender: Addr): seq<nat> {
    Due(PagedOrders(s.orders, sender), now)
  }

  /** The totals never underflow: a claim fails only when nothing is due.  It takes exactly
      the due orders among the first fifty off the books, so no order is paid twice. */
  lemma ClaimExact(s: Storage, now: nat, sender: Addr)
    requires OrdersInv(s)
    ensures var due := DueOrders(s, now, sender);
            var xprism, prism := SumXprism(s.orders, sender, due), SumPrism(s.orders, sender, due);
            && (ClaimRedeemed(s, now, sender).Ok? <==> xprism > 0 || prism > 0)
            && (ClaimRedeemed(s, now, sender).Ok? ==>
                  var o := ClaimRedeemed(s, now, sender).value;
                  && o.xprism == xprism && o.prism == prism
                  && o.store == s.(orders := o.store.orders,
                                   pendingXprism := s.pendingXprism - xprism,
                                   pendingPrism := s.pendingPrism - prism)
                  && OrdersInv(o.store)
                  && (forall k :: k in o.store.orders <==> k in s.orders && !(k.0 == sender && k.1 in due)))
            && (forall t | t in due :: t <= now)
  {
    hide PagedOrders, SumXprism, SumPrism, RemoveOrders, XprismOrdered, PrismOrdered, Due, Distinct;
    var due := DueOrders(s, now, sender);
    PagedAscends(s.orders, sender);
    DueOfRange(PagedOrders(s.orders, sender), now);
    RemoveOrdersSums(s.orders, sender, due);
    RemoveOrdersKeys(s.orders, sender, due);
    OrderedNonneg(RemoveOrders(s.orders, sender, due));
  }

  lemma RedeemKeeps(s: Storage, now: nat, sender: Addr, amount: nat, prismBalance: nat, supply: nat)
    requires OrdersInv(s) && RedeemXprism(s, now, sender, amount, prismBalance, supply).Ok?
    ensures OrdersInv(RedeemXprism(s, now, sender, amount, prismBalance, supply).value)
  {
    hide MultiplyRatio, XprismOrdered, PrismOrdered;
    var s' := RedeemXprism(s, now, sender, amount, prismBalance, supply).value;
    OrderMoved(s.orders, s'.orders, (sender, now + s.cfg.redemptionTime));
  }

  // ----- the rate -----

  /** PRISM and xPRISM that back each other: without what is on order */
  datatype Effective = Effective(prism: int, xprism: int)

  /** `b` has at least the PRISM for each xPRISM that `a` has */
  ghost predicate AtLeastRate(a: Effective, b: Effective) {
    b.prism * a.xprism >= a.prism * b.xprism
  }

  lemma MintKeepsRate(prism: nat, xprism: nat, amount: nat, minted: nat)
    requires minted == if prism == 0 then amount else MultiplyRatio(amount, xprism, prism)
    ensures AtLeastRate(Effective(prism, xprism), Effective(prism + amount, xprism + minted))
  {
    if prism > 0 {
      MultiplyRatioBounds(amount, xprism, prism);
      assert minted * prism <= amount * xprism;
      assert (prism + amount) * xprism == prism * xprism + amount * xprism;
      assert prism * (xprism + minted) == prism * xprism + minted * prism;
    } else {
      MulNonneg(amount, xprism);
      assert (prism + amount) * xprism == amount * xprism;
      assert prism * (xprism + minted) == 0;
    }
  }

  lemma RedeemKeepsRate(prism: nat, xprism: nat, amount: nat)
    requires 0 < xprism && amount <= xprism
    ensures var returned := MultiplyRatio(amount, prism, xprism);
            && returned <= prism
            && AtLeastRate(Effective(prism, xprism), Effective(prism - returned, xprism - amount))
  {
    var returned := MultiplyRatio(amount, prism, xprism);
    MultiplyRatioBounds(amount, prism, xprism);
    MulMono(amount, xprism, prism);
    assert returned * xprism <= amount * prism;
    assert xprism * prism == prism * xprism;
    MulCancelLe(returned, prism, xprism);
    assert (prism - returned) * xprism == prism * xprism - returned * xprism;
    assert prism * (xprism - amount) == prism * xprism - amount * prism;
  }

  lemma BurnKeepsRate(prism: nat, xprism: nat, burned: nat)
    requires burned <= xprism
    ensures AtLeastRate(Effective(prism, xprism), Effective(prism, xprism - burned))
  {
    MulMono(xprism - burned, xprism, prism);
  }

  lemma GiftKeepsRate(prism: nat, xprism: nat, gift: nat)
    ensures AtLeastRate(Effective(prism, xprism), Effective(prism + gift, xprism))
  {
    MulMono(prism, prism + gift, xprism);
  }

  lemma SameRate(a: Effective)
    ensures AtLeastRate(a, a)
  {
  }

  /** the comparison chains as long as the middle supply is not empty */
  lemma RateTransitive(a: Effective, b: Effective, c: Effective)
    requires a.prism >= 0 && a.xprism >= 0 && b.xprism > 0 && c.xprism >= 0
    requires AtLeastRate(a, b) && AtLeastRate(b, c)
    ensures AtLeastRate(a, c)
  {
    MulMono(a.prism * b.xprism, b.prism * a.xprism, c.xprism);
    MulMono(b.prism * c.xprism, c.prism * b.xprism, a.xprism);
    RateProducts(a.prism, a.xprism, b.prism, b.xprism, c.prism, c.xprism);
    MulCancelLe(a.prism * c.xprism, c.prism * a.xprism, b.xprism);
  }

  lemma RateProducts(ap: int, ax: int, bp: int, bx: int, cp: int, cx: int)
    ensures ap * bx * cx == ap * cx * bx
    ensures bp * ax * cx == bp * cx * ax
    ensures cp * bx * ax == cp * ax * bx
  {
  }

  /** What a deposit of PRISM mints: its share of the xPRISM in effect, rounded down once, over
      the PRISM in effect without the deposit; one to one while there is none. */
  lemma MintExact(s: Storage, amount: nat, prismBalance: nat, supply: nat)
    ensures MintXprism(s, amount, prismBalance, supply).Ok? <==>
            amount + s.pendingPrism <= prismBalance && s.pendingXprism <= supply
    ensures MintXprism(s, amount, prismBalance, supply).Ok? ==>
              var minted := MintXprism(s, amount, prismBalance, supply).value;
              var prism, xprism := prismBalance - amount - s.pendingPrism, supply - s.pendingXprism;
              if prism == 0 then minted == amount
              else minted * prism <= amount * xprism < (minted + 1) * prism
  {
    if amount + s.pendingPrism <= prismBalance && s.pendingXprism <= supply {
      var prism, xprism := prismBalance - amount - s.pendingPrism, supply - s.pendingXprism;
      if prism > 0 {
        MultiplyRatioBounds(amount, xprism, prism);
      }
    }
  }

  /** What xPRISM is redeemed for: its share of the PRISM in effect, rounded down once, over the
      xPRISM in effect.  It is ordered for when the redemption time is over, and nothing else
      changes; a second redemption in the same second is refused. */
  lemma RedeemExact(s: Storage, now: nat, sender: Addr, amount: nat, prismBalance: nat, supply: nat)
    ensures var key := (sender, now + s.cfg.redemptionTime);
            && (RedeemXprism(s, now, sender, amount, prismBalance, supply).Ok? <==>
                  s.pendingPrism <= prismBalance && s.pendingXprism < supply && key !in s.orders)
            && (RedeemXprism(s, now, sender, amount, prismBalance, supply).Ok? ==>
                  var s' := RedeemXprism(s, now, sender, amount, prismBalance, supply).value;
                  var prism, xprism := prismBalance - s.pendingPrism, supply - s.pendingXprism;
                  var returned := s'.pendingPrism - s.pendingPrism;
                  && returned >= 0
                  && returned * xprism <= amount * prism < (returned + 1) * xprism
                  && s' == s.(orders := s.orders[key := Order(amount, returned)],
                              pendingXprism := s.pendingXprism + amount, pendingPrism := s.pendingPrism + returned))
  {
    if s.pendingPrism <= prismBalance && s.pendingXprism < supply {
      MultiplyRatioBounds(amount, prismBalance - s.pendingPrism, supply - s.pendingXprism);
    }
  }

  /** the times at which an account's orders are due */
  function OrderTimes(orders: Orders, account: Addr): set<nat> {
    set k | k in orders.Keys && k.0 == account :: k.1
  }

  lemma PagedByRank(orders: Orders, account: Addr, t: nat)
    requires (account, t) in orders
    ensures t in PagedOrders(orders, account) <==> |Below(OrderTimes(orders, account), t)| < 50
  {
    var key: OrderKey := (account, t);
    assert key in orders.Keys && t in OrderTimes(orders, account);
    TakenByRank(OrderTimes(orders, account), 50, t);
  }

  /** A claim pays an order exactly when its time has come and fewer than fifty orders of the
      account are due before it. */
  lemma OrdersWait(s: Storage, now: nat, sender: Addr, t: nat)
    requires OrdersInv(s) && (sender, t) in s.orders && ClaimRedeemed(s, now, sender).Ok?
    ensures (sender, t) !in ClaimRedeemed(s, now, sender).value.store.orders
            <==> t <= now && |Below(OrderTimes(s.orders, sender), t)| < 50
  {
    hide ClaimRedeemed, Due, PagedOrders, OrdersInv, StrictlyAscending, Below, OrderTimes, RemoveOrders;
    PagedByRank(s.orders, sender, t);
    ClaimExact(s, now, sender);
    PagedAscends(s.orders, sender);
    DuePrefix(PagedOrders(s.orders, sender), now);
    var times := PagedOrders(s.orders, sender);
    var due := Due(times, now);
    assert forall i | 0 <= i < |due| :: due[i] == times[i];
  }

  /** Minting and redeeming at once never returns more PRISM than was put in, not even
      when gov holds no PRISM before. */
  lemma MintThenRedeem(s: Storage, now: nat, sender: Addr, amount: nat, prismBalance: nat, supply: nat)
    requires s.pendingPrism <= prismBalance && s.pendingXprism <= supply
    ensures var minted := MintXprism(s, amount, prismBalance + amount, supply);
            && minted.Ok?
            && var redeemed := RedeemXprism(s, now, sender, minted.value, prismBalance + amount, supply + minted.value);
               redeemed.Ok? ==> redeemed.value.pendingPrism - s.pendingPrism <= amount
  {
    var prism, xprism := prismBalance - s.pendingPrism, supply - s.pendingXprism;
    var m := MintXprism(s, amount, prismBalance + amount, supply).value;
    if xprism + m > 0 {
      var returned := MultiplyRatio(m, prism + amount, xprism + m);
      MultiplyRatioBounds(m, prism + amount, xprism + m);
      if prism > 0 {
        MultiplyRatioBounds(amount, xprism, prism);
      }
      RoundTrip(prism, xprism, amount, m, returned);
    }
  }

  lemma RoundTrip(prism: nat, xprism: nat, amount: nat, m: nat, returned: nat)
    requires xprism + m > 0 && returned * (xprism + m) <= m * (prism + amount)
    requires prism > 0 ==> m * prism <= amount * xprism
    requires prism == 0 ==> m == amount
    ensures returned <= amount
  {
    assert m * (prism + amount) == m * prism + m * amount;
    assert amount * (xprism + m) == amount * xprism + m * amount;
    MulNonneg(amount, xprism);
    assert prism == 0 ==> m * prism == 0;
    MulCancelLe(returned, amount, xprism + m);
  }
}
