/** Reward distribution by a global index: the conservation law behind every pool of the
    contracts.  An index update rounds the index down, a settlement pays the difference of
    two rounded products, and a change of weight can inject a fraction of one unit. */
module RewardIndex {
  import opened FixedPoint
  import opened Sums

  /** an account's weight in a pool and the index it was last settled at */
  datatype Stake = Stake(weight: nat, index: nat)

  /** What one stake may still be credited, in units of 10^-18: the growth of its exact
      product, and the fraction its last settlement rounded away. */
  function Potential(stake: Stake, g: nat): int {
    stake.weight * (g - stake.index) + stake.weight * stake.index % E
  }

  /** what a settlement at index `g` credits */
  function Credit(stake: Stake, g: nat): int {
    MulDec(stake.weight, g) - MulDec(stake.weight, stake.index)
  }

  lemma CreditNonneg(stake: Stake, g: nat)
    requires stake.index <= g
    ensures Credit(stake, g) >= 0
  {
    MulMono(stake.index, g, stake.weight);
    DivMono(stake.weight * stake.index, stake.weight * g, E);
  }

  lemma PotentialNonneg(stake: Stake, g: nat)
    requires stake.index <= g
    ensures Potential(stake, g) >= 0
  {
    MulNonneg(stake.weight, g - stake.index);
  }

  /** settling turns potential into credit exactly */
  lemma SettleExact(stake: Stake, g: nat)
    ensures E * Credit(stake, g) + Potential(Stake(stake.weight, g), g) == Potential(stake, g)
  {
    var w, i := stake.weight, stake.index;
    assert w * (g - g) == 0;
    assert w * (g - i) == w * g - w * i;
  }

  /** a settled stake holds less than one unit, whatever its weight */
  lemma SettledBelowOne(w: nat, g: nat)
    ensures 0 <= Potential(Stake(w, g), g) < E
  {
    assert w * (g - g) == 0;
  }

  lemma PotentialGrows(stake: Stake, g: nat, d: nat)
    ensures Potential(stake, g + d) == Potential(stake, g) + d * stake.weight
  {
    var w, i := stake.weight, stake.index;
    assert w * (g + d - i) == w * (g - i) + d * w;
  }

  // ----- a pool of stakes -----

  type Stakes<K> = map<K, Stake>

  ghost function PotentialOf<K>(stakes: Stakes<K>, g: nat): K -> int {
    k => if k in stakes then Potential(stakes[k], g) else 0
  }

  ghost function WeightOf<K>(stakes: Stakes<K>): K -> int {
    k => if k in stakes then stakes[k].weight else 0
  }

  ghost function TotalPotential<K>(stakes: Stakes<K>, g: nat): int {
    Sum(stakes.Keys, PotentialOf(stakes, g))
  }

  ghost function TotalWeight<K>(stakes: Stakes<K>): int {
    Sum(stakes.Keys, WeightOf(stakes))
  }

  /** what was handed to the index or kept waiting for it, what accounts were credited, and
      how many times an account's weight changed */
  datatype Ledger = Ledger(emitted: int, credited: int, changes: nat)

  /** The law: credits and potential together are covered by what reached the index, up to
      less than one unit per change of weight. */
  ghost predicate Conserved<K>(stakes: Stakes<K>, g: nat, totalWeight: nat, pending: nat, ledger: Ledger) {
    && (forall k | k in stakes :: stakes[k].index <= g)
    && TotalWeight(stakes) <= totalWeight
    && pending <= ledger.emitted
    && E * ledger.credited + TotalPotential(stakes, g) <= E * (ledger.emitted - pending) + (E - 1) * ledger.changes
  }

  lemma TotalPotentialNonneg<K>(stakes: Stakes<K>, g: nat)
    requires forall k | k in stakes :: stakes[k].index <= g
    ensures TotalPotential(stakes, g) >= 0
  {
    forall k | k in stakes.Keys ensures PotentialOf(stakes, g)(k) >= 0 {
      PotentialNonneg(stakes[k], g);
    }
    SumNonneg(stakes.Keys, PotentialOf(stakes, g));
  }

  /** Over any history the credits exceed the emission by less than one unit per change of
      weight, and not at all when no weight ever changed. */
  lemma CreditsBounded<K>(stakes: Stakes<K>, g: nat, totalWeight: nat, pending: nat, ledger: Ledger)
    requires Conserved(stakes, g, totalWeight, pending, ledger)
    ensures ledger.credited + pending <= ledger.emitted + ledger.changes
    ensures ledger.changes > 0 ==> ledger.credited + pending < ledger.emitted + ledger.changes
  {
    TotalPotentialNonneg(stakes, g);
    var c, n := ledger.credited, ledger.changes;
    assert E * c <= E * (ledger.emitted - pending) + (E - 1) * n;
    assert c * E <= (ledger.emitted - pending + n) * E - n;
    if n > 0 {
      MulCancelLt(c, ledger.emitted - pending + n, E);
    } else {
      MulCancelLe(c, ledger.emitted - pending, E);
    }
  }

  ghost function GrowthOf<K>(stakes: Stakes<K>, d: nat): K -> int {
    k => if k in stakes then d * stakes[k].weight else 0
  }

  lemma GrowAll<K>(stakes: Stakes<K>, g: nat, d: nat)
    ensures TotalPotential(stakes, g + d) == TotalPotential(stakes, g) + d * TotalWeight(stakes)
  {
    var growth := GrowthOf(stakes, d);
    forall k | k in stakes.Keys
      ensures PotentialOf(stakes, g + d)(k) == PotentialOf(stakes, g)(k) + growth(k)
    {
      PotentialGrows(stakes[k], g, d);
    }
    SumPlus(stakes.Keys, PotentialOf(stakes, g), growth, PotentialOf(stakes, g + d));
    SumScale(stakes.Keys, WeightOf(stakes), d, growth);
  }

  lemma TotalWeightNonneg<K>(stakes: Stakes<K>)
    ensures TotalWeight(stakes) >= 0
  {
    SumNonneg(stakes.Keys, WeightOf(stakes));
  }

  /** a distribution over a positive weight raises the index and empties the waiting amount */
  lemma DistributeConserves<K>(
      stakes: Stakes<K>, g: nat, totalWeight: nat, pending: nat, ledger: Ledger, amount: nat)
    requires Conserved(stakes, g, totalWeight, pending, ledger) && totalWeight > 0
    ensures Conserved(stakes, g + Ratio(pending + amount, totalWeight), totalWeight, 0,
                      ledger.(emitted := ledger.emitted + amount))
  {
    var p := pending + amount;
    var d := Ratio(p, totalWeight);
    GrowAll(stakes, g, d);
    TotalWeightNonneg(stakes);
    RatioBounds(p, totalWeight);
    MulMono(TotalWeight(stakes), totalWeight, d);
    assert d * totalWeight <= p * E;
    assert E * (ledger.emitted + amount) == E * (ledger.emitted - pending) + p * E;
  }

  /** with nobody in the pool the amount waits */
  lemma WaitConserves<K>(
      stakes: Stakes<K>, g: nat, totalWeight: nat, pending: nat, ledger: Ledger, amount: nat)
    requires Conserved(stakes, g, totalWeight, pending, ledger)
    ensures Conserved(stakes, g, totalWeight, pending + amount, ledger.(emitted := ledger.emitted + amount))
  {
  }

  /** an account without a record counts as weight zero at the current index */
  function StakeAt<K(==)>(stakes: Stakes<K>, k: K, g: nat): Stake {
    if k in stakes then stakes[k] else Stake(0, g)
  }

  /** the ledger after settling an account and giving it a new weight */
  function Touched(ledger: Ledger, before: Stake, weight: nat, g: nat): Ledger {
    Ledger(
      ledger.emitted,
      ledger.credited + Credit(before, g),
      ledger.changes + if weight == before.weight then 0 else 1)
  }

  /** settle, then change the weight; a stake left with weight zero may be dropped */
  lemma TouchConserves<K>(
      stakes: Stakes<K>, stakes': Stakes<K>, g: nat, totalWeight: nat, totalWeight': nat, pending: nat,
      ledger: Ledger, k: K, weight: nat)
    requires Conserved(stakes, g, totalWeight, pending, ledger)
    requires stakes' == stakes[k := Stake(weight, g)] || (weight == 0 && stakes' == stakes - {k})
    requires totalWeight' == totalWeight - StakeAt(stakes, k, g).weight + weight
    ensures Conserved(stakes', g, totalWeight', pending, Touched(ledger, StakeAt(stakes, k, g), weight, g))
  {
    TouchedTotals(stakes, stakes', g, k, weight);
    TouchConservesWithin(stakes, stakes', g, totalWeight, totalWeight', pending, ledger, k, weight);
  }

  /** the same where the pool's total weight also counts accounts without a record */
  lemma TouchConservesWithin<K>(
      stakes: Stakes<K>, stakes': Stakes<K>, g: nat, totalWeight: nat, totalWeight': nat, pending: nat,
      ledger: Ledger, k: K, weight: nat)
    requires Conserved(stakes, g, totalWeight, pending, ledger)
    requires stakes' == stakes[k := Stake(weight, g)] || (weight == 0 && stakes' == stakes - {k})
    requires TotalWeight(stakes') <= totalWeight'
    ensures Conserved(stakes', g, totalWeight', pending, Touched(ledger, StakeAt(stakes, k, g), weight, g))
  {
    hide TotalWeight, TotalPotential, Potential, Credit;
    var before := StakeAt(stakes, k, g);
    TouchedTotals(stakes, stakes', g, k, weight);
    PotentialSwap(before, weight, g);
    var l := Touched(ledger, before, weight, g);
    assert E * l.credited == E * ledger.credited + E * Credit(before, g);
    assert (E - 1) * l.changes == (E - 1) * ledger.changes + if weight == before.weight then 0 else E - 1;
  }

  lemma TouchedTotals<K>(stakes: Stakes<K>, stakes': Stakes<K>, g: nat, k: K, weight: nat)
    requires stakes' == stakes[k := Stake(weight, g)] || (weight == 0 && stakes' == stakes - {k})
    ensures TotalWeight(stakes') == TotalWeight(stakes) - StakeAt(stakes, k, g).weight + weight
    ensures TotalPotential(stakes', g)
            == TotalPotential(stakes, g) - Potential(StakeAt(stakes, k, g), g) + Potential(Stake(weight, g), g)
  {
    SumUpdate(stakes.Keys, stakes'.Keys, k, WeightOf(stakes), WeightOf(stakes'));
    SumUpdate(stakes.Keys, stakes'.Keys, k, PotentialOf(stakes, g), PotentialOf(stakes', g));
    assert Potential(Stake(0, g), g) == 0;
  }

  lemma PotentialSwap(before: Stake, weight: nat, g: nat)
    ensures E * Credit(before, g) + Potential(Stake(weight, g), g)
            <= Potential(before, g) + if weight == before.weight then 0 else E - 1
  {
    SettleExact(before, g);
    SettledBelowOne(before.weight, g);
    SettledBelowOne(weight, g);
  }

  // ----- a weight that changes without a settlement -----

  /** what a stake gains when its weight is raised while its index is behind: whole units that
      nobody handed to the index, rounded up */
  function Phantom(stake: Stake, weight: nat, g: nat): (units: nat)
    ensures units == 0 <==> weight <= stake.weight || g <= stake.index
  {
    if weight <= stake.weight || g <= stake.index then 0
    else
      var gain := (weight - stake.weight) * (g - stake.index);
      MulMono(1, weight - stake.weight, g - stake.index);
      DivAtLeast(gain + E - 1, E, 1);
      (gain + E - 1) / E
  }

  lemma PhantomCovers(stake: Stake, weight: nat, g: nat)
    requires stake.index <= g
    ensures (weight - stake.weight) * (g - stake.index) <= E * Phantom(stake, weight, g)
  {
    if weight > stake.weight && g > stake.index {
      DivBounds((weight - stake.weight) * (g - stake.index) + E - 1, E);
    } else if weight <= stake.weight {
      MulNonneg(stake.weight - weight, g - stake.index);
      assert (weight - stake.weight) * (g - stake.index) == -((stake.weight - weight) * (g - stake.index));
    }
  }

  lemma PotentialMoves(stake: Stake, weight: nat, g: nat)
    ensures Potential(Stake(weight, stake.index), g)
            <= Potential(stake, g) + (weight - stake.weight) * (g - stake.index) + if weight == stake.weight then 0 else E - 1
  {
    var d := g - stake.index;
    assert weight * d == stake.weight * d + (weight - stake.weight) * d;
  }

  /** the ledger after a weight was changed without a settlement, what it gained counted as if
      it had been emitted */
  function WeightChanged(ledger: Ledger, before: Stake, weight: nat, g: nat): Ledger {
    Ledger(
      ledger.emitted + Phantom(before, weight, g),
      ledger.credited,
      ledger.changes + if weight == before.weight then 0 else 1)
  }

  /** The law survives a change of weight without a settlement only with what was gained. */
  lemma ReweighedConserves<K>(
      stakes: Stakes<K>, stakes': Stakes<K>, g: nat, totalWeight: nat, totalWeight': nat, pending: nat,
      ledger: Ledger, k: K, weight: nat)
    requires Conserved(stakes, g, totalWeight, pending, ledger) && k in stakes
    requires stakes' == stakes[k := Stake(weight, stakes[k].index)]
    requires TotalWeight(stakes') <= totalWeight'
    ensures Conserved(stakes', g, totalWeight', pending, WeightChanged(ledger, stakes[k], weight, g))
  {
    hide TotalWeight, Potential, Phantom;
    var before := stakes[k];
    PotentialReplaced(stakes, stakes', g, k, weight);
    PhantomCovers(before, weight, g);
    PotentialMoves(before, weight, g);
    hide TotalPotential;
    var l := WeightChanged(ledger, before, weight, g);
    assert E * (l.emitted - pending) == E * (ledger.emitted - pending) + E * Phantom(before, weight, g);
    assert (E - 1) * l.changes == (E - 1) * ledger.changes + if weight == before.weight then 0 else E - 1;
  }

  lemma PotentialReplaced<K>(stakes: Stakes<K>, stakes': Stakes<K>, g: nat, k: K, weight: nat)
    requires k in stakes && stakes' == stakes[k := Stake(weight, stakes[k].index)]
    ensures TotalPotential(stakes', g)
            == TotalPotential(stakes, g) - Potential(stakes[k], g) + Potential(Stake(weight, stakes[k].index), g)
  {
    hide Potential;
    SumUpdate(stakes.Keys, stakes'.Keys, k, PotentialOf(stakes, g), PotentialOf(stakes', g));
  }

  /** another total weight is as good, while the weights stay within it */
  lemma TotalChanges<K>(stakes: Stakes<K>, g: nat, totalWeight: nat, totalWeight': nat, pending: nat, ledger: Ledger)
    requires Conserved(stakes, g, totalWeight, pending, ledger) && TotalWeight(stakes) <= totalWeight'
    ensures Conserved(stakes, g, totalWeight', pending, ledger)
  {
  }

  /** a stake without weight may be dropped at any time */
  lemma DropConserves<K>(stakes: Stakes<K>, g: nat, totalWeight: nat, pending: nat, ledger: Ledger, k: K)
    requires Conserved(stakes, g, totalWeight, pending, ledger) && k in stakes && stakes[k].weight == 0
    ensures Conserved(stakes - {k}, g, totalWeight, pending, ledger)
  {
    var stakes' := stakes - {k};
    assert Potential(stakes[k], g) == 0;
    hide Potential;
    SumUpdate(stakes.Keys, stakes'.Keys, k, PotentialOf(stakes, g), PotentialOf(stakes', g));
    SumUpdate(stakes.Keys, stakes'.Keys, k, WeightOf(stakes), WeightOf(stakes'));
  }

  /** other accounts' records do not matter to the law */
  lemma EmptyConserved<K>(g: nat)
    ensures Conserved<K>(map[], g, 0, 0, Ledger(0, 0, 0))
  {
  }

  // ----- credits really can exceed the emission -----

  /** the index after 999 units went to a weight of a thousand, and after one more unit went
      to three accounts of weight one */
  const FirstIndex: nat := 999_000_000_000_000_000

  const LastIndex: nat := 1_332_333_333_333_333_333

  /** an account takes the 999 units and leaves, and three accounts of weight one join */
  function JoinedLedger(): Ledger {
    var l := Touched(Ledger(0, 0, 0), Stake(0, 0), 1000, 0);
    var l := Touched(l.(emitted := l.emitted + 999), Stake(1000, 0), 0, FirstIndex);
    var l := Touched(l, Stake(0, FirstIndex), 1, FirstIndex);
    var l := Touched(l, Stake(0, FirstIndex), 1, FirstIndex);
    Touched(l, Stake(0, FirstIndex), 1, FirstIndex)
  }

  /** one more unit arrives, and each of the three is settled */
  function SettledLedger(): Ledger {
    var l := JoinedLedger();
    var l := Touched(l.(emitted := l.emitted + 1), Stake(1, FirstIndex), 1, LastIndex);
    var l := Touched(l, Stake(1, FirstIndex), 1, LastIndex);
    Touched(l, Stake(1, FirstIndex), 1, LastIndex)
  }

  function ThreeAt(index: nat): Stakes<nat> {
    map[1 := Stake(1, index), 2 := Stake(1, index), 3 := Stake(1, index)]
  }

  lemma ThreeJoin()
    ensures Conserved(ThreeAt(FirstIndex), FirstIndex, 3, 0, JoinedLedger())
  {
    hide Conserved, Touched, Ratio;
    IndexValues();
    EmptyConserved<nat>(0);
    var g := FirstIndex;
    var s0: Stakes<nat> := map[];
    var l := Touched(Ledger(0, 0, 0), Stake(0, 0), 1000, 0);
    TouchConserves(s0, s0[0 := Stake(1000, 0)], 0, 0, 1000, 0, Ledger(0, 0, 0), 0, 1000);
    DistributeConserves(s0[0 := Stake(1000, 0)], 0, 1000, 0, l, 999);
    l := l.(emitted := l.emitted + 999);
    assert s0[0 := Stake(1000, 0)] - {0} == s0;
    TouchConserves(s0[0 := Stake(1000, 0)], s0, g, 1000, 0, 0, l, 0, 0);
    l := Touched(l, Stake(1000, 0), 0, g);
    var s1, s2 := s0[1 := Stake(1, g)], s0[1 := Stake(1, g)][2 := Stake(1, g)];
    TouchConserves(s0, s1, g, 0, 1, 0, l, 1, 1);
    l := Touched(l, Stake(0, g), 1, g);
    TouchConserves(s1, s2, g, 1, 2, 0, l, 2, 1);
    l := Touched(l, Stake(0, g), 1, g);
    TouchConserves(s2, s2[3 := Stake(1, g)], g, 2, 3, 0, l, 3, 1);
    assert s2[3 := Stake(1, g)] == ThreeAt(g);
  }

  lemma CreditIs(w: nat, i: nat, g: nat, before: nat, after: nat)
    requires before * E <= w * i < before * E + E && after * E <= w * g < after * E + E
    ensures Credit(Stake(w, i), g) == after - before
  {
    DivUnique(w * i, E, before);
    DivUnique(w * g, E, after);
  }

  lemma CreditValues(first: Stake, later: Stake, g: nat, g': nat)
    requires first == Stake(1000, 0) && later == Stake(1, g)
    requires g == FirstIndex && g' == LastIndex
    ensures Credit(first, g) == 999 && Credit(later, g') == 1
  {
    hide Credit;
    CreditIs(1000, 0, g, 0, 999);
    CreditIs(1, g, g', 0, 1);
  }

  lemma CreditOfNothing(g: nat)
    ensures Credit(Stake(0, g), g) == 0
  {
    CreditIs(0, g, g, 0, 0);
  }

  lemma IndexValues()
    ensures 0 + Ratio(0 + 999, 1000) == FirstIndex && FirstIndex + Ratio(0 + 1, 3) == LastIndex
  {
    DivUnique(999_000_000_000_000_000_000, 1000, FirstIndex);
    DivUnique(E, 3, 333_333_333_333_333_333);
  }

  lemma LedgerValues()
    ensures SettledLedger() == Ledger(1000, 1002, 5)
  {
    hide Credit;
    CreditOfNothing(0);
    CreditOfNothing(FirstIndex);
    CreditValues(Stake(1000, 0), Stake(1, FirstIndex), FirstIndex, LastIndex);
  }

  /** Accounts really can be credited more than was emitted: of the thousand units above, one
      account is credited 999 and three of them one each. */
  lemma CreditsCanExceedEmission()
    ensures Conserved(ThreeAt(LastIndex), LastIndex, 3, 0, SettledLedger())
    ensures SettledLedger() == Ledger(1000, 1002, 5)
  {
    hide Conserved, Touched, JoinedLedger, Credit, Ratio;
    IndexValues();
    LedgerValues();
    ThreeJoin();
    var g, g' := FirstIndex, LastIndex;
    var l, t := JoinedLedger(), ThreeAt(g);
    DistributeConserves(t, g, 3, 0, l, 1);
    l := l.(emitted := l.emitted + 1);
    var t1, t2 := t[1 := Stake(1, g')], t[1 := Stake(1, g')][2 := Stake(1, g')];
    TouchConserves(t, t1, g', 3, 3, 0, l, 1, 1);
    l := Touched(l, Stake(1, g), 1, g');
    TouchConserves(t1, t2, g', 3, 3, 0, l, 2, 1);
    l := Touched(l, Stake(1, g), 1, g');
    TouchConserves(t2, t2[3 := Stake(1, g')], g', 3, 3, 0, l, 3, 1);
    assert t2[3 := Stake(1, g')] == ThreeAt(g');
  }
}
