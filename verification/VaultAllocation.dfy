/** How the release spreads slashing or surplus over the finished batches: the rounding of
    each batch is always against the batch, so the parts never exceed what arrived. */
module VaultAllocation {
  import opened Results
  import opened FixedPoint
  import opened SignedIntegers
  import opened VaultModel

  // ----- one batch -----

  /** `weight * magnitude`, the rounded part of the slashing that falls on one batch */
  function Share(unbonded: nat, total: nat, magnitude: nat): nat
    requires total > 0
  {
    MulDec(magnitude, Ratio(unbonded, total))
  }

  /** the share is within one unit (and `magnitude / E`) of the exact proportion */
  lemma ShareBounds(u: nat, t: nat, m: nat)
    requires t > 0
    ensures Share(u, t, m) * t <= u * m
    ensures m > 0 ==> (Share(u, t, m) + 1) * (E * t) > u * (m * E) - t * m
  {
    var w := Ratio(u, t);
    RatioBounds(u, t);
    MulDecBounds(m, w);
    TimesMagnitude(E, u, t, m, w);
    TimesTotal(E, t, m, m * w, MulDec(m, w));
    MulCancelLe(Share(u, t, m) * t, u * m, E);
  }

  lemma TimesMagnitude(e: int, u: int, t: int, m: int, w: int)
    requires m >= 0 && w * t <= u * e < w * t + t
    ensures (m * w) * t <= (u * m) * e
    ensures u * (m * e) <= (m * w) * t + t * m
  {
    MulMono(w * t, u * e, m);
    MulMono(u * e, w * t + t, m);
    assert m * (w * t) == (m * w) * t;
    assert m * (u * e) == (u * m) * e == u * (m * e);
  }

  lemma TimesTotal(e: int, t: int, m: int, p: int, f: int)
    requires t > 0 && f * e <= p < f * e + e
    ensures (f * t) * e <= p * t < (f + 1) * (e * t)
  {
    MulMono(f * e, p, t);
    MulMono(p + 1, f * e + e, t);
    assert (f * e) * t == (f * t) * e;
    assert (f * e + e) * t == (f + 1) * (e * t);
  }

  lemma Shuffle(a: int, b: int, c: int)
    ensures a * b * c == a * (b * c) == b * (a * c) == (a * c) * b == (b * a) * c
  {
  }

  /** whether the slashed value of a batch is taken of a negative difference */
  predicate Underflows(u: nat, t: nat, slashed: SignedInt)
    requires t > 0
  {
    !slashed.negative && slashed.magnitude != 0 && Share(u, t, slashed.magnitude) + 1 > u
  }

  /** the condition for it, in terms of what is known before the release */
  predicate IsNegative(u: nat, t: nat, arrived: nat)
    requires t > 0
  {
    u == 0 || (arrived == 0 && u * E % t == 0)
  }

  /** with an arrival the rounded share of a batch is less than the batch */
  lemma ShareOfRest(u: nat, t: nat, arrived: nat)
    requires 0 < u && 0 < arrived < t
    ensures Share(u, t, t - arrived) < u
  {
    var m := t - arrived;
    ShareBounds(u, t, m);
    assert u * m == u * t - u * arrived;
    MulMono(1, arrived, u);
    MulCancelLt(Share(u, t, m), u, t);
  }

  /** without one it is the whole batch exactly when the batch's weight is exact */
  lemma ShareOfAll(u: nat, t: nat)
    requires 0 < u && 0 < t
    ensures Share(u, t, t) + 1 > u <==> u * E % t == 0
  {
    var w := Ratio(u, t);
    RatioBounds(u, t);
    assert w * t == u * E - u * E % t;
    WholeShare(t * w, u, E, u * E % t);
  }

  lemma WholeShare(product: nat, u: nat, e: nat, rest: nat)
    requires e > 0 && product == u * e - rest
    ensures product / e + 1 > u <==> rest == 0
  {
    if rest == 0 {
      DivUnique(product, e, u);
    } else {
      DivAtLeast(product, e, u);
    }
  }

  /** The magnitude of a negative difference is taken exactly when something was slashed
      from a batch worth nothing, or from batches for which nothing arrived at all, in
      which case the batch's weight must also be exact. */
  lemma UnderflowIff(u: nat, t: nat, arrived: nat)
    requires t > 0 && u <= t
    ensures Underflows(u, t, FromSubtraction(t, arrived)) <==>
            arrived < t && IsNegative(u, t, arrived)
  {
    hide Share;
    if arrived < t && u > 0 {
      if arrived > 0 {
        ShareOfRest(u, t, arrived);
      } else {
        ShareOfAll(u, t);
      }
    }
  }

  /** in that case the rounded share is the whole batch */
  lemma UnderflowTakesAll(u: nat, t: nat, arrived: nat)
    requires t > 0 && u <= t && Underflows(u, t, FromSubtraction(t, arrived))
    ensures Share(u, t, FromSubtraction(t, arrived).magnitude) == u
  {
    var m := FromSubtraction(t, arrived).magnitude;
    ShareBounds(u, t, m);
    MulMono(m, t, u);
    MulCancelLe(Share(u, t, m), u, t);
  }

  /** what one batch is worth: short of its share and the rounding unit, or with them, and two
      units more where the magnitude of a negative difference is taken */
  lemma ActualAmountIs(u: nat, t: nat, arrived: nat)
    requires t > 0 && u <= t
    requires ActualAmount(u, t, FromSubtraction(t, arrived)).Ok?
    ensures var actual := ActualAmount(u, t, FromSubtraction(t, arrived)).value;
            var s := FromSubtraction(t, arrived);
            && (s.magnitude == 0 ==> actual == u)
            && (!s.negative && s.magnitude > 0 ==>
                  actual == u - Share(u, t, s.magnitude) - 1 + if IsNegative(u, t, arrived) then 2 else 0)
            && (s.negative ==> actual == u + Share(u, t, s.magnitude) - 1)
  {
    var s := FromSubtraction(t, arrived);
    if s.magnitude == 0 {
      assert Share(u, t, 0) == 0 by {
        ShareBounds(u, t, 0);
        MulCancelLe(Share(u, t, 0), 0, t);
      }
    }
    UnderflowIff(u, t, arrived);
    if Underflows(u, t, s) {
      UnderflowTakesAll(u, t, arrived);
    }
  }

  // ----- all batches of one release -----

  function SumShares(us: seq<nat>, t: nat, m: nat): nat
    requires t > 0
  {
    if us == [] then 0 else Share(us[0], t, m) + SumShares(us[1..], t, m)
  }

  function SumAmounts(us: seq<nat>): nat {
    if us == [] then 0 else us[0] + SumAmounts(us[1..])
  }

  lemma {:induction false} SumSharesBounds(us: seq<nat>, t: nat, m: nat)
    requires t > 0 && m > 0
    ensures SumShares(us, t, m) * t <= SumAmounts(us) * m
    ensures (SumShares(us, t, m) + |us|) * (E * t) >= SumAmounts(us) * (m * E) - |us| * (t * m) + |us|
  {
    if us != [] {
      var f, g := Share(us[0], t, m), SumShares(us[1..], t, m);
      ShareBounds(us[0], t, m);
      SumSharesBounds(us[1..], t, m);
      AddUpper(f, g, us[0], SumAmounts(us[1..]), t, m);
      AddLower(f, g, |us[1..]|, us[0], SumAmounts(us[1..]), E * t, m * E, t * m);
    }
  }

  lemma AddUpper(f: int, g: int, u: int, a: int, t: int, m: int)
    requires f * t <= u * m && g * t <= a * m
    ensures (f + g) * t <= (u + a) * m
  {
    assert (f + g) * t == f * t + g * t;
    assert (u + a) * m == u * m + a * m;
  }

  lemma AddLower(f: int, g: int, n: int, u: int, a: int, x: int, y: int, z: int)
    requires (f + 1) * x > u * y - z
    requires (g + n) * x >= a * y - n * z + n
    ensures (f + g + (n + 1)) * x >= (u + a) * y - (n + 1) * z + (n + 1)
  {
    assert (f + g + (n + 1)) * x == (f + 1) * x + (g + n) * x;
    assert (u + a) * y == u * y + a * y;
    assert (n + 1) * z == n * z + z;
  }

  /** Rounding the shares down loses at most one unit per batch, provided the difference
      is not astronomically large. */
  lemma SharesNearTotal(us: seq<nat>, m: nat)
    requires us != [] && m > 0 && SumAmounts(us) > 0
    requires |us| * m <= E
    ensures SumShares(us, SumAmounts(us), m) <= m <= SumShares(us, SumAmounts(us), m) + |us|
  {
    var t, n := SumAmounts(us), |us|;
    var f := SumShares(us, t, m);
    SumSharesBounds(us, t, m);
    MulCancelLe(f, m, t);
    NearTotal(E, f, n, t, m);
  }

  lemma NearTotal(e: int, f: int, n: int, t: int, m: int)
    requires t > 0 && e > 0 && n > 0 && n * m <= e
    requires (f + n) * (e * t) >= t * (m * e) - n * (t * m) + n
    ensures m <= f + n
  {
    Shuffle(f + n, e, t);
    Shuffle(t, m, e);
    Shuffle(n, t, m);
    assert (m * e - n * m) * t == m * e * t - n * m * t;
    MulCancelLt(m * e - n * m, (f + n) * e, t);
    assert (m - 1) * e == m * e - e;
    MulCancelLt(m - 1, f + n, e);
  }

  function ActualAmounts(us: seq<nat>, t: nat, slashed: SignedInt): Result<seq<nat>, Error> {
    if us == [] then Ok([])
    else
      var first :- ActualAmount(us[0], t, slashed);
      var rest :- ActualAmounts(us[1..], t, slashed);
      Ok([first] + rest)
  }

  /** for how many batches the magnitude of a negative difference is taken */
  function Negatives(us: seq<nat>, t: nat, arrived: nat): nat
    requires t > 0
  {
    if us == [] then 0 else (if IsNegative(us[0], t, arrived) then 1 else 0) + Negatives(us[1..], t, arrived)
  }

  lemma {:induction false} PartsWithinSum(us: seq<nat>)
    ensures forall i | 0 <= i < |us| :: us[i] <= SumAmounts(us)
  {
    if us != [] {
      PartsWithinSum(us[1..]);
      assert forall i | 1 <= i < |us| :: us[i] == us[1..][i - 1];
    }
  }

  /** the exact sum of the parts, given the sum of the rounded shares */
  lemma {:induction false} SumActualExact(us: seq<nat>, t: nat, arrived: nat)
    requires t > 0 && forall i | 0 <= i < |us| :: us[i] <= t
    requires ActualAmounts(us, t, FromSubtraction(t, arrived)).Ok?
    ensures var s := FromSubtraction(t, arrived);
            var actual := ActualAmounts(us, t, s).value;
            && |actual| == |us|
            && SumAmounts(actual) ==
               if s.negative then SumAmounts(us) + SumShares(us, t, s.magnitude) - |us|
               else if s.magnitude > 0 then
                 SumAmounts(us) - SumShares(us, t, s.magnitude) - |us| + 2 * Negatives(us, t, arrived)
               else SumAmounts(us)
  {
    hide IsNegative, Share, ActualAmount;
    if us != [] {
      var s := FromSubtraction(t, arrived);
      assert forall i | 0 <= i < |us[1..]| :: us[1..][i] == us[i + 1];
      ActualAmountIs(us[0], t, arrived);
      SumActualExact(us[1..], t, arrived);
      var first, rest := ActualAmount(us[0], t, s).value, ActualAmounts(us[1..], t, s).value;
      assert ([first] + rest)[1..] == rest;
    }
  }

  /** A release is covered by what arrived: nothing was slashed, or the rounding of the shares
      takes at least what was slashed, and the negative differences are made good. */
  predicate Fits(us: seq<nat>, arrived: nat) {
    var t := SumAmounts(us);
    t > arrived ==> t - arrived + 2 * Negatives(us, t, arrived) <= SumShares(us, t, t - arrived) + |us|
  }

  lemma SucceedsPositive(us: seq<nat>, t: nat, s: SignedInt)
    requires us != [] && ActualAmounts(us, t, s).Ok?
    ensures t > 0
  {
  }

  /** The allocation bound is exact: a release that succeeds hands the batches no more than
      what arrived exactly when it fits. */
  lemma AllocationFitsIff(us: seq<nat>, arrived: nat)
    requires us != [] && ActualAmounts(us, SumAmounts(us), FromSubtraction(SumAmounts(us), arrived)).Ok?
    ensures SumAmounts(ActualAmounts(us, SumAmounts(us), FromSubtraction(SumAmounts(us), arrived)).value) <= arrived
            <==> Fits(us, arrived)
  {
    hide ActualAmounts, Negatives, SumAmounts, SumShares, Share;
    var t := SumAmounts(us);
    SucceedsPositive(us, t, FromSubtraction(t, arrived));
    PartsWithinSum(us);
    SumActualExact(us, t, arrived);
    if t < arrived {
      SumSharesBounds(us, t, arrived - t);
      MulCancelLe(SumShares(us, t, arrived - t), arrived - t, t);
    }
  }

  lemma {:induction false} NoNegatives(us: seq<nat>, t: nat, arrived: nat)
    requires t > 0 && arrived > 0 && forall i | 0 <= i < |us| :: us[i] > 0
    ensures Negatives(us, t, arrived) == 0
  {
    if us != [] {
      assert forall i | 0 <= i < |us[1..]| :: us[1..][i] == us[i + 1];
      NoNegatives(us[1..], t, arrived);
    }
  }

  /** Releases of positive batches with an arrival fit, unless the difference is
      astronomically large. */
  lemma ModestFits(us: seq<nat>, arrived: nat)
    requires us != [] && arrived > 0
    requires forall i | 0 <= i < |us| :: us[i] > 0
    requires |us| * FromSubtraction(SumAmounts(us), arrived).magnitude <= E
    ensures Fits(us, arrived)
  {
    var t := SumAmounts(us);
    PartsWithinSum(us);
    if t > arrived {
      NoNegatives(us, t, arrived);
      SharesNearTotal(us, t - arrived);
    }
  }

  /** The allocation bound: what the released batches are worth together is at most what
      arrived, and falls short of it by at most two units per batch. */
  lemma AllocationBound(us: seq<nat>, arrived: nat)
    requires us != [] && arrived > 0
    requires forall i | 0 <= i < |us| :: us[i] > 0
    requires |us| * FromSubtraction(SumAmounts(us), arrived).magnitude <= E
    requires ActualAmounts(us, SumAmounts(us), FromSubtraction(SumAmounts(us), arrived)).Ok?
    ensures forall i | 0 <= i < |us| :: !Underflows(us[i], SumAmounts(us), FromSubtraction(SumAmounts(us), arrived))
    ensures var actual := ActualAmounts(us, SumAmounts(us), FromSubtraction(SumAmounts(us), arrived)).value;
            |actual| == |us| && arrived - 2 * |us| <= SumAmounts(actual) <= arrived
  {
    var t := SumAmounts(us);
    var s := FromSubtraction(t, arrived);
    PartsWithinSum(us);
    forall i | 0 <= i < |us| ensures !Underflows(us[i], t, s) {
      UnderflowIff(us[i], t, arrived);
    }
    NoNegatives(us, t, arrived);
    SumActualExact(us, t, arrived);
    if s.magnitude > 0 {
      SharesNearTotal(us, s.magnitude);
    }
  }

  /** whether a batch's share of the surplus is worth at least one unit */
  predicate CarriesUnit(u: nat, t: nat, surplus: nat)
    requires t > 0
  {
    surplus * Ratio(u, t) >= E
  }

  /** A surplus is spread exactly when every batch's rounded share is at least one unit;
      otherwise the subtraction of the rounding unit fails the whole release. */
  lemma {:induction false} SurplusSucceedsIff(us: seq<nat>, t: nat, s: SignedInt)
    requires t > 0
    ensures ActualAmounts(us, t, s).Ok? <==>
            !s.negative || forall i | 0 <= i < |us| :: CarriesUnit(us[i], t, s.magnitude)
  {
    if us != [] {
      var rest := us[1..];
      SurplusSucceedsIff(rest, t, s);
      DivAtLeast(s.magnitude * Ratio(us[0], t), E, 1);
      assert forall i | 1 <= i < |us| :: us[i] == rest[i - 1];
      assert forall i | 0 <= i < |rest| :: rest[i] == us[i + 1];
    }
  }

  // ----- the side conditions are needed -----

  /** When nothing arrived, one finished batch is still worth a unit nobody brought. */
  lemma NothingArrivedOverpays(u: nat)
    requires u > 0
    ensures ActualAmounts([u], u, FromSubtraction(u, 0)) == Ok([1])
  {
    DivUnique(u * E, u, E);
    DivUnique(u * E, E, u);
    var s := FromSubtraction(u, 0);
    assert ActualAmount(u, u, s) == Ok(1);
    assert [u][1..] == [];
    var none: seq<nat> := [];
    assert [1] + none == [1];
  }

  /** A surplus of one unit over two equal batches stops every withdrawal. */
  lemma SmallSurplusBlocks()
    ensures ActualAmounts([50, 50], 100, FromSubtraction(100, 101)) == Err(SurplusTooSmall)
  {
    assert Ratio(50, 100) == E / 2;
  }

  /** Beyond the size condition the parts can exceed what arrived. */
  lemma HugeSlashOverpays()
    ensures var k := 10 * E;
            var us := [k, 2 * k];
            var arrived := 1;
            var r := ActualAmounts(us, 3 * k, FromSubtraction(3 * k, arrived));
            r.Ok? && SumAmounts(r.value) > arrived
  {
    var k := 10 * E;
    var m := 3 * k - 1;
    assert Ratio(k, 3 * k) == 333_333_333_333_333_333;
    assert Ratio(2 * k, 3 * k) == 666_666_666_666_666_666;
    assert Share(k, 3 * k, m) == k - 11;
    assert Share(2 * k, 3 * k, m) == 2 * k - 21;
    var us := [k, 2 * k];
    var s := FromSubtraction(3 * k, 1);
    assert us[1..] == [2 * k];
    assert ActualAmount(k, 3 * k, s) == Ok(10);
    assert ActualAmount(2 * k, 3 * k, s) == Ok(20);
    assert [2 * k][1..] == [];
    var none: seq<nat> := [];
    assert [20] + none == [20] && [10] + [20] == [10, 20];
    assert ActualAmounts([2 * k], 3 * k, s) == Ok([20]);
    assert ActualAmounts(us, 3 * k, s) == Ok([10, 20]);
    assert [10, 20][1..] == [20] && [20][1..] == [];
  }
}
