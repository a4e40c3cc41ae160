/** Finite sums over sets, and the ascending order in which storage ranges are read. */
module Sums {

  // ----- sums over a finite set of keys -----

  ghost function Sum<K>(s: set<K>, f: K -> int): int
    decreases s
  {
    if s == {} then 0 else
      var k :| k in s;
      f(k) + Sum(s - {k}, f)
  }

  /** any element may be taken out first */
  lemma {:induction false} SumPick<K>(s: set<K>, k: K, f: K -> int)
    requires k in s
    ensures Sum(s, f) == f(k) + Sum(s - {k}, f)
    decreases s
  {
    var p :| p in s && Sum(s, f) == f(p) + Sum(s - {p}, f);
    if p != k {
      SumPick(s - {p}, k, f);
      SumPick(s - {k}, p, f);
      assert s - {p} - {k} == s - {k} - {p};
    }
  }

  lemma {:induction false} SumCongruent<K>(s: set<K>, f: K -> int, g: K -> int)
    requires forall k | k in s :: f(k) == g(k)
    ensures Sum(s, f) == Sum(s, g)
    decreases s
  {
    if s != {} {
      var k :| k in s;
      SumPick(s, k, f);
      SumPick(s, k, g);
      SumCongruent(s - {k}, f, g);
    }
  }

  lemma {:induction false} SumMono<K>(s: set<K>, f: K -> int, g: K -> int)
    requires forall k | k in s :: f(k) <= g(k)
    ensures Sum(s, f) <= Sum(s, g)
    decreases s
  {
    if s != {} {
      var k :| k in s;
      SumPick(s, k, f);
      SumPick(s, k, g);
      SumMono(s - {k}, f, g);
    }
  }

  lemma {:induction false} SumZero<K>(s: set<K>, f: K -> int)
    requires forall k | k in s :: f(k) == 0
    ensures Sum(s, f) == 0
    decreases s
  {
    if s != {} {
      var k :| k in s;
      SumPick(s, k, f);
      SumZero(s - {k}, f);
    }
  }

  lemma {:induction false} SumNonneg<K>(s: set<K>, f: K -> int)
    requires forall k | k in s :: f(k) >= 0
    ensures Sum(s, f) >= 0
    decreases s
  {
    if s != {} {
      var k :| k in s;
      SumPick(s, k, f);
      SumNonneg(s - {k}, f);
    }
  }

  /** one summand is at most the whole sum of nonnegative ones */
  lemma SumAtLeastOne<K>(s: set<K>, k: K, f: K -> int)
    requires k in s && forall x | x in s :: f(x) >= 0
    ensures f(k) <= Sum(s, f)
  {
    SumPick(s, k, f);
    SumNonneg(s - {k}, f);
  }

  lemma {:induction false} SumPlus<K>(s: set<K>, f: K -> int, g: K -> int, h: K -> int)
    requires forall k | k in s :: h(k) == f(k) + g(k)
    ensures Sum(s, h) == Sum(s, f) + Sum(s, g)
    decreases s
  {
    if s != {} {
      var k :| k in s;
      SumPick(s, k, f);
      SumPick(s, k, g);
      SumPick(s, k, h);
      SumPlus(s - {k}, f, g, h);
    }
  }

  lemma {:induction false} SumScale<K>(s: set<K>, f: K -> int, c: int, h: K -> int)
    requires forall k | k in s :: h(k) == c * f(k)
    ensures Sum(s, h) == c * Sum(s, f)
    decreases s
  {
    if s != {} {
      var k :| k in s;
      SumPick(s, k, f);
      SumPick(s, k, h);
      SumScale(s - {k}, f, c, h);
      assert c * (f(k) + Sum(s - {k}, f)) == c * f(k) + c * Sum(s - {k}, f);
    }
  }

  /** keys that contribute nothing may be added */
  lemma {:induction false} SumExtend<K>(s: set<K>, t: set<K>, f: K -> int)
    requires s <= t && forall k | k in t - s :: f(k) == 0
    ensures Sum(t, f) == Sum(s, f)
    decreases t - s
  {
    if t - s == {} {
      assert forall k | k in t :: k in s || k in t - s;
      assert s == t;
    } else {
      var k :| k in t - s;
      SumPick(t, k, f);
      SumExtend(s, t - {k}, f);
    }
  }

  /** a sum over a set is the sum over a part of it and over the rest */
  lemma {:induction false} SumSplit<K>(s: set<K>, t: set<K>, f: K -> int)
    requires t <= s
    ensures Sum(s, f) == Sum(t, f) + Sum(s - t, f)
    decreases t
  {
    if t == {} {
      assert s - t == s;
    } else {
      var k :| k in t;
      SumPick(s, k, f);
      SumPick(t, k, f);
      SumSplit(s - {k}, t - {k}, f);
      assert s - {k} - (t - {k}) == s - t;
    }
  }

  /** two families of summands that differ at one key only, each zero off its key set */
  lemma SumUpdate<K>(s: set<K>, t: set<K>, k: K, f: K -> int, g: K -> int)
    requires t <= s + {k} && s <= t + {k}
    requires forall x | x in s + t && x != k :: f(x) == g(x)
    requires k !in s ==> f(k) == 0
    requires k !in t ==> g(k) == 0
    ensures Sum(t, g) == Sum(s, f) - f(k) + g(k)
  {
    var u := s + {k};
    SumExtend(s, u, f);
    SumExtend(t, u, g);
    SumPick(u, k, f);
    SumPick(u, k, g);
    SumCongruent(u - {k}, f, g);
  }

  /** summands mapped one to one to larger ones */
  lemma {:induction false} SumInjected<K, L>(s: set<K>, t: set<L>, p: K -> L, f: K -> int, g: L -> int)
    requires forall k | k in s :: p(k) in t && f(k) <= g(p(k))
    requires forall k, l | k in s && l in s && k != l :: p(k) != p(l)
    requires forall l | l in t :: g(l) >= 0
    ensures Sum(s, f) <= Sum(t, g)
    decreases s
  {
    if s == {} {
      SumNonneg(t, g);
    } else {
      var k :| k in s;
      SumPick(s, k, f);
      SumPick(t, p(k), g);
      SumInjected(s - {k}, t - {p(k)}, p, f, g);
    }
  }

  // ----- sums over sequences -----

  function SumSeq(q: seq<nat>): nat {
    if q == [] then 0 else q[0] + SumSeq(q[1..])
  }

  lemma {:induction false} SumSeqSnoc(q: seq<nat>, x: nat)
    ensures SumSeq(q + [x]) == SumSeq(q) + x
  {
    if q == [] {
      assert q + [x] == [x];
    } else {
      assert (q + [x])[1..] == q[1..] + [x];
      SumSeqSnoc(q[1..], x);
    }
  }

  // ----- ascending ranges -----

  lemma {:induction false} LeastOf(s: set<nat>) returns (m: nat)
    requires s != {}
    ensures m in s && forall x | x in s :: m <= x
    decreases s
  {
    m :| m in s;
    var rest := s - {m};
    if rest == {} {
      assert s == {m};
    } else {
      var other := LeastOf(rest);
      assert forall x | x in s :: x == m || x in rest;
      m := if m <= other then m else other;
    }
  }

  lemma LeastExists(s: set<nat>)
    requires s != {}
    ensures exists m :: m in s && forall x | x in s :: m <= x
  {
    var m := LeastOf(s);
  }

  function Least(s: set<nat>): (m: nat)
    requires s != {}
    ensures m in s && forall x | x in s :: m <= x
  {
    LeastExists(s);
    var m :| m in s && forall x | x in s :: m <= x;
    m
  }

  ghost predicate StrictlyAscending(q: seq<nat>) {
    forall i, j | 0 <= i < j < |q| :: q[i] < q[j]
  }

  ghost predicate Distinct(q: seq<nat>) {
    forall i, j | 0 <= i < j < |q| :: q[i] != q[j]
  }

  lemma AscendingDistinct(q: seq<nat>)
    requires StrictlyAscending(q)
    ensures Distinct(q)
  {
  }

  /** the keys of a storage range in `Order::Ascending` */
  function Ascending(s: set<nat>): (q: seq<nat>)
    ensures forall x :: x in q <==> x in s
    ensures StrictlyAscending(q)
    ensures |q| == |s|
    decreases s
  {
    if s == {} then [] else
      var m := Least(s);
      [m] + Ascending(s - {m})
  }

  /** the first element of an ascending enumeration is the least */
  lemma FirstIsLeast(q: seq<nat>, s: set<nat>)
    requires q != [] && StrictlyAscending(q) && forall x :: x in q <==> x in s
    ensures s != {} && q[0] == Least(s)
  {
    assert q[0] in q;
    var m := Least(s);
    assert m in q;
  }

  /** without its first element it enumerates the rest */
  lemma TailAscends(q: seq<nat>, s: set<nat>)
    requires q != [] && StrictlyAscending(q) && forall x :: x in q <==> x in s
    ensures StrictlyAscending(q[1..])
    ensures forall x :: x in q[1..] <==> x in s - {q[0]}
  {
    var rest := q[1..];
    forall x ensures x in rest <==> x in s - {q[0]} {
      if x in rest {
        var i :| 0 <= i < |rest| && rest[i] == x;
        assert x == q[i + 1] && q[0] < x && x in q;
      }
      if x in s - {q[0]} {
        assert x in q && x != q[0];
      }
    }
  }

  lemma AscendingHead(s: set<nat>)
    requires s != {}
    ensures Ascending(s) == [Least(s)] + Ascending(s - {Least(s)})
  {
  }

  /** a set has one ascending enumeration */
  lemma {:induction false} AscendingUnique(q: seq<nat>, s: set<nat>)
    requires StrictlyAscending(q) && forall x :: x in q <==> x in s
    ensures q == Ascending(s)
    decreases |q|
  {
    if q == [] {
      assert s == {} by {
        assert forall x | x in s :: x in q;
      }
    } else {
      FirstIsLeast(q, s);
      TailAscends(q, s);
      AscendingHead(s);
      hide *;
      AscendingUnique(q[1..], s - {q[0]});
    }
  }

  /** the keys strictly above a bound */
  function Above(s: set<nat>, bound: nat): set<nat> {
    set x | x in s && bound < x
  }

  /** a page of the enumeration, then the enumeration of what lies above its last key */
  lemma AscendingPages(s: set<nat>, limit: nat)
    requires s != {} && limit >= 1
    ensures var page := Take(Ascending(s), limit);
            page != [] && Ascending(s) == page + Ascending(Above(s, page[|page| - 1]))
  {
    hide *;
    var q := Ascending(s);
    var page := Take(q, limit);
    assert page == q[..|page|];
    RestAbove(q, |page|, s);
    AscendingUnique(q[|page|..], Above(s, page[|page| - 1]));
  }

  lemma RestAbove(q: seq<nat>, n: nat, s: set<nat>)
    requires StrictlyAscending(q) && (forall x :: x in q <==> x in s)
    requires 1 <= n <= |q|
    ensures StrictlyAscending(q[n..])
    ensures forall x :: x in q[n..] <==> x in Above(s, q[n - 1])
  {
    var rest, last := q[n..], q[n - 1];
    forall x ensures x in rest <==> x in Above(s, last) {
      if x in rest {
        var i :| 0 <= i < |rest| && rest[i] == x;
        assert q[n + i] == x && x in q;
      }
      if x in Above(s, last) {
        assert x in q;
        var i :| 0 <= i < |q| && q[i] == x;
        assert rest[i - n] == x;
      }
    }
  }

  /** `.range(..).take(limit)` */
  function Take(q: seq<nat>, limit: nat): (r: seq<nat>)
    ensures r <= q && |r| <= limit
    ensures |r| == limit || r == q
  {
    if |q| <= limit then q else q[..limit]
  }

  /** the keys strictly below a bound */
  function Below(s: set<nat>, bound: nat): set<nat> {
    set x | x in s && x < bound
  }

  /** the first `limit` keys are those with fewer than `limit` keys below them */
  lemma TakenByRank(s: set<nat>, limit: nat, t: nat)
    ensures t in Take(Ascending(s), limit) <==> t in s && |Below(s, t)| < limit
  {
    var q, page := Ascending(s), Take(Ascending(s), limit);
    hide Ascending;
    if t in s {
      assert t in q;
      var i :| 0 <= i < |q| && q[i] == t;
      RankOf(q, s, i);
      assert forall j | 0 <= j < |page| :: page[j] == q[j];
      assert i < |page| ==> page[i] == t;
    }
  }

  lemma RankOf(q: seq<nat>, s: set<nat>, i: nat)
    requires StrictlyAscending(q) && (forall x :: x in q <==> x in s) && i < |q|
    ensures |Below(s, q[i])| == i
  {
    var before := q[..i];
    assert Elements(before) == Below(s, q[i]) by {
      forall x ensures x in before <==> x in Below(s, q[i]) {
        if x in Below(s, q[i]) {
          assert x in q;
          var j :| 0 <= j < |q| && q[j] == x;
          assert before[j] == x;
        }
        if x in before {
          var j :| 0 <= j < |before| && before[j] == x;
          assert q[j] == x && x in q;
        }
      }
    }
    SizeOfDistinct(before);
  }

  // ----- entries that are due -----

  /** a loop over ascending times stops at the first one still in the future */
  function Due(times: seq<nat>, now: nat): seq<nat> {
    if times == [] || now < times[0] then [] else [times[0]] + Due(times[1..], now)
  }

  lemma {:induction false} DuePrefix(times: seq<nat>, now: nat)
    ensures Due(times, now) <= times
    ensures forall t | t in Due(times, now) :: t <= now
    ensures StrictlyAscending(times) ==> forall t | t in times && t <= now :: t in Due(times, now)
  {
    if times != [] && now >= times[0] {
      DuePrefix(times[1..], now);
      assert StrictlyAscending(times) ==> StrictlyAscending(times[1..]);
    } else if times != [] {
      assert StrictlyAscending(times) ==> forall t | t in times :: times[0] <= t;
    }
  }

  /** one round of such a loop */
  lemma DueNext(times: seq<nat>, i: nat, now: nat)
    requires i < |times| && times[i] <= now
    ensures Due(times[i..], now) == [times[i]] + Due(times[i + 1..], now)
  {
    assert times[i..][1..] == times[i + 1..];
  }

  lemma DueStops(times: seq<nat>, i: nat, now: nat)
    requires i <= |times| && (i < |times| ==> now < times[i])
    ensures Due(times[i..], now) == []
  {
  }

  /** the due part of an ascending range has no repetitions and nothing of the future */
  lemma DueOfRange(times: seq<nat>, now: nat)
    requires StrictlyAscending(times)
    ensures Distinct(Due(times, now)) && forall t | t in Due(times, now) :: t <= now
  {
    DuePrefix(times, now);
    var due := Due(times, now);
    assert forall i | 0 <= i < |due| :: due[i] == times[i];
  }

  // ----- sizes -----

  lemma {:induction false} SubsetSize(a: set<nat>, b: set<nat>)
    requires a <= b
    ensures |a| <= |b|
    decreases a
  {
    if a != {} {
      var x :| x in a;
      SubsetSize(a - {x}, b - {x});
    }
  }

  function Elements(q: seq<nat>): set<nat> {
    set x | x in q
  }

  lemma ElementsHead(q: seq<nat>)
    requires q != []
    ensures Elements(q) == Elements(q[1..]) + {q[0]}
  {
    assert q == [q[0]] + q[1..];
  }

  lemma {:induction false} SizeOfDistinct(q: seq<nat>)
    requires Distinct(q)
    ensures |Elements(q)| == |q|
    decreases |q|
  {
    if q != [] {
      var rest := q[1..];
      assert forall i | 0 <= i < |rest| :: rest[i] == q[i + 1];
      SizeOfDistinct(rest);
      ElementsHead(q);
      assert q[0] !in Elements(rest);
    }
  }

  lemma {:induction false} SizeAtMost(q: seq<nat>)
    ensures |Elements(q)| <= |q|
    decreases |q|
  {
    if q != [] {
      SizeAtMost(q[1..]);
      ElementsHead(q);
    }
  }

  /** a shorter sequence without repetitions misses something */
  lemma SomethingLeft(all: seq<nat>, part: seq<nat>)
    requires Distinct(all) && |part| < |all|
    ensures exists x :: x in all && x !in part
  {
    SizeOfDistinct(all);
    SizeAtMost(part);
    if Elements(all) <= Elements(part) {
      SubsetSize(Elements(all), Elements(part));
    }
    var x :| x in Elements(all) && x !in Elements(part);
  }
}
