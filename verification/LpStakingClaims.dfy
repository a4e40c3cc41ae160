/** What a claim of LP staking rewards pays: everything the caller has earned in the pools asked
    for, which without a choice are all the caller has a record in. */
module LpStakingClaims {
  import opened Addresses
  import opened Results
  import opened FixedPoint
  import opened Sums
  import opened LpStakingModel
  import opened LpStakingOrders

  /** what a staker has earned in a pool by `now` and not been paid */
  function Earned(s: Storage, now: nat, staker: Addr): Addr -> int {
    (token: Addr) =>
      if (staker, token) in s.rewards && token in s.pools && ComputePoolReward(s.cfg, s.pools[token], now).Ok? then
        var info, pool := s.rewards[(staker, token)], ComputePoolReward(s.cfg, s.pools[token], now).value;
        info.pendingReward + info.bond * pool.rewardIndex / E - info.bond * info.rewardIndex / E
      else 0
  }

  /** the staker has nothing pending in the pool */
  predicate PaidOut(rewards: Rewards, staker: Addr, token: Addr) {
    (staker, token) in rewards ==> rewards[(staker, token)].pendingReward == 0
  }

  /** all other pools and records stay as they are */
  ghost predicate OthersKept(s: Storage, s': Storage, staker: Addr, tokens: set<Addr>) {
    && s'.cfg == s.cfg && s'.pools.Keys == s.pools.Keys
    && (forall t | t in s.pools && t !in tokens :: s'.pools[t] == s.pools[t])
    && (forall k: RewardKey | !(k.0 == staker && k.1 in tokens) ::
          (k in s'.rewards <==> k in s.rewards) && (k in s.rewards ==> s'.rewards[k] == s.rewards[k]))
  }

  lemma ClaimOnePays(s: Storage, now: nat, sender: Addr, token: Addr)
    requires ClaimOne(s, now, sender, token).Ok?
    ensures var o := ClaimOne(s, now, sender, token).value;
            && o.sent == Earned(s, now, sender)(token)
            && PaidOut(o.store.rewards, sender, token)
            && OthersKept(s, o.store, sender, {token})
  {
    hide ComputePoolReward, PullExpired, UpdateOrRemove, OthersKept, PaidOut, OrderSum, SameElsewhere;
    var info := s.rewards[(sender, token)];
    PullMoves(s.orders, sender, token, info, now, s.pools[token].unbondPeriod);
    var pulled := PullExpired(s.orders, sender, token, info, now, s.pools[token].unbondPeriod);
    var pool := ComputePoolReward(s.cfg, s.pools[token], now).value;
    var credited := ComputeStakerReward(pool, pulled.info).value;
    SavedPays(s, s.(orders := pulled.orders, pools := s.pools[token := pool]), sender, token,
              credited.(pendingReward := 0), pulled.ordersPending);
  }

  lemma SavedPays(s: Storage, s1: Storage, sender: Addr, token: Addr, info: RewardInfo, ordersPending: bool)
    requires token in s.pools && token in s1.pools && s1.pools == s.pools[token := s1.pools[token]]
    requires s1.cfg == s.cfg && s1.rewards == s.rewards && info.pendingReward == 0
    ensures var s' := UpdateOrRemove(s1, sender, token, info, ordersPending);
            PaidOut(s'.rewards, sender, token) && OthersKept(s, s', sender, {token})
  {
  }

  lemma EarnedElsewhere(s: Storage, s': Storage, now: nat, staker: Addr, token: Addr, other: Addr)
    requires OthersKept(s, s', staker, {token}) && other != token
    ensures Earned(s', now, staker)(other) == Earned(s, now, staker)(other)
  {
    hide ComputePoolReward;
    assert other in s.pools <==> other in s'.pools;
    var key: RewardKey := (staker, other);
    assert key in s'.rewards <==> key in s.rewards;
  }

  lemma KeptTwice(a: Storage, b: Storage, c: Storage, staker: Addr, token: Addr, rest: set<Addr>)
    requires OthersKept(a, b, staker, {token}) && OthersKept(b, c, staker, rest)
    ensures OthersKept(a, c, staker, rest + {token})
    ensures token !in rest && PaidOut(b.rewards, staker, token) ==> PaidOut(c.rewards, staker, token)
  {
    assert token !in rest ==> !((staker, token).0 == staker && (staker, token).1 in rest);
  }

  lemma {:induction false} ClaimEachPays(s: Storage, now: nat, sender: Addr, tokens: seq<Addr>)
    requires Distinct(tokens) && ClaimEach(s, now, sender, tokens).Ok?
    ensures var o := ClaimEach(s, now, sender, tokens).value;
            && o.sent == Sum(Elements(tokens), Earned(s, now, sender))
            && (forall t | t in tokens :: PaidOut(o.store.rewards, sender, t))
            && OthersKept(s, o.store, sender, Elements(tokens))
    decreases |tokens|
  {
    hide ClaimOne, OthersKept, PaidOut, Earned, Distinct;
    if tokens == [] {
      NothingKept(s, sender);
    } else {
      var token, rest := tokens[0], tokens[1..];
      TailDistinct(tokens);
      ElementsHead(tokens);
      var first := ClaimOne(s, now, sender, token).value;
      ClaimOnePays(s, now, sender, token);
      ClaimEachPays(first.store, now, sender, rest);
      forall t | t in Elements(rest) ensures Earned(first.store, now, sender)(t) == Earned(s, now, sender)(t) {
        EarnedElsewhere(s, first.store, now, sender, token, t);
      }
      SumCongruent(Elements(rest), Earned(first.store, now, sender), Earned(s, now, sender));
      SumPick(Elements(tokens), token, Earned(s, now, sender));
      assert Elements(tokens) - {token} == Elements(rest);
      KeptTwice(s, first.store, ClaimEach(first.store, now, sender, rest).value.store, sender, token, Elements(rest));
      assert forall t | t in tokens :: t == token || t in rest;
    }
  }

  lemma NothingKept(s: Storage, staker: Addr)
    ensures OthersKept(s, s, staker, {})
  {
  }

  lemma TailDistinct(tokens: seq<nat>)
    requires Distinct(tokens) && tokens != []
    ensures Distinct(tokens[1..]) && tokens[0] !in Elements(tokens[1..])
  {
    var rest := tokens[1..];
    assert forall i | 0 <= i < |rest| :: rest[i] == tokens[i + 1];
  }

  /** the pools a staker has a record in */
  function PoolsOf(rewards: Rewards, staker: Addr): set<Addr> {
    set k | k in rewards.Keys && k.0 == staker :: k.1
  }

  /** A claim that succeeds pays exactly what the caller has earned in the pool named, or else in
      every pool the caller has a record in; nothing stays pending there, and no other pool or
      record changes. */
  lemma ClaimPaysAll(s: Storage, now: nat, sender: Addr, only: Option<Addr>)
    requires ClaimRewards(s, now, sender, only).Ok?
    ensures var o := ClaimRewards(s, now, sender, only).value;
            var tokens := if only.Some? then {only.value} else PoolsOf(s.rewards, sender);
            && o.sent == Sum(tokens, Earned(s, now, sender))
            && (forall t | t in tokens :: PaidOut(o.store.rewards, sender, t))
            && OthersKept(s, o.store, sender, tokens)
  {
    var tokens := if only.Some? then [only.value] else StakedTokens(s.rewards, sender);
    AscendingDistinct(tokens);
    assert Elements(tokens) == if only.Some? then {only.value} else PoolsOf(s.rewards, sender);
    hide StakedTokens, ClaimEach, Earned, OthersKept, PaidOut, StrictlyAscending, Distinct;
    ClaimEachPays(s, now, sender, tokens);
  }
}
