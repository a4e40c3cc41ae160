/** Vesting of withdrawn rewards, and bulk withdrawals. */
module LaunchPoolVesting {
  import opened Addresses
  import opened Results
  import opened FixedPoint
  import opened Sums
  import opened RewardIndex
  import opened LaunchPoolModel
  import opened LaunchPoolAccounts

  type Key = (Addr, nat)

  ghost function VestPart(vests: Vests, a: Addr): Key -> int {
    (k: Key) => if k.0 == a then VestAt(vests, k) else 0
  }

  /** everything an account still has vesting */
  ghost function VestSum(vests: Vests, a: Addr): int {
    Sum(vests.Keys, VestPart(vests, a))
  }

  /** everything credited to an account and not yet claimed */
  ghost function Holdings(s: Storage, a: Addr): int {
    PendingReward(s, a) + VestSum(s.vests, a) + PendingOf(s, a)
  }

  // ----- moving entries that are due -----

  lemma {:induction false} VestsOff(vests: Vests, a: Addr, t: nat, times: seq<nat>)
    requires t !in times
    ensures SumVests(vests - {(a, t)}, a, times) == SumVests(vests, a, times)
  {
    if times != [] {
      VestsOff(vests, a, t, times[1..]);
    }
  }

  lemma {:induction false} RemoveVestsSum(vests: Vests, a: Addr, times: seq<nat>, b: Addr)
    requires Distinct(times)
    ensures VestSum(RemoveVests(vests, a, times), b)
            == VestSum(vests, b) - if b == a then SumVests(vests, a, times) else 0
    decreases |times|
  {
    if times != [] {
      var t, rest := times[0], times[1..];
      var without := vests - {(a, t)};
      SumUpdate(vests.Keys, without.Keys, (a, t), VestPart(vests, b), VestPart(without, b));
      VestsOff(vests, a, t, rest);
      RemoveVestsSum(without, a, rest, b);
    }
  }

  lemma {:induction false} RemoveVestsKeys(vests: Vests, a: Addr, times: seq<nat>)
    ensures var after := RemoveVests(vests, a, times);
            && (forall k :: k in after <==> k in vests && !(k.0 == a && k.1 in times))
            && (forall k | k in after :: after[k] == vests[k])
    decreases |times|
  {
    if times != [] {
      RemoveVestsKeys(vests - {(a, times[0])}, a, times[1..]);
    }
  }

  lemma DueDistinct(vests: Vests, account: Addr, now: nat)
    ensures var due := Due(PagedVests(vests, account), now);
            Distinct(due) && forall t | t in due :: t <= now
  {
    hide *;
    PagedAscending(vests, account);
    DueOfRange(PagedVests(vests, account), now);
  }

  lemma PagedAscending(vests: Vests, account: Addr)
    ensures StrictlyAscending(PagedVests(vests, account))
  {
  }

  /** Updating the vests moves value inside the account and touches nobody else's; entries
      of the future stay as they are. */
  lemma UpdateVestMoves(s: Storage, now: nat, account: Addr)
    ensures var s' := UpdateVest(s, now, account);
            && (forall b :: Holdings(s', b) == Holdings(s, b))
            && (forall k: Key | k.1 > now :: VestAt(s'.vests, k) == VestAt(s.vests, k))
            && (forall k: Key :: VestAt(s'.vests, k) <= VestAt(s.vests, k))
            && s' == s.(vests := s'.vests, pendingWithdraw := s'.pendingWithdraw)
            && (forall b | b != account :: PendingOf(s', b) == PendingOf(s, b))
            && PendingOf(s', account) >= PendingOf(s, account)
  {
    var due := Due(PagedVests(s.vests, account), now);
    DueDistinct(s.vests, account, now);
    RemoveVestsKeys(s.vests, account, due);
    hide Due, PagedVests, VestSum;
    forall b ensures Holdings(UpdateVest(s, now, account), b) == Holdings(s, b) {
      RemoveVestsSum(s.vests, account, due, b);
    }
  }

  /** the times at which entries of an account fall due */
  function VestTimes(vests: Vests, account: Addr): set<nat> {
    set k | k in vests.Keys && k.0 == account :: k.1
  }

  /** An entry moves exactly when it is due and fewer than fifty entries of its account fall due
      before it: the fifty oldest at most, and none of the future. */
  lemma UpdateVestDrains(s: Storage, now: nat, account: Addr, t: nat)
    requires (account, t) in s.vests
    ensures (account, t) !in UpdateVest(s, now, account).vests
            <==> t <= now && |Below(VestTimes(s.vests, account), t)| < 50
  {
    var page := PagedVests(s.vests, account);
    var key: Key := (account, t);
    assert key in s.vests.Keys && t in VestTimes(s.vests, account);
    TakenByRank(VestTimes(s.vests, account), 50, t);
    assert t in page <==> |Below(VestTimes(s.vests, account), t)| < 50;
    PagedAscending(s.vests, account);
    DuePrefix(page, now);
    RemoveVestsKeys(s.vests, account, Due(page, now));
    hide PagedVests, Due, StrictlyAscending, Below, VestTimes;
    var due := Due(page, now);
    assert forall i | 0 <= i < |due| :: due[i] == page[i];
  }

  lemma ScheduleAdds(s: Storage, now: nat, account: Addr, amount: nat)
    ensures var s' := ScheduleVest(s, now, account, amount);
            && (forall b :: VestSum(s'.vests, b) == VestSum(s.vests, b) + if b == account then amount else 0)
            && s' == s.(vests := s'.vests)
  {
    var s' := ScheduleVest(s, now, account, amount);
    if amount > 0 {
      var key: Key := (account, VestEnd(s.cfg, now));
      forall b ensures VestSum(s'.vests, b) == VestSum(s.vests, b) + if b == account then amount else 0 {
        SumUpdate(s.vests.Keys, s'.vests.Keys, key, VestPart(s.vests, b), VestPart(s'.vests, b));
      }
    }
  }

  // ----- a single withdrawal -----

  /** A withdrawal always succeeds, settles the account with its weights unchanged, and puts
      the whole pending reward on the vesting schedule. */
  lemma WithdrawSettles(s: Storage, now: nat, a: Addr)
    requires WeightsInv(s)
    ensures WithdrawSingle(s, now, a).Ok?
    ensures var s' := WithdrawSingle(s, now, a).value;
            && SettlesAt(s, s', a, Bonded(s, a), BoostWeight(s, a))
            && PendingReward(s', a) == 0
            && Holdings(s', a) == Holdings(s, a) + Credits(s, a)
            && (forall b | b != a :: Holdings(s', b) == Holdings(s, b))
            && Withdrawn(s, a) == PendingReward(s, a) + Credits(s, a)
            && VestsGrow(s.vests, s'.vests, now, (a, VestEnd(s.cfg, now)), Withdrawn(s, a))
  {
    PullCredits(s, a);
    var info := PullPendingRewards(s, a).value;
    assert Withdrawn(s, a) == info.pendingReward;
    var m := s.(rewards := if Bonded(s, a) == 0 then s.rewards - {a}
                           else s.rewards[a := info.(pendingReward := 0)]);
    RecordSettles(s, m, a, info);
    var s' := ScheduleVest(UpdateVest(m, now, a), now, a, info.pendingReward);
    assert WithdrawSingle(s, now, a) == Ok(s');
    hide *;
    VestingAfter(m, now, a, info.pendingReward);
    SettlesThrough(s, m, s', a);
    SettledHoldings(s, m, s', a, info.pendingReward);
  }

  /** vesting only moves value between the last two parts of the holdings, and adds what is
      scheduled, at the end of its vesting period */
  lemma VestingAfter(m: Storage, now: nat, a: Addr, amount: nat)
    ensures var s' := ScheduleVest(UpdateVest(m, now, a), now, a, amount);
            && s' == m.(vests := s'.vests, pendingWithdraw := s'.pendingWithdraw)
            && (forall b :: Holdings(s', b) == Holdings(m, b) + if b == a then amount else 0)
            && VestsGrow(m.vests, s'.vests, now, (a, VestEnd(m.cfg, now)), amount)
  {
    UpdateVestMoves(m, now, a);
    var u := UpdateVest(m, now, a);
    ScheduleAdds(u, now, a, amount);
    hide UpdateVest, VestSum;
  }

  /** at most `amount` was added, to one entry; entries of the future only grow */
  ghost predicate VestsGrow(vests: Vests, vests': Vests, now: nat, key: Key, amount: nat) {
    forall k: Key ::
      var added := VestAt(vests, k) + if k == key then amount else 0;
      VestAt(vests', k) <= added && (k.1 > now ==> VestAt(vests', k) == added)
  }

  /** what a withdrawal puts on the vesting schedule */
  function Withdrawn(s: Storage, a: Addr): nat {
    var pulled := PullPendingRewards(s, a);
    if pulled.Ok? then pulled.value.pendingReward else 0
  }

  /** rewards become claimable when the vesting period is over, rounded down to a day */
  lemma VestEndIs(cfg: Config, now: nat)
    ensures var t := VestEnd(cfg, now);
            t % 86400 == 0 && t <= now + cfg.vestingPeriod < t + 86400
  {
    var end := now + cfg.vestingPeriod;
    assert end - end % 86400 == end / 86400 * 86400;
  }

  /** A withdrawal puts everything the account was credited on one entry of its own, at the
      start of the day in which the vesting period ends, and changes no other entry that is not
      due yet. */
  lemma WithdrawVests(s: Storage, now: nat, a: Addr) returns (t: nat)
    requires WeightsInv(s)
    ensures WithdrawSingle(s, now, a).Ok?
    ensures t % 86400 == 0 && t <= now + s.cfg.vestingPeriod < t + 86400
    ensures var s', amount := WithdrawSingle(s, now, a).value, PendingReward(s, a) + Credits(s, a);
            && amount >= 0
            && VestAt(s'.vests, (a, t)) >= amount
            && (forall k: Key | k.1 > now ::
                  VestAt(s'.vests, k) == VestAt(s.vests, k) + if k == (a, t) then amount else 0)
            && (forall k: Key | k != (a, t) :: VestAt(s'.vests, k) <= VestAt(s.vests, k))
  {
    hide VestEnd, Holdings, Credits, SettlesAt, PendingReward;
    t := VestEnd(s.cfg, now);
    VestEndIs(s.cfg, now);
    WithdrawSettles(s, now, a);
    WithdrawnLands(s, now, a);
  }

  lemma WithdrawnLands(s: Storage, now: nat, a: Addr)
    requires WithdrawSingle(s, now, a).Ok?
    ensures VestAt(WithdrawSingle(s, now, a).value.vests, (a, VestEnd(s.cfg, now))) >= Withdrawn(s, a)
  {
    hide PullPendingRewards, Due, PagedVests, SumVests, RemoveVests, VestEnd;
  }

  lemma SettlesThrough(s: Storage, m: Storage, s': Storage, a: Addr)
    requires SettlesAt(s, m, a, Bonded(s, a), BoostWeight(s, a))
    requires s' == m.(vests := s'.vests, pendingWithdraw := s'.pendingWithdraw)
    ensures SettlesAt(s, s', a, Bonded(s, a), BoostWeight(s, a))
    ensures forall b :: PendingReward(s', b) == PendingReward(m, b)
  {
  }

  lemma SettledHoldings(s: Storage, m: Storage, s': Storage, a: Addr, amount: nat)
    requires m == s.(rewards := m.rewards)
    requires PendingReward(m, a) == 0 && amount == PendingReward(s, a) + Credits(s, a)
    requires forall b | b != a :: PendingReward(m, b) == PendingReward(s, b)
    requires forall b :: Holdings(s', b) == Holdings(m, b) + if b == a then amount else 0
    ensures Holdings(s', a) == Holdings(s, a) + Credits(s, a)
    ensures forall b | b != a :: Holdings(s', b) == Holdings(s, b)
  {
    hide Credits, VestSum, PendingReward;
    assert forall b :: PendingOf(m, b) == PendingOf(s, b);
    assert forall b | b != a :: Holdings(m, b) == Holdings(s, b);
  }

  lemma RecordSettles(s: Storage, m: Storage, a: Addr, info: RewardInfo)
    requires WeightsInv(s)
    requires PullPendingRewards(s, a) == Ok(info)
    requires m == s.(rewards := if Bonded(s, a) == 0 then s.rewards - {a}
                                else s.rewards[a := info.(pendingReward := 0)])
    ensures SettlesAt(s, m, a, Bonded(s, a), BoostWeight(s, a))
    ensures PendingReward(m, a) == 0
    ensures forall b | b != a :: PendingReward(m, b) == PendingReward(s, b)
  {
    PullCredits(s, a);
    hide PullPendingRewards, Credits, TotalWeight;
  }

  /** A claim pays out exactly what leaves the account's holdings. */
  lemma ClaimPays(s: Storage, now: nat, sender: Addr)
    requires ClaimWithdrawnRewards(s, now, sender).Ok?
    ensures var o := ClaimWithdrawnRewards(s, now, sender).value;
            && o.paid > 0
            && Holdings(o.store, sender) == Holdings(s, sender) - o.paid
            && (forall b | b != sender :: Holdings(o.store, b) == Holdings(s, b))
            && PendingOf(o.store, sender) == 0
            && (forall b | b != sender :: PendingOf(o.store, b) == PendingOf(s, b))
            && o.store == s.(vests := o.store.vests, pendingWithdraw := o.store.pendingWithdraw)
            && (forall k: Key | k.1 > now :: VestAt(o.store.vests, k) == VestAt(s.vests, k))
            && (forall k: Key :: VestAt(o.store.vests, k) <= VestAt(s.vests, k))
  {
    UpdateVestMoves(s, now, sender);
    hide UpdateVest, VestSum;
    var s1 := UpdateVest(s, now, sender);
    assert forall b :: PendingReward(s1, b) == PendingReward(s, b);
  }

  // ----- bulk withdrawals -----

  /** Updating the indexes a second time at the same moment changes nothing. */
  lemma UpdateIdempotent(s: Storage, now: nat)
    requires UpdateRewardIndexes(s, now).Ok?
    ensures UpdateRewardIndexes(UpdateRewardIndexes(s, now).value, now) == UpdateRewardIndexes(s, now)
  {
    var s1 := UpdateRewardIndexes(s, now).value;
    NothingLeft(now, s.base, s.cfg.schedule, s.cfg.basePoolRatio);
    NothingLeft(now, s.boost, s.cfg.schedule, E - s.cfg.basePoolRatio);
    hide UpdateRewardIndex;
  }

  lemma NothingLeft(now: nat, st: DistributionStatus, schedule: Schedule, ratio: nat)
    requires UpdateRewardIndex(now, st, schedule, ratio).Ok?
    ensures var st' := UpdateRewardIndex(now, st, schedule, ratio).value;
            UpdateRewardIndex(now, st', schedule, ratio) == Ok(st')
  {
    hide MulDec, Released;
    var st' := UpdateRewardIndex(now, st, schedule, ratio).value;
    if st.totalWeight > 0 {
      DivUnique(0, st.totalWeight, 0);
      assert Ratio(0, st.totalWeight) == 0;
    }
  }

  lemma WithdrawKeepsPools(s: Storage, now: nat, a: Addr)
    requires WithdrawSingle(s, now, a).Ok?
    ensures var s' := WithdrawSingle(s, now, a).value;
            && s'.base == s.base && s'.boost == s.boost && s'.cfg == s.cfg
            && s'.rewards.Keys <= s.rewards.Keys + {a} && s.rewards.Keys <= s'.rewards.Keys + {a}
  {
  }

  /** the transactions `withdraw_rewards`, one account after the other */
  function WithdrawInTurn(s: Storage, now: nat, accounts: seq<Addr>): Result<Storage, Error>
    decreases |accounts|
  {
    if accounts == [] then Ok(s)
    else
      var s1 :- WithdrawRewards(s, now, accounts[0]);
      WithdrawInTurn(s1, now, accounts[1..])
  }

  lemma SameUpdate(s: Storage, t: Storage, now: nat)
    requires t.base == s.base && t.boost == s.boost && t.cfg == s.cfg
    requires UpdateRewardIndexes(s, now) == Ok(s)
    ensures UpdateRewardIndexes(t, now) == Ok(t)
  {
    hide UpdateRewardIndex;
  }

  lemma {:induction false} EachIsInTurn(s: Storage, now: nat, accounts: seq<Addr>)
    requires UpdateRewardIndexes(s, now) == Ok(s)
    ensures WithdrawEach(s, now, accounts) == WithdrawInTurn(s, now, accounts)
    decreases |accounts|
  {
    hide UpdateRewardIndexes, WithdrawSingle;
    if accounts != [] && WithdrawSingle(s, now, accounts[0]).Ok? {
      WithdrawKeepsPools(s, now, accounts[0]);
      var s1 := WithdrawSingle(s, now, accounts[0]).value;
      SameUpdate(s, s1, now);
      EachIsInTurn(s1, now, accounts[1..]);
    }
  }

  /** A bulk call leaves the same storage as one `withdraw_rewards` transaction for each
      account of its page at the same time; with an empty page it only updates the indexes. */
  lemma BulkIsWithdrawals(s: Storage, now: nat, caller: Addr, limit: nat, startAfter: Option<Addr>)
    requires WithdrawRewardsBulk(s, now, caller, limit, startAfter).Ok?
    ensures var o := WithdrawRewardsBulk(s, now, caller, limit, startAfter).value;
            var accounts := PagedAccounts(s.rewards, limit, startAfter);
            if accounts == [] then Ok(o.store) == UpdateRewardIndexes(s, now)
            else Ok(o.store) == WithdrawInTurn(s, now, accounts)
  {
    var s1 := UpdateRewardIndexes(s, now).value;
    assert s1.rewards == s.rewards;
    UpdateIdempotent(s, now);
    hide UpdateRewardIndexes, WithdrawSingle, PagedAccounts;
    EachIsInTurn(s1, now, PagedAccounts(s.rewards, limit, startAfter));
  }

  // ----- pages of a bulk withdrawal -----

  function After(keys: set<Addr>, cursor: Option<Addr>): set<Addr> {
    set a | a in keys && (cursor.Some? ==> cursor.value < a)
  }

  lemma {:induction false} EachKeepsOthers(s: Storage, now: nat, accounts: seq<Addr>)
    requires WithdrawEach(s, now, accounts).Ok?
    ensures forall a | a !in accounts ::
              a in WithdrawEach(s, now, accounts).value.rewards <==> a in s.rewards
    decreases |accounts|
  {
    hide WithdrawSingle;
    if accounts != [] {
      WithdrawKeepsPools(s, now, accounts[0]);
      EachKeepsOthers(WithdrawSingle(s, now, accounts[0]).value, now, accounts[1..]);
    }
  }

  lemma BulkForm(s: Storage, now: nat, caller: Addr, limit: nat, cursor: Option<Addr>)
    requires WithdrawRewardsBulk(s, now, caller, limit, cursor).Ok?
    ensures UpdateRewardIndexes(s, now).Ok?
    ensures var s1, page := UpdateRewardIndexes(s, now).value, PagedAccounts(s.rewards, limit, cursor);
            var o := WithdrawRewardsBulk(s, now, caller, limit, cursor).value;
            && s1.rewards == s.rewards
            && page == Take(Ascending(After(s.rewards.Keys, cursor)), limit)
            && WithdrawEach(s1, now, page) == Ok(o.store)
            && o.last == if page == [] then None else Some(page[|page| - 1])
  {
    hide UpdateRewardIndex, Take, Ascending, WithdrawEach;
  }

  /** the records beyond the last account of a page are all still there */
  lemma PageKeepsRest(s: Storage, now: nat, caller: Addr, limit: nat, cursor: Option<Addr>)
    requires limit >= 1 && WithdrawRewardsBulk(s, now, caller, limit, cursor).Ok?
    ensures var o := WithdrawRewardsBulk(s, now, caller, limit, cursor).value;
            var all := After(s.rewards.Keys, cursor);
            && (o.last.None? <==> all == {})
            && (o.last.Some? ==>
                  && o.last.value in all
                  && After(o.store.rewards.Keys, o.last) == Above(all, o.last.value)
                  && Ascending(all) == PagedAccounts(s.rewards, limit, cursor) + Ascending(Above(all, o.last.value)))
  {
    hide *;
    BulkForm(s, now, caller, limit, cursor);
    var s1 := UpdateRewardIndexes(s, now).value;
    var o := WithdrawRewardsBulk(s, now, caller, limit, cursor).value;
    var all := After(s.rewards.Keys, cursor);
    var page := PagedAccounts(s.rewards, limit, cursor);
    EachKeepsOthers(s1, now, page);
    PageOf(all, limit, page);
    if page != [] {
      KeysAbovePage(s.rewards.Keys, o.store.rewards.Keys, cursor, page);
    }
  }

  lemma PrefixAscends(q: seq<Addr>, page: seq<Addr>)
    requires StrictlyAscending(q) && page <= q
    ensures StrictlyAscending(page) && forall a | a in page :: a in q
  {
    assert forall i | 0 <= i < |page| :: page[i] == q[i];
  }

  lemma PageOf(all: set<Addr>, limit: nat, page: seq<Addr>)
    requires limit >= 1 && page == Take(Ascending(all), limit)
    ensures page == [] <==> all == {}
    ensures StrictlyAscending(page) && forall a | a in page :: a in all
    ensures page != [] ==> Ascending(all) == page + Ascending(Above(all, page[|page| - 1]))
  {
    hide *;
    PrefixAscends(Ascending(all), page);
    if all != {} {
      AscendingPages(all, limit);
    }
  }

  /** a page is deleted from, what lies above its last account is not */
  lemma KeysAbovePage(before: set<Addr>, after: set<Addr>, cursor: Option<Addr>, page: seq<Addr>)
    requires page != [] && StrictlyAscending(page)
    requires forall a | a in page :: a in After(before, cursor)
    requires forall a | a !in page :: a in after <==> a in before
    ensures var last := page[|page| - 1];
            && last in After(before, cursor)
            && After(after, Some(last)) == Above(After(before, cursor), last)
  {
    var last := page[|page| - 1];
    assert last in page;
    forall a | last < a ensures a !in page {
      assert forall i | 0 <= i < |page| :: page[i] <= last;
    }
  }

  /** Every account a chain of bulk calls visits, each call starting after the last account
      of the one before, at whatever times and with whatever positive limits. */
  function Visited(
      s: Storage, caller: Addr, n: nat, clock: nat -> nat, limit: nat -> nat, cursor: Option<Addr>)
    : Result<seq<Addr>, Error>
    requires forall i :: limit(i) >= 1
    decreases |After(s.rewards.Keys, cursor)|
  {
    var o :- WithdrawRewardsBulk(s, clock(n), caller, limit(n), cursor);
    if o.last.None? then Ok([])
    else
      PageKeepsRest(s, clock(n), caller, limit(n), cursor);
      SmallerAfter(After(s.rewards.Keys, cursor), o.last.value);
      var rest :- Visited(o.store, caller, n + 1, clock, limit, o.last);
      Ok(PagedAccounts(s.rewards, limit(n), cursor) + rest)
  }

  lemma NothingAscending()
    ensures Ascending({}) == []
  {
  }

  lemma SmallerAfter(all: set<Addr>, last: Addr)
    requires last in all
    ensures |Above(all, last)| < |all|
  {
    var rest := Above(all, last);
    assert rest <= all - {last};
    SubsetSize(rest, all - {last});
  }

  /** The chain visits every reward record that was there at its start exactly once, in
      order, although records are deleted on the way. */
  lemma {:induction false} PagesCoverRecords(
      s: Storage, caller: Addr, n: nat, clock: nat -> nat, limit: nat -> nat, cursor: Option<Addr>)
    requires forall i :: limit(i) >= 1
    requires Visited(s, caller, n, clock, limit, cursor).Ok?
    ensures Visited(s, caller, n, clock, limit, cursor).value == Ascending(After(s.rewards.Keys, cursor))
    decreases |After(s.rewards.Keys, cursor)|
  {
    hide WithdrawRewardsBulk, PagedAccounts, After, Above, Ascending;
    var o := WithdrawRewardsBulk(s, clock(n), caller, limit(n), cursor).value;
    PageKeepsRest(s, clock(n), caller, limit(n), cursor);
    if o.last.None? {
      assert Ascending({}) == [] by {
        NothingAscending();
      }
    }
    if o.last.Some? {
      SmallerAfter(After(s.rewards.Keys, cursor), o.last.value);
      PagesCoverRecords(o.store, caller, n + 1, clock, limit, o.last);
    }
  }
}
