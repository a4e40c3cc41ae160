/** Votes and the deposits behind them. */
module GovVotes {
  import opened Addresses
  import opened Results
  import opened Sums
  import opened GovModel

  type Locks = seq<(nat, VoterInfo)>

  ghost predicate DistinctLocks(locked: Locks) {
    forall i, j | 0 <= i < j < |locked| :: locked[i].0 != locked[j].0
  }

  /** every lock entry of an account is the voter record of that poll */
  ghost predicate AccountLocks(s: Storage, a: Addr)
    requires a in s.bank
  {
    var locked := s.bank[a].locked;
    && |locked| <= MAX_POLL_VOTES_PER_USER
    && DistinctLocks(locked)
    && (forall e | e in locked :: e.0 in s.polls && (e.0, a) in s.voters && s.voters[(e.0, a)] == e.1)
  }

  /** every voter record is a lock entry of its voter, covered by the deposit while the poll
      is in progress */
  ghost predicate VoteLocked(s: Storage, key: VoterKey)
    requires key in s.voters
  {
    && key.1 in s.bank
    && (key.0, s.voters[key]) in s.bank[key.1].locked
    && (Running(s.polls, key.0) ==> s.voters[key].balance <= s.bank[key.1].deposit)
  }

  ghost function VotePart(voters: Voters, id: nat, vote: VoteOption): VoterKey -> int {
    (k: VoterKey) => if k in voters && k.0 == id && voters[k].vote == vote then voters[k].balance else 0
  }

  /** what the voter records of a poll add up to for one option */
  ghost function VoteSum(voters: Voters, id: nat, vote: VoteOption): int {
    Sum(voters.Keys, VotePart(voters, id, vote))
  }

  ghost predicate TallyRight(voters: Voters, poll: Poll, id: nat) {
    && poll.yes == VoteSum(voters, id, Yes)
    && poll.no == VoteSum(voters, id, No)
    && poll.abstain == VoteSum(voters, id, Abstain)
  }

  /** Locks and voter records match one to one, votes are covered, and the tallies of polls
      in progress are the sums of their voter records. */
  ghost predicate VotesInv(s: Storage) {
    && (forall a | a in s.bank :: AccountLocks(s, a))
    && (forall key | key in s.voters :: VoteLocked(s, key))
    && (forall key | key in s.voters :: key.0 in s.polls)
    && (forall id | Running(s.polls, id) :: TallyRight(s.voters, s.polls[id], id))
  }

  // ----- casting a vote -----

  lemma AddVoteSum(voters: Voters, key: VoterKey, info: VoterInfo, id: nat, vote: VoteOption)
    requires key !in voters
    ensures VoteSum(voters[key := info], id, vote)
            == VoteSum(voters, id, vote) + if key.0 == id && info.vote == vote then info.balance else 0
  {
    var after := voters[key := info];
    SumUpdate(voters.Keys, after.Keys, key, VotePart(voters, id, vote), VotePart(after, id, vote));
  }

  lemma AddTally(voters: Voters, poll: Poll, key: VoterKey, info: VoterInfo)
    requires key !in voters && TallyRight(voters, poll, key.0)
    ensures TallyRight(voters[key := info], AddVote(poll, info.vote, info.balance), key.0)
  {
    hide VoteSum;
    AddVoteSum(voters, key, info, key.0, Yes);
    AddVoteSum(voters, key, info, key.0, No);
    AddVoteSum(voters, key, info, key.0, Abstain);
  }

  lemma OtherTally(voters: Voters, poll: Poll, id: nat, key: VoterKey, info: VoterInfo)
    requires key !in voters && id != key.0 && TallyRight(voters, poll, id)
    ensures TallyRight(voters[key := info], poll, id)
  {
    hide VoteSum;
    AddVoteSum(voters, key, info, id, Yes);
    AddVoteSum(voters, key, info, id, No);
    AddVoteSum(voters, key, info, id, Abstain);
  }

  /** the storage after a vote */
  lemma CastForm(s: Storage, now: nat, voter: Addr, id: nat, vote: VoteOption, amount: nat, supply: nat)
    requires CastVote(s, now, voter, id, vote, amount, supply).Ok?
    ensures var s', info := CastVote(s, now, voter, id, vote, amount, supply).value, VoterInfo(vote, amount);
            var manager := ManagerOf(s.bank, voter);
            && Running(s.polls, id) && (id, voter) !in s.voters
            && amount <= manager.deposit && |manager.locked| < MAX_POLL_VOTES_PER_USER
            && s'.bank == s.bank[voter := manager.(locked := manager.locked + [(id, info)])]
            && s'.voters == s.voters[(id, voter) := info]
            && id in s'.polls && s'.polls == s.polls[id := s'.polls[id]]
            && s'.polls[id] == AddVote(s.polls[id], vote, amount).(snapshot := s'.polls[id].snapshot)
            && (s.polls[id].snapshot.Some? ==> s'.polls[id].snapshot == s.polls[id].snapshot)
            && s' == s.(bank := s'.bank, voters := s'.voters, polls := s'.polls)
  {
  }

  /** A vote is possible exactly once, on a poll in progress that is not over, with an amount the
      deposit covers and fewer than twenty votes locked.  It adds the amount to the option voted
      for, locks and records it, and takes the snapshot when the end is near and none was
      taken. */
  lemma CastOutcome(s: Storage, now: nat, voter: Addr, id: nat, vote: VoteOption, amount: nat, supply: nat)
    ensures var manager := ManagerOf(s.bank, voter);
            CastVote(s, now, voter, id, vote, amount, supply).Ok? <==>
            && id in s.polls && s.polls[id].status == InProgress && now <= s.polls[id].endTime
            && (id, voter) !in s.voters && amount <= manager.deposit && |manager.locked| < 20
    ensures CastVote(s, now, voter, id, vote, amount, supply).Ok? ==>
              var manager, info, before := ManagerOf(s.bank, voter), VoterInfo(vote, amount), s.polls[id];
              var after := before.(
                             yes := before.yes + if vote == Yes then amount else 0,
                             no := before.no + if vote == No then amount else 0,
                             abstain := before.abstain + if vote == Abstain then amount else 0,
                             snapshot := if before.snapshot.None? && before.endTime < now + s.cfg.snapshotPeriod
                                         then Some(supply) else before.snapshot);
              CastVote(s, now, voter, id, vote, amount, supply).value
              == s.(bank := s.bank[voter := Manager(manager.deposit, manager.locked + [(id, info)])],
                    voters := s.voters[(id, voter) := info],
                    polls := s.polls[id := after])
  {
  }

  lemma SnapshotAside(voters: Voters, poll: Poll, id: nat, snapshot: Option<nat>)
    requires TallyRight(voters, poll, id)
    ensures TallyRight(voters, poll.(snapshot := snapshot), id)
  {
  }

  /** the voter's locks get the new entry, everybody else's stay */
  lemma CastLocks(s: Storage, s': Storage, voter: Addr, id: nat, info: VoterInfo)
    requires VotesInv(s) && id in s.polls && (id, voter) !in s.voters
    requires var manager := ManagerOf(s.bank, voter);
             && |manager.locked| < MAX_POLL_VOTES_PER_USER
             && s'.bank == s.bank[voter := manager.(locked := manager.locked + [(id, info)])]
    requires s'.voters == s.voters[(id, voter) := info]
    requires s'.polls.Keys == s.polls.Keys
    ensures forall a | a in s'.bank :: AccountLocks(s', a)
  {
    hide TallyRight;
    var manager := ManagerOf(s.bank, voter);
    forall a | a in s'.bank ensures AccountLocks(s', a) {
      assert a in s.bank ==> AccountLocks(s, a);
      if a == voter {
        var locked := manager.locked;
        forall e | e in locked ensures e.0 != id {
          assert (e.0, a) in s.voters;
        }
        assert forall i | 0 <= i < |locked| :: locked[i] in locked;
      }
    }
  }

  lemma CastCovered(s: Storage, s': Storage, voter: Addr, id: nat, info: VoterInfo)
    requires VotesInv(s) && Running(s.polls, id)
    requires var manager := ManagerOf(s.bank, voter);
             && info.balance <= manager.deposit
             && s'.bank == s.bank[voter := manager.(locked := manager.locked + [(id, info)])]
    requires s'.voters == s.voters[(id, voter) := info]
    requires forall b :: Running(s'.polls, b) <==> Running(s.polls, b)
    ensures forall key | key in s'.voters :: VoteLocked(s', key)
  {
    hide TallyRight, AccountLocks, Running;
    forall key | key in s'.voters ensures VoteLocked(s', key) {
      if key == (id, voter) {
        assert (id, info) in s'.bank[voter].locked;
      } else {
        assert VoteLocked(s, key);
        if key.1 == voter {
          assert s'.bank[voter].locked == s.bank[voter].locked + [(id, info)];
        }
      }
    }
  }

  lemma CastKeeps(s: Storage, now: nat, voter: Addr, id: nat, vote: VoteOption, amount: nat, supply: nat)
    requires VotesInv(s) && CastVote(s, now, voter, id, vote, amount, supply).Ok?
    ensures VotesInv(CastVote(s, now, voter, id, vote, amount, supply).value)
  {
    hide CastVote, TallyRight, AccountLocks, VoteLocked;
    var s', info := CastVote(s, now, voter, id, vote, amount, supply).value, VoterInfo(vote, amount);
    CastForm(s, now, voter, id, vote, amount, supply);
    assert s'.polls.Keys == s.polls.Keys;
    CastLocks(s, s', voter, id, info);
    CastCovered(s, s', voter, id, info);
    forall b | Running(s'.polls, b) ensures TallyRight(s'.voters, s'.polls[b], b) {
      if b == id {
        AddTally(s.voters, s.polls[id], (id, voter), info);
        SnapshotAside(s'.voters, AddVote(s.polls[id], vote, amount), id, s'.polls[id].snapshot);
      } else {
        OtherTally(s.voters, s.polls[b], b, (id, voter), info);
      }
    }
  }

  // ----- withdrawing -----

  lemma {:induction false} LiveMembers(polls: Polls, locked: Locks)
    ensures forall e :: e in Live(polls, locked) <==> e in locked && Running(polls, e.0)
    ensures |Live(polls, locked)| <= |locked|
    decreases |locked|
  {
    if locked != [] {
      LiveMembers(polls, locked[1..]);
      assert locked == [locked[0]] + locked[1..];
    }
  }

  lemma {:induction false} LiveDistinct(polls: Polls, locked: Locks)
    requires DistinctLocks(locked)
    ensures DistinctLocks(Live(polls, locked))
    decreases |locked|
  {
    if locked != [] {
      var rest := locked[1..];
      assert forall i | 0 <= i < |rest| :: rest[i] == locked[i + 1];
      LiveDistinct(polls, rest);
      LiveMembers(polls, rest);
      var live := Live(polls, rest);
      assert forall i | 0 <= i < |live| :: live[i] in rest;
    }
  }

  lemma {:induction false} MaxLockedBounds(locked: Locks)
    ensures forall e | e in locked :: e.1.balance <= MaxLocked(locked)
    decreases |locked|
  {
    if locked != [] {
      MaxLockedBounds(locked[1..]);
      assert locked == [locked[0]] + locked[1..];
    }
  }

  /** the largest lock is one of them */
  lemma {:induction false} MaxLockedReached(locked: Locks)
    ensures MaxLocked(locked) == 0 || exists e :: e in locked && e.1.balance == MaxLocked(locked)
    decreases |locked|
  {
    if locked != [] {
      MaxLockedReached(locked[1..]);
      assert locked[0] in locked;
      assert forall e | e in locked[1..] :: e in locked;
    }
  }

  lemma {:induction false} DropVotesKeys(polls: Polls, voters: Voters, voter: Addr, locked: Locks)
    ensures var after := DropVotes(polls, voters, voter, locked);
            && (forall k :: k in after <==>
                  k in voters && !(k.1 == voter && !Running(polls, k.0) && exists e :: e in locked && e.0 == k.0))
            && (forall k | k in after :: after[k] == voters[k])
    decreases |locked|
  {
    if locked != [] {
      var next := if Running(polls, locked[0].0) then voters else voters - {(locked[0].0, voter)};
      DropVotesKeys(polls, next, voter, locked[1..]);
      assert locked == [locked[0]] + locked[1..];
    }
  }

  lemma WithdrawForm(s: Storage, sender: Addr, amount: Option<nat>)
    requires WithdrawVotingTokens(s, sender, amount).Ok?
    ensures var o := WithdrawVotingTokens(s, sender, amount).value;
            && sender in s.bank
            && var locked := s.bank[sender].locked;
               var live := Live(s.polls, locked);
               && MaxLocked(live) + o.sent <= s.bank[sender].deposit
               && o.store == s.(bank := s.bank[sender := Manager(s.bank[sender].deposit - o.sent, live)],
                                voters := DropVotes(s.polls, s.voters, sender, locked))
  {
    hide Live, MaxLocked, DropVotes;
  }

  /** dropping votes of finished polls leaves the tallies of running ones alone */
  lemma DroppedTally(polls: Polls, voters: Voters, voter: Addr, locked: Locks, id: nat, vote: VoteOption)
    requires Running(polls, id)
    ensures VoteSum(DropVotes(polls, voters, voter, locked), id, vote) == VoteSum(voters, id, vote)
  {
    DropVotesKeys(polls, voters, voter, locked);
    hide DropVotes;
    var after := DropVotes(polls, voters, voter, locked);
    SumExtend(after.Keys, voters.Keys, VotePart(after, id, vote));
    SumCongruent(voters.Keys, VotePart(after, id, vote), VotePart(voters, id, vote));
  }

  lemma WithdrawLocks(s: Storage, s': Storage, sender: Addr, deposit: nat)
    requires VotesInv(s) && sender in s.bank
    requires s' == s.(bank := s.bank[sender := Manager(deposit, Live(s.polls, s.bank[sender].locked))],
                      voters := DropVotes(s.polls, s.voters, sender, s.bank[sender].locked))
    ensures forall a | a in s'.bank :: AccountLocks(s', a)
  {
    hide Live, DropVotes, TallyRight, Running;
    var locked := s.bank[sender].locked;
    DropVotesKeys(s.polls, s.voters, sender, locked);
    LiveMembers(s.polls, locked);
    assert AccountLocks(s, sender);
    LiveDistinct(s.polls, locked);
    hide DistinctLocks;
    forall a | a in s'.bank ensures AccountLocks(s', a) {
      assert AccountLocks(s, a);
    }
  }

  /** what stays deposited covers every vote on a running poll */
  lemma WithdrawCovered(s: Storage, s': Storage, sender: Addr, deposit: nat)
    requires VotesInv(s) && sender in s.bank
    requires s' == s.(bank := s.bank[sender := Manager(deposit, Live(s.polls, s.bank[sender].locked))],
                      voters := DropVotes(s.polls, s.voters, sender, s.bank[sender].locked))
    requires MaxLocked(Live(s.polls, s.bank[sender].locked)) <= deposit
    ensures forall key | key in s'.voters :: VoteLocked(s', key)
  {
    hide Live, DropVotes, TallyRight, AccountLocks, Running, MaxLocked;
    var locked := s.bank[sender].locked;
    DropVotesKeys(s.polls, s.voters, sender, locked);
    LiveMembers(s.polls, locked);
    MaxLockedBounds(Live(s.polls, locked));
    forall key | key in s'.voters ensures VoteLocked(s', key) {
      assert VoteLocked(s, key);
      if key.1 == sender {
        assert (key.0, s.voters[key]) in locked;
      }
    }
  }

  /** Withdrawing keeps every vote on a running poll covered, and forgets exactly the votes of
      the sender on finished ones. */
  lemma WithdrawKeeps(s: Storage, sender: Addr, amount: Option<nat>)
    requires VotesInv(s) && WithdrawVotingTokens(s, sender, amount).Ok?
    ensures VotesInv(WithdrawVotingTokens(s, sender, amount).value.store)
  {
    hide Live, DropVotes, VoteSum, AccountLocks, VoteLocked, MaxLocked, WithdrawVotingTokens;
    WithdrawForm(s, sender, amount);
    var o := WithdrawVotingTokens(s, sender, amount).value;
    var locked := s.bank[sender].locked;
    var deposit := s.bank[sender].deposit - o.sent;
    WithdrawLocks(s, o.store, sender, deposit);
    WithdrawCovered(s, o.store, sender, deposit);
    DropVotesKeys(s.polls, s.voters, sender, locked);
    forall id | Running(s.polls, id) ensures TallyRight(o.store.voters, s.polls[id], id) {
      DroppedTally(s.polls, s.voters, sender, locked, id, Yes);
      DroppedTally(s.polls, s.voters, sender, locked, id, No);
      DroppedTally(s.polls, s.voters, sender, locked, id, Abstain);
    }
  }

  /** A withdrawal is possible exactly when the account is known and the amount leaves the
      largest vote on a running poll covered; nothing can go wrong with the locks. */
  lemma WithdrawSucceedsIff(s: Storage, sender: Addr, amount: Option<nat>)
    requires VotesInv(s)
    ensures WithdrawVotingTokens(s, sender, amount).Ok? <==>
            && sender in s.bank
            && (amount.Some? ==> MaxLocked(Live(s.polls, s.bank[sender].locked)) + amount.value <= s.bank[sender].deposit)
  {
    hide Live, MaxLocked, DropVotes, TallyRight;
    if sender in s.bank {
      var live := Live(s.polls, s.bank[sender].locked);
      assert AccountLocks(s, sender);
      LiveMembers(s.polls, s.bank[sender].locked);
      MaxLockedReached(live);
      if MaxLocked(live) > 0 {
        var e :| e in live && e.1.balance == MaxLocked(live);
        assert VoteLocked(s, (e.0, sender));
      }
    }
  }

  /** What a withdrawal sends leaves the deposit, and without an amount it sends all that the
      votes on running polls do not need: the deposit left is the largest of them. */
  lemma WithdrawOutcome(s: Storage, sender: Addr, amount: Option<nat>)
    requires VotesInv(s) && WithdrawVotingTokens(s, sender, amount).Ok?
    ensures var o := WithdrawVotingTokens(s, sender, amount).value;
            && sender in s.bank && sender in o.store.bank
            && o.store.bank[sender].deposit + o.sent == s.bank[sender].deposit
            && (amount.Some? ==> o.sent == amount.value)
            && (forall a | a != sender :: a in o.store.bank <==> a in s.bank)
            && (forall a | a in s.bank && a != sender :: o.store.bank[a] == s.bank[a])
    ensures var left := WithdrawVotingTokens(s, sender, amount).value.store.bank[sender].deposit;
            && (forall e | e in s.bank[sender].locked && Running(s.polls, e.0) :: e.1.balance <= left)
            && (amount.None? && left > 0 ==>
                  exists e :: e in s.bank[sender].locked && Running(s.polls, e.0) && e.1.balance == left)
  {
    hide Live, MaxLocked, DropVotes, VotesInv, Running;
    WithdrawForm(s, sender, amount);
    var o, locked := WithdrawVotingTokens(s, sender, amount).value, s.bank[sender].locked;
    LiveMembers(s.polls, locked);
    MaxLockedBounds(Live(s.polls, locked));
    MaxLockedReached(Live(s.polls, locked));
  }

  /** Staking needs an amount, and puts exactly it on the sender's deposit. */
  lemma StakeOutcome(s: Storage, sender: Addr, amount: nat)
    ensures StakeVotingTokens(s, sender, amount).Ok? <==> amount > 0
    ensures StakeVotingTokens(s, sender, amount).Ok? ==>
              var manager := ManagerOf(s.bank, sender);
              StakeVotingTokens(s, sender, amount).value
              == s.(bank := s.bank[sender := Manager(manager.deposit + amount, manager.locked)])
  {
  }

  // ----- the other calls -----

  lemma StakeKeeps(s: Storage, sender: Addr, amount: nat)
    requires VotesInv(s) && StakeVotingTokens(s, sender, amount).Ok?
    ensures VotesInv(StakeVotingTokens(s, sender, amount).value)
  {
    hide TallyRight, Running;
    var s' := StakeVotingTokens(s, sender, amount).value;
    forall a | a in s'.bank ensures AccountLocks(s', a) {
      assert a in s.bank ==> AccountLocks(s, a);
    }
    forall key | key in s'.voters ensures VoteLocked(s', key) {
      assert VoteLocked(s, key);
    }
  }

  /** Polls may stop running, get new numbers, or change what tallies do not show. */
  lemma PollsChange(s: Storage, s': Storage)
    requires VotesInv(s)
    requires s'.bank == s.bank && s'.voters == s.voters
    requires s.polls.Keys <= s'.polls.Keys
    requires forall id | Running(s'.polls, id) ::
               var poll := s'.polls[id];
               if id in s.polls then
                 Running(s.polls, id)
                 && poll.yes == s.polls[id].yes && poll.no == s.polls[id].no && poll.abstain == s.polls[id].abstain
               else Tallied(poll) == 0
    ensures VotesInv(s')
  {
    hide VoteSum;
    forall a | a in s'.bank ensures AccountLocks(s', a) {
      assert AccountLocks(s, a);
    }
    forall key | key in s'.voters ensures VoteLocked(s', key) {
      assert VoteLocked(s, key);
    }
    forall id | Running(s'.polls, id) ensures TallyRight(s'.voters, s'.polls[id], id) {
      if id in s.polls {
        assert TallyRight(s.voters, s.polls[id], id);
      } else {
        NoVotes(s.voters, id, Yes);
        NoVotes(s.voters, id, No);
        NoVotes(s.voters, id, Abstain);
      }
    }
  }

  lemma NoVotes(voters: Voters, id: nat, vote: VoteOption)
    requires forall key | key in voters :: key.0 != id
    ensures VoteSum(voters, id, vote) == 0
  {
    SumZero(voters.Keys, VotePart(voters, id, vote));
  }

  // ----- the tally and the deposits -----

  ghost function DepositPart(bank: Bank): Addr -> int {
    (a: Addr) => if a in bank then bank[a].deposit else 0
  }

  /** all voting tokens on deposit */
  ghost function DepositSum(bank: Bank): int {
    Sum(bank.Keys, DepositPart(bank))
  }

  ghost function BalanceOn(voters: Voters, id: nat): VoterKey -> int {
    (k: VoterKey) => if k in voters && k.0 == id then voters[k].balance else 0
  }

  lemma TallyIsBalances(voters: Voters, poll: Poll, id: nat)
    requires TallyRight(voters, poll, id)
    ensures Tallied(poll) == Sum(voters.Keys, BalanceOn(voters, id))
  {
    var yes, no, abstain := VotePart(voters, id, Yes), VotePart(voters, id, No), VotePart(voters, id, Abstain);
    var decided := (k: VoterKey) => yes(k) + no(k);
    SumPlus(voters.Keys, yes, no, decided);
    SumPlus(voters.Keys, decided, abstain, BalanceOn(voters, id));
  }

  ghost function BalanceOf(voters: Voters, id: nat): Addr -> int {
    (a: Addr) => if (id, a) in voters then voters[(id, a)].balance else 0
  }

  /** one voter record per account and poll: summing over records is summing over accounts */
  lemma {:induction false} ByAccount(voters: Voters, keys: set<VoterKey>, accounts: set<Addr>, id: nat)
    requires keys <= voters.Keys
    requires forall k | k in keys && k.0 == id :: k.1 in accounts
    requires forall a | a in accounts && (id, a) in voters :: (id, a) in keys
    ensures Sum(keys, BalanceOn(voters, id)) == Sum(accounts, BalanceOf(voters, id))
    decreases accounts
  {
    if accounts == {} {
      SumZero(keys, BalanceOn(voters, id));
    } else {
      var a :| a in accounts;
      var key: VoterKey := (id, a);
      SumPick(accounts, a, BalanceOf(voters, id));
      if key in keys {
        SumPick(keys, key, BalanceOn(voters, id));
        ByAccount(voters, keys - {key}, accounts - {a}, id);
      } else {
        ByAccount(voters, keys, accounts - {a}, id);
      }
    }
  }

  /** The tally of a running poll is the sum of its voter records, each covered by its
      voter's deposit, and so never more than all deposits together. */
  lemma TallyBacked(s: Storage, id: nat)
    requires VotesInv(s) && Running(s.polls, id)
    ensures Tallied(s.polls[id]) == Sum(s.voters.Keys, BalanceOn(s.voters, id))
    ensures forall a | (id, a) in s.voters :: a in s.bank && s.voters[(id, a)].balance <= s.bank[a].deposit
    ensures Tallied(s.polls[id]) <= DepositSum(s.bank)
  {
    hide VoteSum, AccountLocks;
    TallyIsBalances(s.voters, s.polls[id], id);
    forall key | key in s.voters && key.0 == id
      ensures key.1 in s.bank && s.voters[key].balance <= s.bank[key.1].deposit
    {
      assert VoteLocked(s, key);
    }
    ByAccount(s.voters, s.voters.Keys, s.bank.Keys, id);
    SumMono(s.bank.Keys, BalanceOf(s.voters, id), DepositPart(s.bank));
  }

  lemma DepositMoved(bank: Bank, a: Addr, manager: Manager)
    ensures DepositSum(bank[a := manager]) == DepositSum(bank) + manager.deposit - ManagerOf(bank, a).deposit
  {
    var after := bank[a := manager];
    SumUpdate(bank.Keys, after.Keys, a, DepositPart(bank), DepositPart(after));
  }
}
