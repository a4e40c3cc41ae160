/** The poll state machine: where a poll can go, when, and what becomes of its deposit. */
module GovPolls {
  import opened Addresses
  import opened Results
  import opened FixedPoint
  import opened Sums
  import opened GovModel

  /** Polls are numbered from one without gaps, and the index lists every poll under its
      status and nowhere else. */
  ghost predicate PollsInv(s: Storage) {
    && 1 <= s.lastPollId
    && (forall id :: id in s.polls <==> 1 <= id < s.lastPollId)
    && (forall id | id in s.polls :: s.polls[id].id == id)
    && (forall st, id :: (st, id) in s.indexer <==> id in s.polls && s.polls[id].status == st)
  }

  /** the only ways a poll's status moves */
  predicate Leads(from: Status, to: Status) {
    || from == to
    || (from == InProgress && to != InProgress)
    || (from == Passed && (to == Executed || to == Failed))
    || (from == Executed && to == Failed)
  }

  lemma LeadsTransitive(a: Status, b: Status, c: Status)
    requires Leads(a, b) && Leads(b, c)
    ensures Leads(a, c)
  {
  }

  /** polls keep their terms, and their status only moves forward */
  ghost predicate PollsMove(polls: Polls, polls': Polls) {
    forall id | id in polls ::
      && id in polls'
      && Leads(polls[id].status, polls'[id].status)
      && SameTerms(polls[id], polls'[id])
  }

  predicate SameTerms(a: Poll, b: Poll) {
    && b.id == a.id && b.creator == a.creator && b.deposit == a.deposit && b.endTime == a.endTime
    && b.quorum == a.quorum && b.threshold == a.threshold && b.executable == a.executable
    && (a.snapshot.Some? ==> b.snapshot == a.snapshot)
    && a.yes <= b.yes && a.no <= b.no && a.abstain <= b.abstain
  }

  lemma PollsMoveTransitive(a: Polls, b: Polls, c: Polls)
    requires PollsMove(a, b) && PollsMove(b, c)
    ensures PollsMove(a, c)
  {
    forall id | id in a
      ensures id in c && Leads(a[id].status, c[id].status) && SameTerms(a[id], c[id])
    {
      LeadsTransitive(a[id].status, b[id].status, c[id].status);
    }
  }

  lemma CreateKeeps(s: Storage, now: nat, creator: Addr, deposit: nat, executable: bool)
    requires PollsInv(s) && CreatePoll(s, now, creator, deposit, executable).Ok?
    ensures var s' := CreatePoll(s, now, creator, deposit, executable).value;
            && PollsInv(s') && PollsMove(s.polls, s'.polls)
            && s.lastPollId !in s.polls
            && s'.polls == s.polls[s.lastPollId := s'.polls[s.lastPollId]]
            && s'.polls[s.lastPollId].status == InProgress
            && s'.polls[s.lastPollId].deposit == deposit
            && Tallied(s'.polls[s.lastPollId]) == 0
  {
  }

  /** A poll can be opened exactly with the deposit asked for, and its terms are fixed at that
      moment: it runs for the voting period, under the quorum and threshold of the day, for its
      creator, with no votes and no snapshot. */
  lemma CreateTerms(s: Storage, now: nat, creator: Addr, deposit: nat, executable: bool)
    ensures CreatePoll(s, now, creator, deposit, executable).Ok? <==> deposit >= s.cfg.proposalDeposit
    ensures CreatePoll(s, now, creator, deposit, executable).Ok? ==>
              var s' := CreatePoll(s, now, creator, deposit, executable).value;
              && s.lastPollId in s'.polls
              && var poll := s'.polls[s.lastPollId];
                 && poll.id == s.lastPollId && poll.creator == creator && poll.deposit == deposit
                 && poll.endTime == now + s.cfg.votingPeriod
                 && poll.quorum == s.cfg.quorum && poll.threshold == s.cfg.threshold
                 && poll.executable == executable && poll.snapshot == None
                 && poll.yes == poll.no == poll.abstain == 0
                 && s' == s.(lastPollId := s.lastPollId + 1, polls := s.polls[s.lastPollId := poll],
                             indexer := s.indexer + {(InProgress, s.lastPollId)})
  {
  }

  /** a status change with unchanged terms keeps the numbering and the index */
  lemma SetStatusKeeps(s: Storage, id: nat, from: Status, poll: Poll)
    requires PollsInv(s) && id in s.polls && s.polls[id].status == from
    requires Leads(from, poll.status) && SameTerms(s.polls[id], poll) && poll.status != from
    ensures PollsInv(SetStatus(s, id, from, poll))
    ensures PollsMove(s.polls, SetStatus(s, id, from, poll).polls)
  {
  }

  /** a change of votes or snapshot keeps them too */
  lemma SamePollKeeps(s: Storage, id: nat, poll: Poll)
    requires PollsInv(s) && id in s.polls
    requires poll.status == s.polls[id].status && SameTerms(s.polls[id], poll)
    ensures PollsInv(s.(polls := s.polls[id := poll]))
    ensures PollsMove(s.polls, s.polls[id := poll])
  {
  }

  // ----- the outcome of a poll -----

  /** the exact share of the snapshot that voted, compared with the quorum */
  lemma QuorumRule(poll: Poll, supply: nat)
    requires supply > 0
    ensures !QuorumMissed(poll, supply) <==>
            Tallied(poll) > 0 && poll.quorum * supply <= Tallied(poll) * E
  {
    DivAtLeast(Tallied(poll) * E, supply, poll.quorum);
  }

  /** "yes" votes against the votes that were not abstentions */
  lemma ThresholdRule(poll: Poll)
    ensures ThresholdReached(poll) <==>
            poll.yes > 0 && (poll.threshold + 1) * (poll.yes + poll.no) <= poll.yes * E
  {
    if poll.yes > 0 {
      DivAtLeast(poll.yes * E, poll.yes + poll.no, poll.threshold + 1);
    }
  }

  /** Ending a poll is possible exactly for a poll in progress whose time is over.  The
      deposit leaves exactly one way: it is burned when nobody voted or the votes are below
      the quorum of the snapshot, and refunded otherwise.  The poll passes exactly when it is
      refunded and its "yes" votes exceed the threshold of the votes that did not abstain. */
  lemma EndPollOutcome(s: Storage, now: nat, id: nat, supply: nat)
    requires PollsInv(s)
    ensures EndPoll(s, now, id, supply).Ok? <==>
            id in s.polls && s.polls[id].status == InProgress && s.polls[id].endTime <= now
    ensures EndPoll(s, now, id, supply).Ok? ==>
              var o, poll := EndPoll(s, now, id, supply).value, s.polls[id];
              var total := if poll.snapshot.Some? then poll.snapshot.value else supply;
              var quorate := Tallied(poll) > 0 && poll.quorum * total <= Tallied(poll) * E;
              && o.burned + o.refunded == poll.deposit
              && (total > 0 && quorate ==> o.burned == 0)
              && (total > 0 && !quorate ==> o.refunded == 0)
              && id in o.store.polls
              && (total > 0 ==>
                    (o.store.polls[id].status == Passed <==>
                       quorate && poll.yes > 0 && (poll.threshold + 1) * (poll.yes + poll.no) <= poll.yes * E))
              && (o.store.polls[id].status != Passed ==> o.store.polls[id].status == Rejected)
              && PollsInv(o.store) && PollsMove(s.polls, o.store.polls)
              && o.store == s.(polls := s.polls[id := o.store.polls[id]], indexer := o.store.indexer)
  {
    hide PollsMove, PollsInv, QuorumMissed, ThresholdReached, Ratio, Leads;
    if EndPoll(s, now, id, supply).Ok? {
      var o, poll := EndPoll(s, now, id, supply).value, s.polls[id];
      var total := if poll.snapshot.Some? then poll.snapshot.value else supply;
      if total > 0 {
        QuorumRule(poll, total);
      }
      ThresholdRule(poll);
      LeadsFromProgress(o.store.polls[id].status);
      SetStatusKeeps(s, id, InProgress, o.store.polls[id]);
    }
  }

  lemma LeadsFromProgress(to: Status)
    ensures Leads(InProgress, to)
  {
  }

  /** with an empty supply the quorum of any vote counts as zero */
  lemma EmptySupplyQuorum(poll: Poll)
    ensures !QuorumMissed(poll, 0) <==> Tallied(poll) > 0 && poll.quorum == 0
  {
  }

  /** A poll is executed only after it passed, its delay is over, and it has something to
      execute; a failing message turns it into a failed one. */
  lemma ExecuteOutcome(s: Storage, now: nat, id: nat)
    requires PollsInv(s)
    ensures ExecutePoll(s, now, id).Ok? <==>
            && id in s.polls && s.polls[id].status == Passed && s.polls[id].executable
            && s.polls[id].endTime + s.cfg.effectiveDelay <= now
    ensures ExecutePoll(s, now, id).Ok? ==>
              var s' := ExecutePoll(s, now, id).value;
              && PollsInv(s') && PollsMove(s.polls, s'.polls)
              && id in s'.polls && s'.polls[id].status == Executed && s'.tmpPollId == id
              && s' == s.(polls := s'.polls, indexer := s'.indexer, tmpPollId := id)
              && (forall b | b != id :: b in s.polls <==> b in s'.polls)
              && (forall b | b in s.polls && b != id :: s'.polls[b] == s.polls[b])
              && FailedPoll(s', s'.tmpPollId).Ok?
              && var f := FailedPoll(s', s'.tmpPollId).value;
                 && PollsInv(f) && PollsMove(s.polls, f.polls) && f.polls[id].status == Failed
                 && f == s'.(polls := s'.polls[id := f.polls[id]], indexer := f.indexer)
  {
    if ExecutePoll(s, now, id).Ok? {
      var s' := ExecutePoll(s, now, id).value;
      var poll := s.polls[id].(status := Executed);
      SetStatusKeeps(s, id, Passed, poll);
      hide PollsInv, PollsMove;
      var mid := SetStatus(s, id, Passed, poll);
      assert s' == mid.(tmpPollId := id);
      TmpAside(mid, id);
      SetStatusKeeps(s', id, Executed, poll.(status := Failed));
      PollsMoveTransitive(s.polls, s'.polls, FailedPoll(s', id).value.polls);
    }
  }

  lemma TmpAside(s: Storage, id: nat)
    requires PollsInv(s)
    ensures PollsInv(s.(tmpPollId := id))
  {
  }

  lemma SnapshotKeeps(s: Storage, now: nat, id: nat, supply: nat)
    requires PollsInv(s) && SnapshotPoll(s, now, id, supply).Ok?
    ensures var s' := SnapshotPoll(s, now, id, supply).value;
            && PollsInv(s') && PollsMove(s.polls, s'.polls)
            && s' == s.(polls := s'.polls)
            && id in s.polls && s'.polls == s.polls[id := s.polls[id].(snapshot := Some(supply))]
  {
    hide PollsMove, PollsInv;
    SamePollKeeps(s, id, s.polls[id].(snapshot := Some(supply)));
  }

  /** A snapshot is taken exactly once, in the last part of a poll in progress, and stores the
      supply of that moment. */
  lemma SnapshotOutcome(s: Storage, now: nat, id: nat, supply: nat)
    ensures SnapshotPoll(s, now, id, supply).Ok? <==>
            && id in s.polls && s.polls[id].status == InProgress && s.polls[id].snapshot == None
            && now <= s.polls[id].endTime <= now + s.cfg.snapshotPeriod
    ensures SnapshotPoll(s, now, id, supply).Ok? ==>
              SnapshotPoll(s, now, id, supply).value
              == s.(polls := s.polls[id := s.polls[id].(snapshot := Some(supply))])
  {
  }

  // ----- deposits of polls in progress -----

  ghost function PollDeposit(polls: Polls): nat -> int {
    (id: nat) => if Running(polls, id) then polls[id].deposit else 0
  }

  /** the deposits gov still holds for polls in progress */
  ghost function PollDeposits(polls: Polls): int {
    Sum(polls.Keys, PollDeposit(polls))
  }

  lemma DepositMoves(polls: Polls, id: nat, poll: Poll)
    ensures PollDeposits(polls[id := poll])
            == PollDeposits(polls)
               + (if poll.status == InProgress then poll.deposit else 0)
               - if Running(polls, id) then polls[id].deposit else 0
  {
    var after := polls[id := poll];
    SumUpdate(polls.Keys, after.Keys, id, PollDeposit(polls), PollDeposit(after));
  }
}
