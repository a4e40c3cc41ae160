/** The governance contract in place: storage items are fields, calls are methods, and each
    method does exactly what `GovModel` says of the stored values. */
module GovContract {
  import opened Addresses
  import opened Results
  import opened FixedPoint
  import opened Sums
  import Model = GovModel

  class Gov {
    var cfg: Model.Config
    var lastPollId: nat
    var tmpPollId: nat
    var polls: Model.Polls
    var indexer: set<(Model.Status, nat)>
    var voters: Model.Voters
    var bank: Model.Bank
    var orders: Model.Orders
    var pendingXprism: nat
    var pendingPrism: nat

    function Store(): Model.Storage
      reads this
    {
      Model.Storage(cfg, lastPollId, tmpPollId, polls, indexer, voters, bank, orders, pendingXprism, pendingPrism)
    }

    constructor (cfg: Model.Config)
      requires Model.Instantiate(cfg).Ok?
      ensures Store() == Model.Instantiate(cfg).value
    {
      this.cfg := cfg;
      lastPollId, tmpPollId := 1, 0;
      polls, indexer, voters, bank, orders := map[], {}, map[], map[], map[];
      pendingXprism, pendingPrism := 0, 0;
    }

    method UpdateConfig(newCfg: Model.Config) returns (r: Result<(), Model.Error>)
      modifies `cfg
      ensures match Model.UpdateConfig(old(Store()), newCfg)
              case Ok(s) => r.Ok? && Store() == s
              case Err(e) => r == Err(e) && Store() == old(Store())
    {
      if newCfg.quorum > E || newCfg.threshold > E {
        return Err(Model.InvalidConfig);
      }
      cfg := newCfg;
      return Ok(());
    }

    // ----- polls -----

    /** `pop_last_poll_id` */
    method PopLastPollId() returns (id: nat)
      modifies `lastPollId
      ensures id == old(lastPollId) && lastPollId == old(lastPollId) + 1
    {
      id := lastPollId;
      lastPollId := lastPollId + 1;
    }

    method CreatePoll(now: nat, creator: Addr, deposit: nat, executable: bool) returns (r: Result<nat, Model.Error>)
      modifies this
      ensures match Model.CreatePoll(old(Store()), now, creator, deposit, executable)
              case Ok(s) => r == Ok(old(lastPollId)) && Store() == s
              case Err(e) => r == Err(e) && Store() == old(Store())
    {
      if deposit < cfg.proposalDeposit {
        return Err(Model.DepositTooSmall);
      }
      var id := PopLastPollId();
      polls := polls[id := Model.Poll(id, creator, Model.InProgress, 0, 0, 0, now + cfg.votingPeriod, executable,
                                      deposit, None, cfg.quorum, cfg.threshold)];
      indexer := indexer + {(Model.InProgress, id)};
      return Ok(id);
    }

    /** Returns the deposit burned and the deposit refunded. */
    method EndPoll(now: nat, id: nat, supply: nat) returns (r: Result<(nat, nat), Model.Error>)
      modifies `polls, `indexer
      ensures match Model.EndPoll(old(Store()), now, id, supply)
              case Ok(o) => r == Ok((o.burned, o.refunded)) && Store() == o.store
              case Err(e) => r == Err(e) && Store() == old(Store())
    {
      if id !in polls {
        return Err(Model.PollMissing);
      }
      var poll := polls[id];
      if poll.status != Model.InProgress {
        return Err(Model.NotInProgress);
      }
      if poll.endTime > now {
        return Err(Model.NotExpired);
      }
      var tallied := poll.yes + poll.no + poll.abstain;
      var status := Model.Rejected;
      var burned, refunded: nat := 0, 0;
      if poll.snapshot.None? {
        poll := poll.(snapshot := Some(supply));
      }
      var total := poll.snapshot.value;
      var quorum := if total == 0 then 0 else Ratio(tallied, total);
      if tallied == 0 || quorum < poll.quorum {
        burned := poll.deposit;
      } else {
        if poll.yes != 0 && Ratio(poll.yes, poll.yes + poll.no) > poll.threshold {
          status := Model.Passed;
        }
        refunded := poll.deposit;
      }
      indexer := indexer - {(Model.InProgress, id)} + {(status, id)};
      poll := poll.(status := status);
      polls := polls[id := poll];
      return Ok((burned, refunded));
    }

    method ExecutePoll(now: nat, id: nat) returns (r: Result<(), Model.Error>)
      modifies `polls, `indexer, `tmpPollId
      ensures match Model.ExecutePoll(old(Store()), now, id)
              case Ok(s) => r.Ok? && Store() == s
              case Err(e) => r == Err(e) && Store() == old(Store())
    {
      if id !in polls {
        return Err(Model.PollMissing);
      }
      var poll := polls[id];
      if poll.status != Model.Passed {
        return Err(Model.NotPassed);
      }
      if poll.endTime + cfg.effectiveDelay > now {
        return Err(Model.DelayNotExpired);
      }
      if !poll.executable {
        return Err(Model.NothingToExecute);
      }
      indexer := indexer - {(Model.Passed, id)} + {(Model.Executed, id)};
      poll := poll.(status := Model.Executed);
      polls := polls[id := poll];
      tmpPollId := id;
      return Ok(());
    }

    /** the reply to a failing message of an executed poll */
    method FailedPoll(id: nat) returns (r: Result<(), Model.Error>)
      modifies `polls, `indexer
      ensures match Model.FailedPoll(old(Store()), id)
              case Ok(s) => r.Ok? && Store() == s
              case Err(e) => r == Err(e) && Store() == old(Store())
    {
      if id !in polls {
        return Err(Model.PollMissing);
      }
      var poll := polls[id];
      indexer := indexer - {(Model.Executed, id)} + {(Model.Failed, id)};
      poll := poll.(status := Model.Failed);
      polls := polls[id := poll];
      return Ok(());
    }

    method CastVote(now: nat, voter: Addr, id: nat, vote: Model.VoteOption, amount: nat, supply: nat)
      returns (r: Result<(), Model.Error>)
      modifies `polls, `voters, `bank
      ensures match Model.CastVote(old(Store()), now, voter, id, vote, amount, supply)
              case Ok(s) => r.Ok? && Store() == s
              case Err(e) => r == Err(e) && Store() == old(Store())
    {
      if id !in polls {
        return Err(Model.PollMissing);
      }
      var poll := polls[id];
      if poll.status != Model.InProgress || now > poll.endTime {
        return Err(Model.NotInProgress);
      }
      if (id, voter) in voters {
        return Err(Model.AlreadyVoted);
      }
      var manager := if voter in bank then bank[voter] else Model.Manager(0, []);
      if manager.deposit < amount {
        return Err(Model.NotEnoughStaked);
      }
      if |manager.locked| >= Model.MAX_POLL_VOTES_PER_USER {
        return Err(Model.TooManyVotes);
      }
      match vote {
        case Yes => poll := poll.(yes := poll.yes + amount);
        case No => poll := poll.(no := poll.no + amount);
        case Abstain => poll := poll.(abstain := poll.abstain + amount);
      }
      var info := Model.VoterInfo(vote, amount);
      manager := manager.(locked := manager.locked + [(id, info)]);
      bank := bank[voter := manager];
      voters := voters[(id, voter) := info];
      if poll.endTime - now < cfg.snapshotPeriod && poll.snapshot.None? {
        poll := poll.(snapshot := Some(supply));
      }
      polls := polls[id := poll];
      return Ok(());
    }

    method SnapshotPoll(now: nat, id: nat, supply: nat) returns (r: Result<(), Model.Error>)
      modifies `polls
      ensures match Model.SnapshotPoll(old(Store()), now, id, supply)
              case Ok(s) => r.Ok? && Store() == s
              case Err(e) => r == Err(e) && Store() == old(Store())
    {
      if id !in polls {
        return Err(Model.PollMissing);
      }
      var poll := polls[id];
      if poll.status != Model.InProgress {
        return Err(Model.NotInProgress);
      }
      if poll.endTime < now {
        return Err(Model.ClockUnderflow);
      }
      if poll.endTime - now > cfg.snapshotPeriod {
        return Err(Model.TooEarlyToSnapshot);
      }
      if poll.snapshot.Some? {
        return Err(Model.AlreadySnapshot);
      }
      poll := poll.(snapshot := Some(supply));
      polls := polls[id := poll];
      return Ok(());
    }

    // ----- voting tokens -----

    method StakeVotingTokens(sender: Addr, amount: nat) returns (r: Result<(), Model.Error>)
      modifies `bank
      ensures match Model.StakeVotingTokens(old(Store()), sender, amount)
              case Ok(s) => r.Ok? && Store() == s
              case Err(e) => r == Err(e) && Store() == old(Store())
    {
      if amount == 0 {
        return Err(Model.NoFunds);
      }
      var manager := if sender in bank then bank[sender] else Model.Manager(0, []);
      manager := manager.(deposit := manager.deposit + amount);
      bank := bank[sender := manager];
      return Ok(());
    }

    /** the filter of `compute_locked_balance`: drops the votes on polls that are over, lists
        them, and takes the maximum of the others */
    method CleanLocks(voter: Addr, locked: seq<(nat, Model.VoterInfo)>) returns (maxLocked: nat, toRemove: seq<nat>)
      requires forall e | e in locked :: e.0 in polls
      modifies `voters
      ensures voters == Model.DropVotes(polls, old(voters), voter, locked)
      ensures maxLocked == Model.MaxLocked(Model.Live(polls, locked))
      ensures forall e | e in locked :: e.0 in toRemove <==> polls[e.0].status != Model.InProgress
    {
      maxLocked, toRemove := 0, [];
      assert locked[0..] == locked;
      for i := 0 to |locked|
        invariant Model.DropVotes(polls, voters, voter, locked[i..]) == Model.DropVotes(polls, old(voters), voter, locked)
        invariant Max(maxLocked, Model.MaxLocked(Model.Live(polls, locked[i..])))
                  == Model.MaxLocked(Model.Live(polls, locked))
        invariant forall e | e in locked[..i] :: e.0 in toRemove <==> polls[e.0].status != Model.InProgress
        invariant forall id | id in toRemove :: id in polls && polls[id].status != Model.InProgress
      {
        var entry := locked[i];
        assert entry in locked;
        assert locked[i..][1..] == locked[i + 1..];
        assert locked[..i + 1] == locked[..i] + [entry];
        ghost var rest := Model.Live(polls, locked[i + 1..]);
        assert ([entry] + rest)[1..] == rest;
        if polls[entry.0].status != Model.InProgress {
          voters := voters - {(entry.0, voter)};
          toRemove := toRemove + [entry.0];
        } else {
          maxLocked := Max(maxLocked, entry.1.balance);
        }
      }
      assert locked[..|locked|] == locked;
    }

    /** its `retain` */
    static method Retain(locked: seq<(nat, Model.VoterInfo)>, toRemove: seq<nat>, ghost polls: Model.Polls)
      returns (kept: seq<(nat, Model.VoterInfo)>)
      requires forall e | e in locked :: e.0 in toRemove <==> !Model.Running(polls, e.0)
      ensures kept == Model.Live(polls, locked)
    {
      kept := [];
      assert locked[0..] == locked;
      for i := 0 to |locked|
        invariant kept + Model.Live(polls, locked[i..]) == Model.Live(polls, locked)
      {
        assert locked[i] in locked;
        assert locked[i..][1..] == locked[i + 1..];
        ghost var rest := Model.Live(polls, locked[i + 1..]);
        if locked[i].0 !in toRemove {
          assert kept + ([locked[i]] + rest) == kept + [locked[i]] + rest;
          kept := kept + [locked[i]];
        }
      }
      assert kept + [] == kept;
    }

    /** Returns the xPRISM sent. */
    method WithdrawVotingTokens(sender: Addr, amount: Option<nat>) returns (r: Result<nat, Model.Error>)
      modifies `voters, `bank
      ensures match Model.WithdrawVotingTokens(old(Store()), sender, amount)
              case Ok(o) => r == Ok(o.sent) && Store() == o.store
              case Err(e) => r == Err(e) && Store() == old(Store())
    {
      hide Model.MaxLocked, Model.Live, Model.DropVotes;
      if sender !in bank {
        return Err(Model.NoVotingInformation);
      }
      var manager := bank[sender];
      if exists i | 0 <= i < |manager.locked| :: manager.locked[i].0 !in polls {
        return Err(Model.PollMissing);
      }
      var votersBefore := voters;
      var maxLocked, toRemove := CleanLocks(sender, manager.locked);
      var kept := Retain(manager.locked, toRemove, polls);
      if manager.deposit < maxLocked {
        voters := votersBefore;
        return Err(Model.DepositUnderflow);
      }
      var withdrawable := manager.deposit - maxLocked;
      var sent := if amount.Some? then amount.value else withdrawable;
      if sent > withdrawable {
        voters := votersBefore;
        return Err(Model.WithdrawTooMuch);
      }
      manager := Model.Manager(manager.deposit - sent, kept);
      bank := bank[sender := manager];
      return Ok(sent);
    }

    // ----- xPRISM -----

    /** Returns the xPRISM to mint. */
    method MintXprism(amount: nat, prismBalance: nat, supply: nat) returns (r: Result<nat, Model.Error>)
      ensures r == Model.MintXprism(Store(), amount, prismBalance, supply)
    {
      if prismBalance < amount + pendingPrism || supply < pendingXprism {
        return Err(Model.PendingUnderflow);
      }
      var prism := prismBalance - amount - pendingPrism;
      var xprism := supply - pendingXprism;
      if prism == 0 {
        return Ok(amount);
      }
      return Ok(MultiplyRatio(amount, xprism, prism));
    }

    method RedeemXprism(now: nat, sender: Addr, amount: nat, prismBalance: nat, supply: nat)
      returns (r: Result<(), Model.Error>)
      modifies `orders, `pendingXprism, `pendingPrism
      ensures match Model.RedeemXprism(old(Store()), now, sender, amount, prismBalance, supply)
              case Ok(s) => r.Ok? && Store() == s
              case Err(e) => r == Err(e) && Store() == old(Store())
    {
      if prismBalance < pendingPrism || supply < pendingXprism {
        return Err(Model.PendingUnderflow);
      }
      var prism := prismBalance - pendingPrism;
      var xprism := supply - pendingXprism;
      if xprism == 0 {
        return Err(Model.DivideByZero);
      }
      var returned := MultiplyRatio(amount, prism, xprism);
      var endTime := now + cfg.redemptionTime;
      if (sender, endTime) in orders {
        return Err(Model.OncePerBlock);
      }
      orders := orders[(sender, endTime) := Model.Order(amount, returned)];
      pendingXprism, pendingPrism := pendingXprism + amount, pendingPrism + returned;
      return Ok(());
    }

    /** the first loop of `compute_withdrawable`: adds up the orders that are due */
    method CollectDue(now: nat, sender: Addr) returns (xprism: nat, prism: nat, toDelete: seq<nat>)
      ensures toDelete == Due(Model.PagedOrders(orders, sender), now)
      ensures xprism == Model.SumXprism(orders, sender, toDelete)
      ensures prism == Model.SumPrism(orders, sender, toDelete)
    {
      hide Model.PagedOrders, Model.OrderAt;
      xprism, prism, toDelete := 0, 0, [];
      var times := Model.PagedOrders(orders, sender);
      ghost var due := Due(times, now);
      var i := 0;
      assert times[0..] == times;
      while i < |times| && times[i] <= now
        invariant i <= |times|
        invariant toDelete + Due(times[i..], now) == due
        invariant xprism + Model.SumXprism(orders, sender, Due(times[i..], now)) == Model.SumXprism(orders, sender, due)
        invariant prism + Model.SumPrism(orders, sender, Due(times[i..], now)) == Model.SumPrism(orders, sender, due)
      {
        ghost var rest := Due(times[i + 1..], now);
        assert times[i..][1..] == times[i + 1..];
        assert ([times[i]] + rest)[1..] == rest;
        assert toDelete + ([times[i]] + rest) == toDelete + [times[i]] + rest;
        xprism := xprism + Model.OrderAt(orders, (sender, times[i])).xprism;
        prism := prism + Model.OrderAt(orders, (sender, times[i])).prism;
        toDelete := toDelete + [times[i]];
        i := i + 1;
      }
      assert Due(times[i..], now) == [];
      assert toDelete == due;
    }

    method RemoveOrders(sender: Addr, toDelete: seq<nat>)
      modifies `orders
      ensures orders == Model.RemoveOrders(old(orders), sender, toDelete)
    {
      assert toDelete[0..] == toDelete;
      for i := 0 to |toDelete|
        invariant Model.RemoveOrders(orders, sender, toDelete[i..]) == Model.RemoveOrders(old(orders), sender, toDelete)
      {
        assert toDelete[i..][1..] == toDelete[i + 1..];
        orders := orders - {(sender, toDelete[i])};
      }
    }

    /** Returns the xPRISM burned and the PRISM sent. */
    method ClaimRedeemedPrism(now: nat, sender: Addr) returns (r: Result<(nat, nat), Model.Error>)
      modifies `orders, `pendingXprism, `pendingPrism
      ensures match Model.ClaimRedeemed(old(Store()), now, sender)
              case Ok(o) => r == Ok((o.xprism, o.prism)) && Store() == o.store
              case Err(e) => r == Err(e) && Store() == old(Store())
    {
      hide Model.PagedOrders, Model.SumXprism, Model.SumPrism, Model.RemoveOrders, Due;
      var ordersBefore := orders;
      var xprism, prism, toDelete := CollectDue(now, sender);
      RemoveOrders(sender, toDelete);
      if pendingXprism < xprism || pendingPrism < prism {
        orders := ordersBefore;
        return Err(Model.PendingUnderflow);
      }
      if prism == 0 && xprism == 0 {
        orders := ordersBefore;
        return Err(Model.NothingToClaim);
      }
      pendingXprism, pendingPrism := pendingXprism - xprism, pendingPrism - prism;
      return Ok((xprism, prism));
    }
  }
}
