/** Governance on values: xPRISM is staked to vote, deposited to open polls, and redeemed
    for PRISM. */
module GovModel {
  import opened Addresses
  import opened Results
  import opened FixedPoint
  import opened Sums

  datatype Status = InProgress | Passed | Rejected | Executed | Failed

  datatype VoteOption = Yes | No | Abstain

  datatype VoterInfo = VoterInfo(vote: VoteOption, balance: nat)

  /** `VotingTokenManager`: a deposit, and the votes it backs */
  datatype Manager = Manager(deposit: nat, locked: seq<(nat, VoterInfo)>)

  datatype Poll = Poll(
    id: nat,
    creator: Addr,
    status: Status,
    yes: nat,
    no: nat,
    abstain: nat,
    endTime: nat,
    executable: bool,
    deposit: nat,
    snapshot: Option<nat>,
    quorum: nat,
    threshold: nat)

  datatype Config = Config(
    quorum: nat,
    threshold: nat,
    votingPeriod: nat,
    effectiveDelay: nat,
    proposalDeposit: nat,
    snapshotPeriod: nat,
    redemptionTime: nat)

  type Polls = map<nat, Poll>

  /** poll, then voter */
  type VoterKey = (nat, Addr)

  type Voters = map<VoterKey, VoterInfo>

  type Bank = map<Addr, Manager>

  /** redeemer, then return time */
  type OrderKey = (Addr, nat)

  /** xPRISM to burn and PRISM to return */
  datatype Order = Order(xprism: nat, prism: nat)

  type Orders = map<OrderKey, Order>

  datatype Storage = Storage(
    cfg: Config,
    lastPollId: nat,
    tmpPollId: nat,
    polls: Polls,
    indexer: set<(Status, nat)>,
    voters: Voters,
    bank: Bank,
    orders: Orders,
    pendingXprism: nat,
    pendingPrism: nat)

  datatype Error =
    | InvalidConfig
    | DepositTooSmall
    | PollMissing
    | NotInProgress
    | NotExpired
    | NotPassed
    | DelayNotExpired
    | NothingToExecute
    | AlreadyVoted
    | NotEnoughStaked
    | TooManyVotes
    | TooEarlyToSnapshot
    | AlreadySnapshot
    | ClockUnderflow
    | NoFunds
    | NoVotingInformation
    | DepositUnderflow
    | WithdrawTooMuch
    | PendingUnderflow
    | DivideByZero
    | OncePerBlock
    | NothingToClaim

  function Instantiate(cfg: Config): Result<Storage, Error> {
    if cfg.quorum > E || cfg.threshold > E then Err(InvalidConfig)
    else Ok(Storage(cfg, 1, 0, map[], {}, map[], map[], map[], 0, 0))
  }

  // ----- polls -----

  function CreatePoll(s: Storage, now: nat, creator: Addr, deposit: nat, executable: bool): Result<Storage, Error> {
    if deposit < s.cfg.proposalDeposit then Err(DepositTooSmall)
    else
      var id := s.lastPollId;
      var poll := Poll(id, creator, InProgress, 0, 0, 0, now + s.cfg.votingPeriod, executable, deposit, None,
                       s.cfg.quorum, s.cfg.threshold);
      Ok(s.(lastPollId := id + 1, polls := s.polls[id := poll], indexer := s.indexer + {(InProgress, id)}))
  }

  /** moves a poll to another status, in its record and in the index */
  function SetStatus(s: Storage, id: nat, from: Status, poll: Poll): Storage {
    s.(polls := s.polls[id := poll], indexer := s.indexer - {(from, id)} + {(poll.status, id)})
  }

  function Tallied(poll: Poll): nat {
    poll.yes + poll.no + poll.abstain
  }

  /** the quorum is missed when nobody voted, or too few of the snapshot did */
  predicate QuorumMissed(poll: Poll, supply: nat) {
    || Tallied(poll) == 0
    || (if supply == 0 then 0 else Ratio(Tallied(poll), supply)) < poll.quorum
  }

  predicate ThresholdReached(poll: Poll) {
    poll.yes != 0 && Ratio(poll.yes, poll.yes + poll.no) > poll.threshold
  }

  datatype Ending = Ending(store: Storage, burned: nat, refunded: nat)

  function EndPoll(s: Storage, now: nat, id: nat, supply: nat): Result<Ending, Error> {
    if id !in s.polls then Err(PollMissing)
    else
      var poll := s.polls[id];
      if poll.status != InProgress then Err(NotInProgress)
      else if poll.endTime > now then Err(NotExpired)
      else
        var total := if poll.snapshot.Some? then poll.snapshot.value else supply;
        var missed := QuorumMissed(poll, total);
        var status := if !missed && ThresholdReached(poll) then Passed else Rejected;
        Ok(Ending(
          SetStatus(s, id, InProgress, poll.(status := status, snapshot := Some(total))),
          if missed then poll.deposit else 0,
          if missed then 0 else poll.deposit))
  }

  function ExecutePoll(s: Storage, now: nat, id: nat): Result<Storage, Error> {
    if id !in s.polls then Err(PollMissing)
    else
      var poll := s.polls[id];
      if poll.status != Passed then Err(NotPassed)
      else if poll.endTime + s.cfg.effectiveDelay > now then Err(DelayNotExpired)
      else if !poll.executable then Err(NothingToExecute)
      else Ok(SetStatus(s, id, Passed, poll.(status := Executed)).(tmpPollId := id))
  }

  /** the reply to a failing poll message */
  function FailedPoll(s: Storage, id: nat): Result<Storage, Error> {
    if id !in s.polls then Err(PollMissing)
    else Ok(SetStatus(s, id, Executed, s.polls[id].(status := Failed)))
  }

  const MAX_POLL_VOTES_PER_USER: nat := 20

  function ManagerOf(bank: Bank, account: Addr): Manager {
    if account in bank then bank[account] else Manager(0, [])
  }

  function AddVote(poll: Poll, vote: VoteOption, amount: nat): Poll {
    match vote
    case Yes => poll.(yes := poll.yes + amount)
    case No => poll.(no := poll.no + amount)
    case Abstain => poll.(abstain := poll.abstain + amount)
  }

  function CastVote(s: Storage, now: nat, voter: Addr, id: nat, vote: VoteOption, amount: nat, supply: nat)
    : Result<Storage, Error>
  {
    if id !in s.polls then Err(PollMissing)
    else
      var poll, manager := s.polls[id], ManagerOf(s.bank, voter);
      if poll.status != InProgress || now > poll.endTime then Err(NotInProgress)
      else if (id, voter) in s.voters then Err(AlreadyVoted)
      else if manager.deposit < amount then Err(NotEnoughStaked)
      else if |manager.locked| >= MAX_POLL_VOTES_PER_USER then Err(TooManyVotes)
      else
        var info := VoterInfo(vote, amount);
        var tallied := AddVote(poll, vote, amount);
        var snapshot :=
          if poll.endTime - now < s.cfg.snapshotPeriod && poll.snapshot.None? then Some(supply) else poll.snapshot;
        Ok(s.(
          bank := s.bank[voter := manager.(locked := manager.locked + [(id, info)])],
          voters := s.voters[(id, voter) := info],
          polls := s.polls[id := tallied.(snapshot := snapshot)]))
  }

  function SnapshotPoll(s: Storage, now: nat, id: nat, supply: nat): Result<Storage, Error> {
    if id !in s.polls then Err(PollMissing)
    else
      var poll := s.polls[id];
      if poll.status != InProgress then Err(NotInProgress)
      else if poll.endTime < now then Err(ClockUnderflow)
      else if poll.endTime - now > s.cfg.snapshotPeriod then Err(TooEarlyToSnapshot)
      else if poll.snapshot.Some? then Err(AlreadySnapshot)
      else Ok(s.(polls := s.polls[id := poll.(snapshot := Some(supply))]))
  }

  // ----- voting tokens -----

  function StakeVotingTokens(s: Storage, sender: Addr, amount: nat): Result<Storage, Error> {
    if amount == 0 then Err(NoFunds)
    else
      var manager := ManagerOf(s.bank, sender);
      Ok(s.(bank := s.bank[sender := manager.(deposit := manager.deposit + amount)]))
  }

  predicate Running(polls: Polls, id: nat) {
    id in polls && polls[id].status == InProgress
  }

  /** the lock entries of polls in progress */
  function Live(polls: Polls, locked: seq<(nat, VoterInfo)>): seq<(nat, VoterInfo)> {
    if locked == [] then []
    else if Running(polls, locked[0].0) then [locked[0]] + Live(polls, locked[1..])
    else Live(polls, locked[1..])
  }

  function MaxLocked(locked: seq<(nat, VoterInfo)>): nat {
    if locked == [] then 0 else Max(locked[0].1.balance, MaxLocked(locked[1..]))
  }

  /** the voter records of polls no longer in progress are dropped */
  function DropVotes(polls: Polls, voters: Voters, voter: Addr, locked: seq<(nat, VoterInfo)>): Voters {
    if locked == [] then voters
    else
      DropVotes(polls, if Running(polls, locked[0].0) then voters else voters - {(locked[0].0, voter)},
                voter, locked[1..])
  }

  datatype Withdrawal = Withdrawal(store: Storage, sent: nat)

  function WithdrawVotingTokens(s: Storage, sender: Addr, amount: Option<nat>): Result<Withdrawal, Error> {
    if sender !in s.bank then Err(NoVotingInformation)
    else
      var manager := s.bank[sender];
      if exists i | 0 <= i < |manager.locked| :: manager.locked[i].0 !in s.polls then Err(PollMissing)
      else
        var live := Live(s.polls, manager.locked);
        var locked := MaxLocked(live);
        if manager.deposit < locked then Err(DepositUnderflow)
        else
          var withdrawable := manager.deposit - locked;
          var sent := if amount.Some? then amount.value else withdrawable;
          if sent > withdrawable then Err(WithdrawTooMuch)
          else
            Ok(Withdrawal(
              s.(bank := s.bank[sender := Manager(manager.deposit - sent, live)],
                 voters := DropVotes(s.polls, s.voters, sender, manager.locked)),
              sent))
  }

  // ----- xPRISM -----

  /** what a deposit of PRISM mints; the balance already includes the deposit */
  function MintXprism(s: Storage, amount: nat, prismBalance: nat, supply: nat): Result<nat, Error> {
    if prismBalance < amount + s.pendingPrism || supply < s.pendingXprism then Err(PendingUnderflow)
    else
      var prism, xprism := prismBalance - amount - s.pendingPrism, supply - s.pendingXprism;
      Ok(if prism == 0 then amount else MultiplyRatio(amount, xprism, prism))
  }

  function RedeemXprism(s: Storage, now: nat, sender: Addr, amount: nat, prismBalance: nat, supply: nat)
    : Result<Storage, Error>
  {
    if prismBalance < s.pendingPrism || supply < s.pendingXprism then Err(PendingUnderflow)
    else
      var prism, xprism := prismBalance - s.pendingPrism, supply - s.pendingXprism;
      if xprism == 0 then Err(DivideByZero)
      else
        var returned := MultiplyRatio(amount, prism, xprism);
        var key := (sender, now + s.cfg.redemptionTime);
        if key in s.orders then Err(OncePerBlock)
        else Ok(s.(
          orders := s.orders[key := Order(amount, returned)],
          pendingXprism := s.pendingXprism + amount,
          pendingPrism := s.pendingPrism + returned))
  }

  const MAX_ORDER_WITHDRAW_PER_TX: nat := 50

  function OrderAt(orders: Orders, key: OrderKey): Order {
    if key in orders then orders[key] else Order(0, 0)
  }

  function PagedOrders(orders: Orders, account: Addr): seq<nat> {
    Take(Ascending(set k | k in orders.Keys && k.0 == account :: k.1), MAX_ORDER_WITHDRAW_PER_TX)
  }

  function SumXprism(orders: Orders, account: Addr, times: seq<nat>): nat {
    if times == [] then 0 else OrderAt(orders, (account, times[0])).xprism + SumXprism(orders, account, times[1..])
  }

  function SumPrism(orders: Orders, account: Addr, times: seq<nat>): nat {
    if times == [] then 0 else OrderAt(orders, (account, times[0])).prism + SumPrism(orders, account, times[1..])
  }

  function RemoveOrders(orders: Orders, account: Addr, times: seq<nat>): Orders {
    if times == [] then orders else RemoveOrders(orders - {(account, times[0])}, account, times[1..])
  }

  datatype Claim = Claim(store: Storage, xprism: nat, prism: nat)

  /** `claim_redeemed_prism` with `compute_withdrawable` */
  function ClaimRedeemed(s: Storage, now: nat, sender: Addr): Result<Claim, Error> {
    var due := Due(PagedOrders(s.orders, sender), now);
    var xprism, prism := SumXprism(s.orders, sender, due), SumPrism(s.orders, sender, due);
    if s.pendingXprism < xprism || s.pendingPrism < prism then Err(PendingUnderflow)
    else if prism == 0 && xprism == 0 then Err(NothingToClaim)
    else Ok(Claim(
      s.(orders := RemoveOrders(s.orders, sender, due),
         pendingXprism := s.pendingXprism - xprism,
         pendingPrism := s.pendingPrism - prism),
      xprism, prism))
  }

  function UpdateConfig(s: Storage, cfg: Config): Result<Storage, Error> {
    if cfg.quorum > E || cfg.threshold > E then Err(InvalidConfig) else Ok(s.(cfg := cfg))
  }
}
