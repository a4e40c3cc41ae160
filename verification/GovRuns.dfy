/** Every run of governance: one xPRISM balance backs votes, poll deposits and redemptions;
    polls only move forward; the rate never falls. */
module GovRuns {
  import opened Addresses
  import opened Results
  import opened FixedPoint
  import opened Sums
  import opened GovModel
  import opened GovPolls
  import opened GovVotes
  import opened GovRedemption

  /** The storage; the xPRISM and PRISM gov holds and the xPRISM supply; and the poll
      deposits received, burned and refunded so far. */
  datatype World = World(
    store: Storage, xprism: nat, prism: nat, supply: nat, received: nat, burned: nat, refunded: nat)

  datatype Op =
    | Stake(sender: Addr, amount: nat)
    | Unstake(sender: Addr, part: Option<nat>)
    | Open(creator: Addr, amount: nat, executable: bool)
    | Vote(voter: Addr, id: nat, option: VoteOption, amount: nat)
    | Snapshot(id: nat)
    | End(id: nat)
    | Execute(id: nat, succeeds: bool)
    | Mint(amount: nat, toGov: bool)
    | Redeem(sender: Addr, amount: nat)
    | Claim(sender: Addr)
    | Configure(cfg: Config)
    | GiveXprism(amount: nat)
    | GivePrism(amount: nat)
    | BurnOutside(amount: nat)

  /** xPRISM that is not gov's to hold */
  function Outside(w: World): int {
    w.supply - w.xprism
  }

  /** gov can send or burn no more than it holds */
  function SendXprism(w: World, s: Storage, amount: nat): World {
    if w.xprism < amount then w else w.(store := s, xprism := w.xprism - amount)
  }

  /** One transaction at time `now`.  A failing call changes nothing, and so does one that
      would move tokens nobody has.  The message of an executed poll moves none of gov's
      tokens; if it fails, the poll is marked. */
  function Step(w: World, now: nat, op: Op): World {
    var s := w.store;
    match op
    case Stake(sender, amount) =>
      if Outside(w) < amount then w else
      (match StakeVotingTokens(s, sender, amount)
       case Ok(s') => w.(store := s', xprism := w.xprism + amount)
       case Err(_) => w)
    case Unstake(sender, part) =>
      (match WithdrawVotingTokens(s, sender, part)
       case Ok(o) => SendXprism(w, o.store, o.sent)
       case Err(_) => w)
    case Open(creator, amount, executable) =>
      if Outside(w) < amount then w else
      (match CreatePoll(s, now, creator, amount, executable)
       case Ok(s') => w.(store := s', xprism := w.xprism + amount, received := w.received + amount)
       case Err(_) => w)
    case Vote(voter, id, option, amount) =>
      (match CastVote(s, now, voter, id, option, amount, w.supply)
       case Ok(s') => w.(store := s')
       case Err(_) => w)
    case Snapshot(id) =>
      (match SnapshotPoll(s, now, id, w.supply)
       case Ok(s') => w.(store := s')
       case Err(_) => w)
    case End(id) =>
      (match EndPoll(s, now, id, w.supply)
       case Ok(o) =>
         if w.xprism < o.burned + o.refunded || w.supply < o.burned then w else
         w.(store := o.store, xprism := w.xprism - o.burned - o.refunded, supply := w.supply - o.burned,
            burned := w.burned + o.burned, refunded := w.refunded + o.refunded)
       case Err(_) => w)
    case Execute(id, succeeds) =>
      (match ExecutePoll(s, now, id)
       case Ok(s') =>
         if succeeds then w.(store := s') else
         (match FailedPoll(s', s'.tmpPollId)
          case Ok(s'') => w.(store := s'')
          case Err(_) => w)
       case Err(_) => w)
    case Mint(amount, toGov) =>
      (match MintXprism(s, amount, w.prism + amount, w.supply)
       case Ok(minted) =>
         w.(prism := w.prism + amount, supply := w.supply + minted,
            xprism := if toGov then w.xprism + minted else w.xprism)
       case Err(_) => w)
    case Redeem(sender, amount) =>
      if Outside(w) < amount then w else
      (match RedeemXprism(s, now, sender, amount, w.prism, w.supply)
       case Ok(s') => w.(store := s', xprism := w.xprism + amount)
       case Err(_) => w)
    case Claim(sender) =>
      (match ClaimRedeemed(s, now, sender)
       case Ok(o) =>
         if w.xprism < o.xprism || w.supply < o.xprism || w.prism < o.prism then w else
         w.(store := o.store, xprism := w.xprism - o.xprism, supply := w.supply - o.xprism,
            prism := w.prism - o.prism)
       case Err(_) => w)
    case Configure(cfg) =>
      (match UpdateConfig(s, cfg)
       case Ok(s') => w.(store := s')
       case Err(_) => w)
    case GiveXprism(amount) => if Outside(w) < amount then w else w.(xprism := w.xprism + amount)
    case GivePrism(amount) => w.(prism := w.prism + amount)
    case BurnOutside(amount) => if Outside(w) < amount || w.supply < amount then w else w.(supply := w.supply - amount)
  }

  datatype Tx = Tx(now: nat, op: Op)

  function Run(w: World, txs: seq<Tx>): World
    decreases |txs|
  {
    if txs == [] then w else Run(Step(w, txs[0].now, txs[0].op), txs[1..])
  }

  // ----- the invariant -----

  /** gov holds what it owes: deposits, deposits of polls in progress, and pending orders */
  ghost predicate Custody(w: World) {
    && DepositSum(w.store.bank) + PollDeposits(w.store.polls) + w.store.pendingXprism <= w.xprism <= w.supply
    && w.store.pendingPrism <= w.prism
    && w.received == w.burned + w.refunded + PollDeposits(w.store.polls)
  }

  ghost predicate Sound(w: World) {
    PollsInv(w.store) && VotesInv(w.store) && OrdersInv(w.store) && Custody(w)
  }

  lemma SumsNonneg(w: World)
    requires OrdersInv(w.store)
    ensures DepositSum(w.store.bank) >= 0 && PollDeposits(w.store.polls) >= 0
  {
    SumNonneg(w.store.bank.Keys, DepositPart(w.store.bank));
    SumNonneg(w.store.polls.Keys, PollDeposit(w.store.polls));
  }

  /** polls look at their own parts of the storage only */
  lemma PollsLookAt(s: Storage, s': Storage)
    requires PollsInv(s)
    requires s'.polls == s.polls && s'.lastPollId == s.lastPollId && s'.indexer == s.indexer
    ensures PollsInv(s')
  {
  }

  lemma VotesLookAt(s: Storage, s': Storage)
    requires VotesInv(s) && s'.polls == s.polls && s'.bank == s.bank && s'.voters == s.voters
    ensures VotesInv(s')
  {
    hide TallyRight;
    forall a | a in s'.bank ensures AccountLocks(s', a) {
      assert AccountLocks(s, a);
    }
    forall key | key in s'.voters ensures VoteLocked(s', key) {
      assert VoteLocked(s, key);
    }
  }

  lemma OrdersLookAt(s: Storage, s': Storage)
    requires OrdersInv(s)
    requires s'.orders == s.orders && s'.pendingXprism == s.pendingXprism && s'.pendingPrism == s.pendingPrism
    ensures OrdersInv(s')
  {
  }

  // ----- one transaction -----

  lemma StakeSound(w: World, now: nat, op: Op)
    requires Sound(w) && op.Stake?
    ensures Sound(Step(w, now, op)) && PollsMove(w.store.polls, Step(w, now, op).store.polls)
  {
    hide PollsInv, VotesInv, OrdersInv, DepositSum, PollDeposits;
    var s := w.store;
    StandStill(s.polls);
    if StakeVotingTokens(s, op.sender, op.amount).Ok? {
      var s' := StakeVotingTokens(s, op.sender, op.amount).value;
      StakeKeeps(s, op.sender, op.amount);
      PollsLookAt(s, s');
      OrdersLookAt(s, s');
      DepositMoved(s.bank, op.sender, s'.bank[op.sender]);
    }
  }

  lemma StandStill(polls: Polls)
    ensures PollsMove(polls, polls)
  {
  }

  lemma UnstakeSound(w: World, now: nat, op: Op)
    requires Sound(w) && op.Unstake?
    ensures Sound(Step(w, now, op)) && PollsMove(w.store.polls, Step(w, now, op).store.polls)
  {
    hide PollsInv, VotesInv, OrdersInv, DepositSum, PollDeposits, WithdrawVotingTokens, MaxLocked, Live, DropVotes;
    var s := w.store;
    StandStill(s.polls);
    if WithdrawVotingTokens(s, op.sender, op.part).Ok? {
      var o := WithdrawVotingTokens(s, op.sender, op.part).value;
      WithdrawForm(s, op.sender, op.part);
      WithdrawKeeps(s, op.sender, op.part);
      PollsLookAt(s, o.store);
      OrdersLookAt(s, o.store);
      DepositMoved(s.bank, op.sender, o.store.bank[op.sender]);
    }
  }

  lemma OpenSound(w: World, now: nat, op: Op)
    requires Sound(w) && op.Open?
    ensures Sound(Step(w, now, op)) && PollsMove(w.store.polls, Step(w, now, op).store.polls)
  {
    hide PollsInv, VotesInv, OrdersInv, DepositSum, PollDeposits, PollsMove;
    var s := w.store;
    StandStill(s.polls);
    if CreatePoll(s, now, op.creator, op.amount, op.executable).Ok? {
      var s' := CreatePoll(s, now, op.creator, op.amount, op.executable).value;
      CreateKeeps(s, now, op.creator, op.amount, op.executable);
      DepositMoves(s.polls, s.lastPollId, s'.polls[s.lastPollId]);
      PollsChange(s, s');
      OrdersLookAt(s, s');
    }
  }

  lemma VoteSound(w: World, now: nat, op: Op)
    requires Sound(w) && op.Vote?
    ensures Sound(Step(w, now, op)) && PollsMove(w.store.polls, Step(w, now, op).store.polls)
  {
    hide PollsInv, VotesInv, OrdersInv, DepositSum, PollDeposits, PollsMove, CastVote;
    var s := w.store;
    StandStill(s.polls);
    if CastVote(s, now, op.voter, op.id, op.option, op.amount, w.supply).Ok? {
      var s' := CastVote(s, now, op.voter, op.id, op.option, op.amount, w.supply).value;
      CastForm(s, now, op.voter, op.id, op.option, op.amount, w.supply);
      CastKeeps(s, now, op.voter, op.id, op.option, op.amount, w.supply);
      SamePollKeeps(s, op.id, s'.polls[op.id]);
      PollsLookAt(s.(polls := s'.polls), s');
      OrdersLookAt(s, s');
      DepositMoves(s.polls, op.id, s'.polls[op.id]);
      DepositMoved(s.bank, op.voter, s'.bank[op.voter]);
    }
  }

  lemma SnapshotSound(w: World, now: nat, op: Op)
    requires Sound(w) && op.Snapshot?
    ensures Sound(Step(w, now, op)) && PollsMove(w.store.polls, Step(w, now, op).store.polls)
  {
    hide PollsInv, VotesInv, OrdersInv, DepositSum, PollDeposits, PollsMove;
    var s := w.store;
    StandStill(s.polls);
    if SnapshotPoll(s, now, op.id, w.supply).Ok? {
      var s' := SnapshotPoll(s, now, op.id, w.supply).value;
      SnapshotKeeps(s, now, op.id, w.supply);
      PollsChange(s, s');
      OrdersLookAt(s, s');
      DepositMoves(s.polls, op.id, s'.polls[op.id]);
    }
  }

  lemma EndSound(w: World, now: nat, op: Op)
    requires Sound(w) && op.End?
    ensures Sound(Step(w, now, op)) && PollsMove(w.store.polls, Step(w, now, op).store.polls)
  {
    hide PollsInv, VotesInv, OrdersInv, DepositSum, PollDeposits, PollsMove, EndPoll;
    var s := w.store;
    StandStill(s.polls);
    if EndPoll(s, now, op.id, w.supply).Ok? {
      var o := EndPoll(s, now, op.id, w.supply).value;
      EndPollOutcome(s, now, op.id, w.supply);
      EndNotRunning(s, now, op.id, w.supply);
      PollsChange(s, o.store);
      OrdersLookAt(s, o.store);
      DepositMoves(s.polls, op.id, o.store.polls[op.id]);
      SumsNonneg(w);
      SumsNonneg(w.(store := o.store));
    }
  }

  lemma EndNotRunning(s: Storage, now: nat, id: nat, supply: nat)
    requires EndPoll(s, now, id, supply).Ok?
    ensures var o := EndPoll(s, now, id, supply).value;
            Running(s.polls, id) && !Running(o.store.polls, id)
  {
  }

  lemma ExecuteSound(w: World, now: nat, op: Op)
    requires Sound(w) && op.Execute?
    ensures Sound(Step(w, now, op)) && PollsMove(w.store.polls, Step(w, now, op).store.polls)
  {
    hide PollsInv, VotesInv, OrdersInv, DepositSum, PollDeposits, PollsMove, ExecutePoll, FailedPoll;
    var s := w.store;
    StandStill(s.polls);
    if ExecutePoll(s, now, op.id).Ok? {
      ExecuteOutcome(s, now, op.id);
      var s' := ExecutePoll(s, now, op.id).value;
      var f := FailedPoll(s', s'.tmpPollId).value;
      var last := if op.succeeds then s' else f;
      assert last.polls == s.polls[op.id := last.polls[op.id]];
      PollsChange(s, last);
      OrdersLookAt(s, last);
      DepositMoves(s.polls, op.id, last.polls[op.id]);
    }
  }

  lemma MintSound(w: World, now: nat, op: Op)
    requires Sound(w) && op.Mint?
    ensures Sound(Step(w, now, op)) && PollsMove(w.store.polls, Step(w, now, op).store.polls)
  {
    hide PollsInv, VotesInv, OrdersInv, DepositSum, PollDeposits, MultiplyRatio;
    StandStill(w.store.polls);
  }

  lemma RedeemSound(w: World, now: nat, op: Op)
    requires Sound(w) && op.Redeem?
    ensures Sound(Step(w, now, op)) && PollsMove(w.store.polls, Step(w, now, op).store.polls)
  {
    hide PollsInv, VotesInv, OrdersInv, DepositSum, PollDeposits, MultiplyRatio, PollsMove;
    var s := w.store;
    StandStill(s.polls);
    if Outside(w) >= op.amount && RedeemXprism(s, now, op.sender, op.amount, w.prism, w.supply).Ok? {
      var s' := RedeemXprism(s, now, op.sender, op.amount, w.prism, w.supply).value;
      SumsNonneg(w);
      RedeemKeeps(s, now, op.sender, op.amount, w.prism, w.supply);
      RedeemKeepsRate(w.prism - s.pendingPrism, w.supply - s.pendingXprism, op.amount);
      PollsLookAt(s, s');
      VotesLookAt(s, s');
    }
  }

  lemma ClaimSound(w: World, now: nat, op: Op)
    requires Sound(w) && op.Claim?
    ensures Sound(Step(w, now, op)) && PollsMove(w.store.polls, Step(w, now, op).store.polls)
  {
    hide PollsInv, VotesInv, OrdersInv, DepositSum, PollDeposits, PollsMove, ClaimRedeemed, SumXprism, SumPrism, DueOrders;
    var s := w.store;
    StandStill(s.polls);
    ClaimExact(s, now, op.sender);
    if ClaimRedeemed(s, now, op.sender).Ok? {
      var o := ClaimRedeemed(s, now, op.sender).value;
      PollsLookAt(s, o.store);
      VotesLookAt(s, o.store);
    }
  }

  lemma OtherSound(w: World, now: nat, op: Op)
    requires Sound(w) && (op.Configure? || op.GiveXprism? || op.GivePrism? || op.BurnOutside?)
    ensures Sound(Step(w, now, op)) && PollsMove(w.store.polls, Step(w, now, op).store.polls)
  {
    hide PollsInv, VotesInv, OrdersInv, DepositSum, PollDeposits, PollsMove;
    var s, s' := w.store, Step(w, now, op).store;
    StandStill(s.polls);
    PollsLookAt(s, s');
    VotesLookAt(s, s');
    OrdersLookAt(s, s');
  }

  /** Every transaction keeps polls, votes, orders and custody, and moves polls forward only. */
  lemma StepSound(w: World, now: nat, op: Op)
    requires Sound(w)
    ensures Sound(Step(w, now, op)) && PollsMove(w.store.polls, Step(w, now, op).store.polls)
  {
    hide Sound, Step, PollsMove;
    match op
    case Stake(_, _) => StakeSound(w, now, op);
    case Unstake(_, _) => UnstakeSound(w, now, op);
    case Open(_, _, _) => OpenSound(w, now, op);
    case Vote(_, _, _, _) => VoteSound(w, now, op);
    case Snapshot(_) => SnapshotSound(w, now, op);
    case End(_) => EndSound(w, now, op);
    case Execute(_, _) => ExecuteSound(w, now, op);
    case Mint(_, _) => MintSound(w, now, op);
    case Redeem(_, _) => RedeemSound(w, now, op);
    case Claim(_) => ClaimSound(w, now, op);
    case Configure(_) => OtherSound(w, now, op);
    case GiveXprism(_) => OtherSound(w, now, op);
    case GivePrism(_) => OtherSound(w, now, op);
    case BurnOutside(_) => OtherSound(w, now, op);
  }

  // ----- results over every run -----

  lemma {:induction false} RunSound(w: World, txs: seq<Tx>)
    requires Sound(w)
    ensures Sound(Run(w, txs)) && PollsMove(w.store.polls, Run(w, txs).store.polls)
    decreases |txs|
  {
    hide Sound, Step, PollsMove;
    if txs == [] {
      StandStill(w.store.polls);
    } else {
      var w1 := Step(w, txs[0].now, txs[0].op);
      StepSound(w, txs[0].now, txs[0].op);
      RunSound(w1, txs[1..]);
      PollsMoveTransitive(w.store.polls, w1.store.polls, Run(w, txs).store.polls);
    }
  }

  /** gov starts with whatever PRISM it was sent and no xPRISM in existence */
  function Start(s: Storage, prism: nat): World {
    World(s, 0, prism, 0, 0, 0, 0)
  }

  lemma StartSound(cfg: Config, prism: nat)
    requires Instantiate(cfg).Ok?
    ensures Sound(Start(Instantiate(cfg).value, prism))
  {
    var s := Instantiate(cfg).value;
    SumZero(s.bank.Keys, DepositPart(s.bank));
    SumZero(s.polls.Keys, PollDeposit(s.polls));
    SumZero(s.orders.Keys, XprismPart(s.orders));
    SumZero(s.orders.Keys, PrismPart(s.orders));
  }

  /** Custody over every run: gov's xPRISM covers all voting deposits, the deposits of all
      polls in progress and all xPRISM waiting to be burned; its PRISM covers all PRISM on
      order; and every poll deposit received was burned, refunded, or is still held for a
      poll in progress. */
  lemma CustodyOverRuns(cfg: Config, prism: nat, txs: seq<Tx>)
    requires Instantiate(cfg).Ok?
    ensures var w := Run(Start(Instantiate(cfg).value, prism), txs);
            && DepositSum(w.store.bank) + PollDeposits(w.store.polls) + XprismOrdered(w.store.orders) <= w.xprism
            && PrismOrdered(w.store.orders) <= w.prism
            && w.received == w.burned + w.refunded + PollDeposits(w.store.polls)
  {
    hide Run, Start, Instantiate, DepositSum, PollDeposits, XprismOrdered, PrismOrdered, PollsInv, VotesInv;
    StartSound(cfg, prism);
    RunSound(Start(Instantiate(cfg).value, prism), txs);
  }

  /** In a sound state no payment of gov fails for lack of tokens: not a withdrawal of
      voting tokens, not the end of a poll, not a claim. */
  lemma PaymentsCovered(w: World, now: nat, sender: Addr, part: Option<nat>, id: nat)
    requires Sound(w)
    ensures WithdrawVotingTokens(w.store, sender, part).Ok? ==>
              WithdrawVotingTokens(w.store, sender, part).value.sent <= w.xprism
    ensures EndPoll(w.store, now, id, w.supply).Ok? ==>
              var o := EndPoll(w.store, now, id, w.supply).value; o.burned + o.refunded <= w.xprism
    ensures ClaimRedeemed(w.store, now, sender).Ok? ==>
              var o := ClaimRedeemed(w.store, now, sender).value; o.xprism <= w.xprism && o.prism <= w.prism
  {
    hide PollsInv, VotesInv, OrdersInv, EndPoll, ClaimRedeemed, WithdrawVotingTokens, MaxLocked, Live, DropVotes,
         SumXprism, SumPrism, DueOrders, PollsMove;
    var s := w.store;
    SumsNonneg(w);
    ClaimExact(s, now, sender);
    if WithdrawVotingTokens(s, sender, part).Ok? {
      WithdrawForm(s, sender, part);
      SumAtLeastOne(s.bank.Keys, sender, DepositPart(s.bank));
    }
    if EndPoll(s, now, id, w.supply).Ok? {
      EndPollOutcome(s, now, id, w.supply);
      SumAtLeastOne(s.polls.Keys, id, PollDeposit(s.polls));
    }
  }

  /** A poll that has ended never runs again, whatever happens later, and keeps its terms:
      its deposit can leave only once. */
  lemma EndedStaysEnded(w: World, txs: seq<Tx>, id: nat)
    requires Sound(w) && id in w.store.polls && w.store.polls[id].status != InProgress
    ensures var polls := Run(w, txs).store.polls;
            && id in polls && polls[id].status != InProgress
            && SameTerms(w.store.polls[id], polls[id])
            && (w.store.polls[id].status == Rejected || w.store.polls[id].status == Failed ==>
                  polls[id].status == w.store.polls[id].status)
  {
    hide Sound, Run, SameTerms;
    RunSound(w, txs);
  }

  /** Vote backing over every run: a running poll's tally is the sum of its voter records and
      at most all voting deposits, and each of its voters has deposited what was voted. */
  lemma VotesBackedOverRuns(cfg: Config, prism: nat, txs: seq<Tx>, id: nat)
    requires Instantiate(cfg).Ok?
    requires Running(Run(Start(Instantiate(cfg).value, prism), txs).store.polls, id)
    ensures var s := Run(Start(Instantiate(cfg).value, prism), txs).store;
            && Tallied(s.polls[id]) == Sum(s.voters.Keys, BalanceOn(s.voters, id))
            && Tallied(s.polls[id]) <= DepositSum(s.bank)
            && (forall a | (id, a) in s.voters :: a in s.bank && s.voters[(id, a)].balance <= s.bank[a].deposit)
  {
    hide Run, Start, Instantiate, DepositSum, PollsInv, TallyRight, AccountLocks, BalanceOn, Running, OrdersInv, Custody;
    StartSound(cfg, prism);
    RunSound(Start(Instantiate(cfg).value, prism), txs);
    TallyBacked(Run(Start(Instantiate(cfg).value, prism), txs).store, id);
  }

  /** In every reachable state locks and voter records match one to one: an account's locked
      votes name different polls, and are exactly its voter records. */
  lemma LocksAreVotesOverRuns(cfg: Config, prism: nat, txs: seq<Tx>, a: Addr)
    requires Instantiate(cfg).Ok?
    ensures var s := Run(Start(Instantiate(cfg).value, prism), txs).store;
            && (a !in s.bank ==> forall key | key in s.voters :: key.1 != a)
            && (a in s.bank ==>
                  var locked := s.bank[a].locked;
                  && (forall i, j | 0 <= i < j < |locked| :: locked[i].0 != locked[j].0)
                  && (forall id, info :: (id, info) in locked <==> (id, a) in s.voters && s.voters[(id, a)] == info))
  {
    hide Run, Start, Instantiate, PollsInv, OrdersInv, Custody, TallyRight;
    StartSound(cfg, prism);
    RunSound(Start(Instantiate(cfg).value, prism), txs);
    LocksAreVotes(Run(Start(Instantiate(cfg).value, prism), txs).store, a);
  }

  lemma LocksAreVotes(s: Storage, a: Addr)
    requires VotesInv(s)
    ensures a !in s.bank ==> forall key | key in s.voters :: key.1 != a
    ensures a in s.bank ==>
              var locked := s.bank[a].locked;
              && (forall i, j | 0 <= i < j < |locked| :: locked[i].0 != locked[j].0)
              && (forall id, info :: (id, info) in locked <==> (id, a) in s.voters && s.voters[(id, a)] == info)
  {
    hide TallyRight;
    forall key | key in s.voters ensures VoteLocked(s, key) {
    }
    if a in s.bank {
      assert AccountLocks(s, a);
      forall id, info
        ensures (id, info) in s.bank[a].locked <==> (id, a) in s.voters && s.voters[(id, a)] == info
      {
        if (id, a) in s.voters {
          assert VoteLocked(s, (id, a));
        }
      }
    }
  }

  // ----- the terms of polls over runs -----

  /** no quorum and no threshold above one, in the configuration and in every poll */
  ghost predicate TermsWithinOne(s: Storage) {
    && s.cfg.quorum <= 1_000_000_000_000_000_000 && s.cfg.threshold <= 1_000_000_000_000_000_000
    && forall id | id in s.polls ::
         s.polls[id].quorum <= 1_000_000_000_000_000_000 && s.polls[id].threshold <= 1_000_000_000_000_000_000
  }

  lemma StepTerms(w: World, now: nat, op: Op)
    requires TermsWithinOne(w.store)
    ensures TermsWithinOne(Step(w, now, op).store)
  {
    hide QuorumMissed, ThresholdReached, MultiplyRatio, Live, MaxLocked, DropVotes, PagedOrders, RemoveOrders, SumXprism, SumPrism;
  }

  /** A quorum or threshold above one is refused, at instantiation and by every later
      configuration, so no poll of any run is beyond the reach of those who hold xPRISM. */
  lemma {:induction false} TermsOverRuns(w: World, txs: seq<Tx>)
    requires TermsWithinOne(w.store)
    ensures TermsWithinOne(Run(w, txs).store)
    decreases |txs|
  {
    hide Step, TermsWithinOne;
    if txs != [] {
      StepTerms(w, txs[0].now, txs[0].op);
      TermsOverRuns(Step(w, txs[0].now, txs[0].op), txs[1..]);
    }
  }

  lemma PollsWithinReach(cfg: Config, prism: nat, txs: seq<Tx>, id: nat, supply: nat)
    requires Instantiate(cfg).Ok?
    requires id in Run(Start(Instantiate(cfg).value, prism), txs).store.polls && supply > 0
    ensures var poll := Run(Start(Instantiate(cfg).value, prism), txs).store.polls[id];
            Tallied(poll) >= supply ==> !QuorumMissed(poll, supply)
  {
    hide Run;
    var w := Start(Instantiate(cfg).value, prism);
    assert TermsWithinOne(w.store);
    TermsOverRuns(w, txs);
    var poll := Run(w, txs).store.polls[id];
    if Tallied(poll) >= supply {
      QuorumRule(poll, supply);
      MulMono(supply, Tallied(poll), E);
      MulMono(poll.quorum, E, supply);
    }
  }

  // ----- the rate over runs -----

  function EffectiveOf(w: World): Effective {
    Effective(w.prism - w.store.pendingPrism, w.supply - w.store.pendingXprism)
  }

  lemma EffectiveNonneg(w: World)
    requires Sound(w)
    ensures EffectiveOf(w).prism >= 0 && EffectiveOf(w).xprism >= 0
    ensures Outside(w) <= EffectiveOf(w).xprism
  {
    hide PollsInv, VotesInv, OrdersInv;
    SumsNonneg(w);
  }

  /** The parts the rate depends on change in these calls only. */
  lemma RateUnmoved(w: World, now: nat, op: Op)
    requires op.Stake? || op.Unstake? || op.Open? || op.Vote? || op.Snapshot? || op.Execute? || op.Configure? || op.GiveXprism?
    ensures EffectiveOf(Step(w, now, op)) == EffectiveOf(w)
  {
    hide Live, MaxLocked, DropVotes, AddVote;
  }

  lemma MintRate(w: World, now: nat, op: Op)
    requires op.Mint? && EffectiveOf(w).prism >= 0 && EffectiveOf(w).xprism >= 0
    ensures AtLeastRate(EffectiveOf(w), EffectiveOf(Step(w, now, op)))
  {
    hide MultiplyRatio, AtLeastRate;
    SameRate(EffectiveOf(w));
    var e, minted := EffectiveOf(w), MintXprism(w.store, op.amount, w.prism + op.amount, w.supply);
    if minted.Ok? {
      MintKeepsRate(e.prism, e.xprism, op.amount, minted.value);
    }
  }

  lemma RedeemRate(w: World, now: nat, op: Op)
    requires op.Redeem? && EffectiveOf(w).prism >= 0 && Outside(w) <= EffectiveOf(w).xprism
    ensures AtLeastRate(EffectiveOf(w), EffectiveOf(Step(w, now, op)))
  {
    hide MultiplyRatio, AtLeastRate;
    SameRate(EffectiveOf(w));
    var e := EffectiveOf(w);
    if Outside(w) >= op.amount && RedeemXprism(w.store, now, op.sender, op.amount, w.prism, w.supply).Ok? {
      RedeemKeepsRate(e.prism, e.xprism, op.amount);
    }
  }

  lemma ClaimRate(w: World, now: nat, op: Op)
    requires op.Claim?
    ensures EffectiveOf(Step(w, now, op)) == EffectiveOf(w)
  {
    hide SumXprism, SumPrism, RemoveOrders, PagedOrders;
  }

  /** burning and giving */
  lemma BurnRate(w: World, now: nat, op: Op)
    requires op.End? || op.BurnOutside? || op.GivePrism?
    requires EffectiveOf(w).prism >= 0 && EffectiveOf(w).xprism >= 0 && EffectiveOf(Step(w, now, op)).xprism >= 0
    ensures AtLeastRate(EffectiveOf(w), EffectiveOf(Step(w, now, op)))
  {
    hide AtLeastRate, QuorumMissed, ThresholdReached;
    var e, e' := EffectiveOf(w), EffectiveOf(Step(w, now, op));
    if op.GivePrism? {
      GiftKeepsRate(e.prism, e.xprism, op.amount);
    } else {
      assert e'.prism == e.prism && e'.xprism <= e.xprism;
      BurnKeepsRate(e.prism, e.xprism, e.xprism - e'.xprism);
    }
  }

  /** What minting does to both sides of the rate: the deposit comes in whole, and its share of
      the xPRISM, rounded down once, or as much xPRISM as PRISM while there is no PRISM. */
  lemma MintedInto(w: World, now: nat, amount: nat, toGov: bool, minted: nat)
    requires MintXprism(w.store, amount, w.prism + amount, w.supply) == Ok(minted)
    ensures var w' := Step(w, now, Mint(amount, toGov));
            w'.prism == w.prism + amount && w'.supply == w.supply + minted && w'.store == w.store
  {
    hide MintXprism;
  }

  lemma MintStep(w: World, now: nat, amount: nat, toGov: bool)
    requires Sound(w)
    ensures var e, e' := EffectiveOf(w), EffectiveOf(Step(w, now, Mint(amount, toGov)));
            var minted := e'.xprism - e.xprism;
            && e'.prism == e.prism + amount
            && (if e.prism == 0 then minted == amount
                else minted * e.prism <= amount * e.xprism < (minted + 1) * e.prism)
  {
    hide Sound, Step, MintXprism;
    EffectiveNonneg(w);
    MintExact(w.store, amount, w.prism + amount, w.supply);
    MintedInto(w, now, amount, toGov, MintXprism(w.store, amount, w.prism + amount, w.supply).value);
  }

  /** What redeeming does: the xPRISM leaves the rate whole, with its share of the PRISM, rounded
      down once, and both come back no earlier than the redemption time. */
  lemma RedeemStep(w: World, now: nat, sender: Addr, amount: nat)
    requires Sound(w) && Step(w, now, Redeem(sender, amount)) != w
    ensures var w' := Step(w, now, Redeem(sender, amount));
            var e, e', key := EffectiveOf(w), EffectiveOf(w'), (sender, now + w.store.cfg.redemptionTime);
            var returned := e.prism - e'.prism;
            && returned >= 0 && e.xprism > 0 && e'.xprism == e.xprism - amount
            && returned * e.xprism <= amount * e.prism < (returned + 1) * e.xprism
            && key !in w.store.orders && w'.store.orders == w.store.orders[key := Order(amount, returned)]
            && w'.xprism == w.xprism + amount && w'.prism == w.prism && w'.supply == w.supply
  {
    hide Sound, Step, RedeemXprism;
    EffectiveNonneg(w);
    RedeemExact(w.store, now, sender, amount, w.prism, w.supply);
    RedeemedInto(w, now, sender, amount);
  }

  lemma RedeemedInto(w: World, now: nat, sender: Addr, amount: nat)
    requires Step(w, now, Redeem(sender, amount)) != w
    ensures var r := RedeemXprism(w.store, now, sender, amount, w.prism, w.supply);
            r.Ok? && Step(w, now, Redeem(sender, amount)) == w.(store := r.value, xprism := w.xprism + amount)
  {
    hide RedeemXprism;
  }

  /** No transaction lowers the rate; claims leave both sides of it as they are. */
  lemma StepKeepsRate(w: World, now: nat, op: Op)
    requires Sound(w)
    ensures AtLeastRate(EffectiveOf(w), EffectiveOf(Step(w, now, op)))
    ensures op.Claim? ==> EffectiveOf(Step(w, now, op)) == EffectiveOf(w)
  {
    hide Sound, Step, AtLeastRate, EffectiveOf;
    EffectiveNonneg(w);
    StepSound(w, now, op);
    EffectiveNonneg(Step(w, now, op));
    SameRate(EffectiveOf(w));
    if op.Mint? {
      MintRate(w, now, op);
    } else if op.Redeem? {
      RedeemRate(w, now, op);
    } else if op.Claim? {
      ClaimRate(w, now, op);
    } else if op.End? || op.BurnOutside? || op.GivePrism? {
      BurnRate(w, now, op);
    } else {
      RateUnmoved(w, now, op);
    }
  }

  /** minting into a gov with neither xPRISM nor PRISM, which starts over at one to one */
  predicate FreshMint(w: World, op: Op) {
    op.Mint? && op.amount > 0 && EffectiveOf(w) == Effective(0, 0)
  }

  ghost predicate NoFreshMint(w: World, txs: seq<Tx>)
    decreases |txs|
  {
    txs != [] ==> !FreshMint(w, txs[0].op) && NoFreshMint(Step(w, txs[0].now, txs[0].op), txs[1..])
  }

  /** the rate is at least the one given, now and after every transaction */
  ghost predicate RateHolds(e: Effective, w: World, txs: seq<Tx>)
    decreases |txs|
  {
    AtLeastRate(e, EffectiveOf(w)) && (txs != [] ==> RateHolds(e, Step(w, txs[0].now, txs[0].op), txs[1..]))
  }

  /** an empty supply stays empty, unless it is minted afresh */
  lemma EmptyStays(w: World, now: nat, op: Op)
    requires Sound(w) && EffectiveOf(w).xprism == 0
    ensures EffectiveOf(Step(w, now, op))
            == if FreshMint(w, op) then Effective(op.amount, op.amount)
               else Effective(EffectiveOf(Step(w, now, op)).prism, 0)
  {
    hide Sound, Step, EffectiveOf, PollsMove;
    EffectiveNonneg(w);
    StepSound(w, now, op);
    EffectiveNonneg(Step(w, now, op));
    if op.Mint? {
      EmptyMint(w, now, op);
    } else if op.Redeem? {
      EmptyRedeem(w, now, op);
    } else if op.Claim? {
      ClaimRate(w, now, op);
    } else if op.End? || op.BurnOutside? || op.GivePrism? {
      SupplyFalls(w, now, op);
    } else {
      RateUnmoved(w, now, op);
    }
  }

  lemma EmptyMint(w: World, now: nat, op: Op)
    requires op.Mint? && EffectiveOf(w).prism >= 0 && EffectiveOf(w).xprism == 0
    ensures EffectiveOf(Step(w, now, op))
            == if FreshMint(w, op) then Effective(op.amount, op.amount)
               else Effective(EffectiveOf(Step(w, now, op)).prism, 0)
  {
    var e := EffectiveOf(w);
    if e.prism > 0 {
      DivUnique(op.amount * 0, e.prism, 0);
      assert MultiplyRatio(op.amount, 0, e.prism) == 0;
    }
    hide MultiplyRatio;
  }

  lemma EmptyRedeem(w: World, now: nat, op: Op)
    requires op.Redeem? && EffectiveOf(w).xprism == 0
    ensures Step(w, now, op) == w
  {
  }

  lemma SupplyFalls(w: World, now: nat, op: Op)
    requires op.End? || op.BurnOutside? || op.GivePrism?
    ensures EffectiveOf(Step(w, now, op)).xprism <= EffectiveOf(w).xprism
  {
    hide QuorumMissed, ThresholdReached;
  }

  /** The rate never falls below one it has reached, through a whole run, exactly when that
      one is at most one to one or nothing is minted afresh. */
  lemma {:induction false} RateHoldsIff(e: Effective, w: World, txs: seq<Tx>)
    requires Sound(w) && e.prism >= 0 && e.xprism >= 0 && AtLeastRate(e, EffectiveOf(w))
    ensures RateHolds(e, w, txs) <==> e.prism <= e.xprism || NoFreshMint(w, txs)
    decreases |txs|
  {
    hide Sound, Step, PollsMove, FreshMint;
    if txs != [] {
      var op, w1 := txs[0].op, Step(w, txs[0].now, txs[0].op);
      StepSound(w, txs[0].now, op);
      RateAfter(e, w, txs[0].now, op);
      hide EffectiveOf, AtLeastRate;
      if AtLeastRate(e, EffectiveOf(w1)) {
        RateHoldsIff(e, w1, txs[1..]);
      }
    }
  }

  /** one transaction keeps a rate, but for a fresh mint after a rate above one */
  lemma RateAfter(e: Effective, w: World, now: nat, op: Op)
    requires Sound(w) && e.prism >= 0 && e.xprism >= 0 && AtLeastRate(e, EffectiveOf(w))
    ensures AtLeastRate(e, EffectiveOf(Step(w, now, op))) <==> e.prism <= e.xprism || !FreshMint(w, op)
  {
    hide Sound, Step, EffectiveOf, PollsMove, AtLeastRate;
    var w1 := Step(w, now, op);
    StepSound(w, now, op);
    EffectiveNonneg(w);
    EffectiveNonneg(w1);
    if EffectiveOf(w).xprism > 0 {
      StepKeepsRate(w, now, op);
      RateTransitive(e, EffectiveOf(w), EffectiveOf(w1));
    } else {
      EmptyStays(w, now, op);
      RateOfEmpty(e, EffectiveOf(w1).prism);
      if FreshMint(w, op) {
        OneToOne(e, op.amount);
      }
    }
  }

  lemma RateOfEmpty(e: Effective, prism: int)
    requires e.xprism >= 0 && prism >= 0
    ensures AtLeastRate(e, Effective(prism, 0))
  {
    MulNonneg(prism, e.xprism);
  }

  lemma OneToOne(e: Effective, amount: nat)
    requires amount > 0
    ensures AtLeastRate(e, Effective(amount, amount)) <==> e.prism <= e.xprism
  {
    if e.prism <= e.xprism {
      MulMono(e.prism, e.xprism, amount);
    } else {
      MulMono(e.xprism + 1, e.prism, amount);
    }
  }

  lemma {:induction false} RateHoldsAtEnd(e: Effective, w: World, txs: seq<Tx>)
    requires RateHolds(e, w, txs)
    ensures AtLeastRate(e, EffectiveOf(Run(w, txs)))
    decreases |txs|
  {
    hide Step, AtLeastRate, EffectiveOf;
    if txs != [] {
      RateHoldsAtEnd(e, Step(w, txs[0].now, txs[0].op), txs[1..]);
    }
  }

  /** The rate never falls over a run in which nothing is minted afresh. */
  lemma RateNeverFalls(w: World, txs: seq<Tx>)
    requires Sound(w) && NoFreshMint(w, txs)
    ensures AtLeastRate(EffectiveOf(w), EffectiveOf(Run(w, txs)))
  {
    hide Sound, NoFreshMint, RateHolds, EffectiveOf, AtLeastRate;
    SameRate(EffectiveOf(w));
    EffectiveNonneg(w);
    RateHoldsIff(EffectiveOf(w), w, txs);
    RateHoldsAtEnd(EffectiveOf(w), w, txs);
  }

  /** a gov just instantiated */
  function NothingYet(): World {
    World(Storage(Config(0, 0, 0, 0, 0, 0, 0), 1, 0, map[], {}, map[], map[], map[], 0, 0), 0, 0, 0, 0, 0, 0)
  }

  /** three PRISM behind two xPRISM, all of it in circulation */
  function ThreeForTwo(): World {
    NothingYet().(prism := 3, supply := 2)
  }

  /** one of them redeemed */
  function TwoForOne(): World {
    var w := ThreeForTwo();
    w.(store := w.store.(orders := map[(1, 0) := Order(1, 1)], pendingXprism := 1, pendingPrism := 1), xprism := 1)
  }

  /** both redeemed */
  function NobodyLeft(): World {
    var w := TwoForOne();
    w.(store := w.store.(orders := w.store.orders[(2, 0) := Order(1, 2)], pendingXprism := 2, pendingPrism := 3), xprism := 2)
  }

  lemma FirstExit()
    ensures Step(ThreeForTwo(), 0, Redeem(1, 1)) == TwoForOne()
  {
    assert MultiplyRatio(1, 3, 2) == 1;
    var none: Orders := map[];
    assert none[(1, 0) := Order(1, 1)] == map[(1, 0) := Order(1, 1)];
  }

  lemma SecondExit()
    ensures Step(TwoForOne(), 0, Redeem(2, 1)) == NobodyLeft()
  {
    assert MultiplyRatio(1, 2, 1) == 2;
    hide MultiplyRatio;
    var w, k1, k2 := TwoForOne(), (1, 0), (2, 0);
    var orders: Orders := map[k1 := Order(1, 1)];
    assert k2.0 != k1.0;
    assert w.store.orders == orders && k2 !in orders;
    hide TwoForOne;
    assert RedeemXprism(w.store, 0, 2, 1, 3, 2) == Ok(NobodyLeft().store);
  }

  lemma Remint()
    ensures Step(NobodyLeft(), 0, Mint(5, false)) == Reminted()
  {
  }

  lemma ThreeForTwoSound()
    ensures Sound(ThreeForTwo())
  {
    var w := ThreeForTwo();
    SumZero(w.store.bank.Keys, DepositPart(w.store.bank));
    SumZero(w.store.polls.Keys, PollDeposit(w.store.polls));
    SumZero(w.store.orders.Keys, XprismPart(w.store.orders));
    SumZero(w.store.orders.Keys, PrismPart(w.store.orders));
  }

  lemma RunThree(w: World, t1: Tx, t2: Tx, t3: Tx)
    ensures Run(w, [t1, t2, t3]) == Step(Step(Step(w, t1.now, t1.op), t2.now, t2.op), t3.now, t3.op)
  {
    hide Step;
    var none: seq<Tx> := [];
    assert [t1, t2, t3][1..] == [t2, t3] && [t2, t3][1..] == [t3] && [t3][1..] == none;
    assert forall v :: Run(v, none) == v;
    assert forall v :: Run(v, [t3]) == Run(Step(v, t3.now, t3.op), none);
    assert forall v :: Run(v, [t2, t3]) == Run(Step(v, t2.now, t2.op), [t3]);
  }

  lemma MintsToNobody(w: World)
    requires EffectiveOf(w) == Effective(0, 0)
    ensures Step(w, 0, Mint(2, false)) == w.(prism := w.prism + 2, supply := w.supply + 2)
  {
    hide MultiplyRatio;
  }

  lemma Gives(w: World, amount: nat)
    ensures Step(w, 0, GivePrism(amount)) == w.(prism := w.prism + amount)
  {
  }

  lemma RunTwo(w: World, t1: Tx, t2: Tx)
    ensures Run(w, [t1, t2]) == Step(Step(w, t1.now, t1.op), t2.now, t2.op)
  {
    hide Step;
    var none: seq<Tx> := [];
    assert [t1, t2][1..] == [t2] && [t2][1..] == none;
    assert forall v :: Run(v, none) == v;
    assert forall v :: Run(v, [t2]) == Run(Step(v, t2.now, t2.op), none);
  }

  /** that state is reached: two xPRISM are minted for two PRISM, and gov is given a third */
  lemma ThreeForTwoReached()
    ensures Instantiate(Config(0, 0, 0, 0, 0, 0, 0)) == Ok(NothingYet().store)
    ensures NothingYet() == Start(NothingYet().store, 0)
    ensures Run(NothingYet(), [Tx(0, Mint(2, false)), Tx(0, GivePrism(1))]) == ThreeForTwo()
  {
    hide Step, Run;
    var w := NothingYet();
    MintsToNobody(w);
    Gives(w.(prism := 2, supply := 2), 1);
    RunTwo(w, Tx(0, Mint(2, false)), Tx(0, GivePrism(1)));
  }

  /** five PRISM behind five xPRISM, after a mint of five for a gov nobody has a part of */
  function Reminted(): World {
    NobodyLeft().(prism := 8, supply := 7)
  }

  lemma ThreeBehindTwo()
    ensures EffectiveOf(ThreeForTwo()) == Effective(3, 2)
  {
  }

  lemma FiveBehindFive()
    ensures EffectiveOf(Reminted()) == Effective(5, 5)
  {
    assert NobodyLeft().store.pendingPrism == 3 && NobodyLeft().store.pendingXprism == 2;
  }

  lemma FiveForFive(a: Effective, b: Effective)
    requires a == Effective(3, 2) && b == Effective(5, 5)
    ensures !AtLeastRate(a, b)
  {
  }

  /** The side condition is needed: after everybody has left, minting starts over at one to
      one, below the rate before. */
  lemma RateFallsAfterExit(w: World, txs: seq<Tx>)
    requires w == ThreeForTwo()
    requires txs == [Tx(0, Redeem(1, 1)), Tx(0, Redeem(2, 1)), Tx(0, Mint(5, false))]
    ensures Sound(w) && !AtLeastRate(EffectiveOf(w), EffectiveOf(Run(w, txs)))
  {
    hide *;
    ThreeForTwoSound();
    FirstExit();
    SecondExit();
    Remint();
    RunThree(w, Tx(0, Redeem(1, 1)), Tx(0, Redeem(2, 1)), Tx(0, Mint(5, false)));
    ThreeBehindTwo();
    FiveBehindFive();
    FiveForFive(EffectiveOf(w), EffectiveOf(Reminted()));
  }
}
