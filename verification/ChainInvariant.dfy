/** What every step of the chain keeps, and the exact law that ties delegations, refunds and the balance
    of the staking account together. */
module ChainInvariant {
  import opened Base
  import opened Sums
  import opened TokenLedger
  import opened Voting
  import opened VotingInvariant
  import opened Staking
  import opened StakingInvariant
  import opened Election
  import opened Chain

  /** Every voter's recorded stake is the sum of what the account delegates, receiver by receiver. */
  ghost predicate StakesOk(stake: Stake, votes: Votes) {
    && (forall f: Name :: VoterOf(votes, f).staked == RowSum(stake, f))
    && Sum(Stakes(votes.voters)) == Sum(stake.delband)
  }

  /** The core token exists, with the core symbol. */
  ghost predicate CoreOk(s: State) {
    s.core.code in s.ledger.stats && s.ledger.stats[s.core.code].supply.symbol == s.core
  }

  ghost predicate Inv(s: State) {
    LedgerInv(s.ledger) && CoreOk(s) && StakeInv(s.stake) && VotesInv(s.votes) && StakesOk(s.stake, s.votes)
  }

  /** What the staking account holds in the core token. */
  function StakeBalance(s: State): int {
    BalanceOf(s.ledger, STAKE, s.core.code)
  }

  /** Delegated and pending amounts that the balance of the staking account does not cover. */
  ghost function Uncovered(s: State): int {
    Sum(s.stake.delband) + Sum(Pending(s.stake)) - StakeBalance(s)
  }

  /** By how much a committed action delegates without paying: a self-delegation that exceeds the pending
      refund, and the staking account's own (un)delegations, which skip payment altogether. */
  function Excess(v: Variant, s: State, a: Action): int {
    match a
    case Delegate(from, receiver, _, cpu, transfer) => Unpaid(v, s.stake, from, receiver, cpu.amount, transfer)
    case Undelegate(from, receiver, _, cpu) => Unpaid(v, s.stake, from, receiver, -(cpu.amount as int), false)
    case _ => 0
  }

  /** What a committed token action itself moves into the staking account. */
  function Donated(s: State, a: Action): int {
    match a
    case Token(t) => Moved(s.ledger, t, STAKE, s.core.code)
    case _ => 0
  }

  /** Stake moving keeps every invariant, and shifts cover by exactly the unpaid part. The two checks on
      negative totals cannot fire, except that a stake beyond 64 bits reads as negative. */
  lemma ChangebwEffect(v: Variant, s: State, ctx: Context, signer: Name, receiver: Name, delta: Delta, transfer: bool)
    requires Inv(s) && (delta < 0 ==> !transfer)
    ensures var r := Changebw(v, s, ctx, signer, receiver, delta, transfer);
            && (r.Abort? ==> r.error != NegativeTotal)
            && (r == Abort(NegativeStake) ==> TWO63 <= RowSum(s.stake, if transfer then receiver else signer) + delta)
            && (r.Ok? ==> Inv(r.value) && r.value.core == s.core
                          && Uncovered(r.value) == Uncovered(s) + Unpaid(v, s.stake, signer, receiver, delta, transfer))
  {
    hide Sum, SumWhere, RowSum, MoveStake, UpdateVotingPower, Transfer, LedgerInv, VotesInv, StakeInv,
      StakesOk, Uncovered, CoreOk, Unpaid;
    var from := if transfer then receiver else signer;
    if delta != 0 {
      MoveStakeEffect(v, s.stake, signer, receiver, delta, transfer, ctx.now);
      var r1 := MoveStake(v, s.stake, signer, receiver, delta, transfer, ctx.now);
      if r1.Ok? {
        var (stake, balance) := r1.value;
        OldStake(s, from);
        SumsOfInv(stake, from);
        UpdateVotingPowerKeeps(s.votes, from, delta);
        var r2 := UpdateVotingPower(s.votes, from, delta);
        PaymentEffect(s, ctx, signer, stake, r2, balance, Unpaid(v, s.stake, signer, receiver, delta, transfer));
        if r2.Ok? {
          StakesFollow(s, stake, r2.value, from, delta);
        }
      }
    }
  }

  /** What remains to be paid reaches the staking account in full, or the payment is refused. */
  lemma PaymentEffect(s: State, ctx: Context, signer: Name, stake: Stake, votes: Result<Votes>, balance: int64,
      unpaid: int)
    requires LedgerInv(s.ledger) && CoreOk(s)
    requires 0 <= balance && (signer == STAKE ==> balance == 0)
    requires Sum(stake.delband) + Sum(Pending(stake)) == Sum(s.stake.delband) + Sum(Pending(s.stake)) + balance + unpaid
    ensures var r := Payment(s, ctx, signer, balance);
            && (r.Abort? ==> TransferError(r.error))
            && (r.Ok? && votes.Ok? ==>
                 var t := s.(stake := stake, votes := votes.value, ledger := r.value);
                 LedgerInv(t.ledger) && CoreOk(t) && Uncovered(t) == Uncovered(s) + unpaid)
  {
    hide Sum, Pending, LedgerInv, Transfer;
    TransferEffect(s.ledger, ctx.(auth := {signer}), signer, STAKE, Asset(balance, s.core), STAKE_MEMO);
  }

  lemma OldStake(s: State, from: Name)
    requires StakesOk(s.stake, s.votes)
    ensures VoterOf(s.votes, from).staked == RowSum(s.stake, from)
  {
    hide RowSum;
  }

  lemma SumsOfInv(s: Stake, from: Name)
    requires StakeInv(s)
    ensures 0 <= RowSum(s, from)
  {
    hide SumWhere;
    SumsNonNegative(s, from, from);
  }

  lemma StakesFollow(s: State, stake: Stake, votes: Votes, from: Name, delta: Delta)
    requires StakesOk(s.stake, s.votes)
    requires Stakes(votes.voters) == Stakes(s.votes.voters)[from := VoterOf(s.votes, from).staked + delta]
    requires forall f: Name :: RowSum(stake, f) == RowSum(s.stake, f) + if f == from then delta else 0
    requires Sum(stake.delband) == Sum(s.stake.delband) + delta
    ensures StakesOk(stake, votes)
  {
    hide RowSum, Sum;
    SumPut(Stakes(s.votes.voters), from, VoterOf(s.votes, from).staked + delta);
    forall f: Name ensures VoterOf(votes, f).staked == Get0(Stakes(votes.voters), f) {}
    forall f: Name ensures VoterOf(s.votes, f).staked == Get0(Stakes(s.votes.voters), f) {}
  }

  // ---------------------------------------------------------------------------------------------
  // Refunds

  /** A refund pays what was pending and nothing else. Given the owner's signature and the delay, it goes
      through exactly when the staking account holds the amount: no other check of the transfer can fire. */
  lemma PayRefundEffect(s: State, ctx: Context, owner: Name)
    requires Inv(s)
    ensures var r := PayRefund(s, ctx, owner);
            && (owner in ctx.auth && owner in ctx.accounts && owner in s.stake.refunds
                 && Maturity(s.stake.refunds[owner]) <= ctx.now
                && s.core.code in ctx.codes ==>
                  (r.Ok? <==> s.stake.refunds[owner].amount <= StakeBalance(s)))
            && (r.Ok? ==>
                 && owner in s.stake.refunds
                 && Maturity(s.stake.refunds[owner]) <= ctx.now
                 && Inv(r.value) && r.value.core == s.core && r.value.votes == s.votes
                 && r.value.stake == s.stake.(refunds := s.stake.refunds - {owner})
                 && Adds2(s.ledger, r.value.ledger, s.core.code, owner, STAKE, s.stake.refunds[owner].amount)
                 && Uncovered(r.value) == Uncovered(s))
  {
    hide Sum, SumWhere, LedgerInv, VotesInv, Transfer, StakesOk, TotalsOk, LimitsOk;
    if owner in s.stake.refunds {
      var q := Asset(s.stake.refunds[owner].amount, s.core);
      TransferEffect(s.ledger, ctx.(auth := {STAKE, owner}), STAKE, owner, q, REFUND_MEMO);
      BalanceWithinSupply(s.ledger, STAKE, s.core.code);
      var r := PayRefund(s, ctx, owner);
      if r.Ok? {
        RefundRowRemoved(s, r.value, owner);
      }
    }
  }

  /** The amount moves from one balance to another, and no other balance changes. */
  ghost predicate Adds2(l: Ledger, l': Ledger, code: nat, to: Name, from: Name, amount: int) {
    forall o: Name, c: nat :: BalanceOf(l', o, c)
      == BalanceOf(l, o, c) + if c != code then 0 else if o == from then -amount else if o == to then amount else 0
  }

  lemma RefundRowRemoved(s: State, t: State, owner: Name)
    requires StakeInv(s.stake) && StakesOk(s.stake, s.votes) && owner in s.stake.refunds
    requires t.stake == s.stake.(refunds := s.stake.refunds - {owner}) && t.votes == s.votes
    ensures StakeInv(t.stake) && StakesOk(t.stake, t.votes)
    ensures Sum(Pending(t.stake)) == Sum(Pending(s.stake)) - s.stake.refunds[owner].amount
  {
    hide Sum, SumWhere;
    SameDelegations(s.stake, t.stake);
    OneRefundMoves(s.stake, t.stake, owner);
  }

  /** Consuming a scheduled transaction changes nothing that the invariants speak about. */
  lemma UnscheduleKeeps(s: State, deferred: map<Name, nat>)
    requires Inv(s)
    ensures var t := s.(stake := s.stake.(deferred := deferred));
            Inv(t) && Uncovered(t) == Uncovered(s) && StakeBalance(t) == StakeBalance(s)
  {
    hide Sum, SumWhere, LedgerInv, VotesInv;
    var t := s.(stake := s.stake.(deferred := deferred));
    SameDelegations(s.stake, t.stake);
    assert Pending(t.stake) == Pending(s.stake);
  }

  lemma RunDeferredEffect(s: State, ctx: Context, owner: Name)
    requires Inv(s)
    ensures var r := RunDeferred(s, ctx, owner);
            r.Ok? ==> Inv(r.value) && r.value.core == s.core && Uncovered(r.value) == Uncovered(s)
  {
    hide Inv, Uncovered, PayRefund;
    var popped := s.(stake := s.stake.(deferred := s.stake.deferred - {owner}));
    UnscheduleKeeps(s, s.stake.deferred - {owner});
    PayRefundEffect(popped, ctx.(auth := {owner}), owner);
  }

  // ---------------------------------------------------------------------------------------------
  // Any action

  lemma ResourceRowEffect(s: State, ctx: Context, account: Name, cpu: int64)
    requires Inv(s)
    ensures forall r | r in {NewAccount(s, account), SetAlimits(s, ctx, account, cpu)} ::
              r.Ok? ==> Inv(r.value) && r.value.core == s.core && Uncovered(r.value) == Uncovered(s)
  {
    hide Sum, SumWhere, LedgerInv, VotesInv, RowsPositive;
    forall r | r in {NewAccount(s, account), SetAlimits(s, ctx, account, cpu)} && r.Ok?
      ensures Inv(r.value) && r.value.core == s.core && Uncovered(r.value) == Uncovered(s)
    {
      SameDelegations(s.stake, r.value.stake);
      assert Pending(r.value.stake) == Pending(s.stake);
      SamePositive(s.stake, r.value.stake);
    }
  }

  lemma SamePositive(a: Stake, b: Stake)
    requires RowsPositive(a) && a.delband == b.delband && a.refunds == b.refunds
    ensures RowsPositive(b)
  {
  }

  /** Votes replaced by votes with the same stakes: everything else is as it was. */
  lemma VotesEffect(s: State, votes: Votes)
    requires Inv(s) && VotesInv(votes) && Stakes(votes.voters) == Stakes(s.votes.voters)
    ensures var t := s.(votes := votes); Inv(t) && Uncovered(t) == Uncovered(s)
  {
    hide Sum, SumWhere, RowSum, LedgerInv, VotesInv, StakeInv;
    forall f: Name ensures VoterOf(votes, f).staked == Get0(Stakes(votes.voters), f) {}
    forall f: Name ensures VoterOf(s.votes, f).staked == Get0(Stakes(s.votes.voters), f) {}
  }

  lemma TokenEffect(s: State, ctx: Context, t: TokenAction)
    requires Inv(s)
    ensures var r := Act(s.ledger, ctx, t);
            r.Ok? ==> var s' := s.(ledger := r.value);
                      Inv(s') && Uncovered(s') == Uncovered(s) - Donated(s, Token(t))
  {
    hide Sum, RowSum, LedgerInv, VotesInv, StakeInv, Act, Moved;
    ActEffect(s.ledger, ctx, t);
  }

  /** Every committed action keeps the invariant, and moves the uncovered amount by exactly what it
      delegated without payment, less what it donated. */
  lemma DoEffect(v: Variant, s: State, ctx: Context, a: Action)
    requires Inv(s)
    ensures var r := Do(v, s, ctx, a);
            r.Ok? ==>
              && Inv(r.value) && r.value.core == s.core
              && Uncovered(r.value) == Uncovered(s) + Excess(v, s, a) - Donated(s, a)
  {
    hide Inv, Uncovered, Changebw, PayRefund, RunDeferred, NewAccount, SetAlimits, Act, VoteProducer,
      RegProducer, Unregister,
      SetVWeight, SetAcntType, VotesInv, Unpaid, Stakes;
    match a
    case Token(t) => TokenEffect(s, ctx, t);
    case Delegate(from, receiver, _, cpu, transfer) =>
      if 0 < cpu.amount { ChangebwEffect(v, s, ctx, from, receiver, cpu.amount, transfer); }
    case Undelegate(from, receiver, _, cpu) =>
      if 0 < cpu.amount { ChangebwEffect(v, s, ctx, from, receiver, -cpu.amount, false); }
    case RefundAction(owner) => PayRefundEffect(s, ctx, owner);
    case DeferredRefund(owner) => RunDeferredEffect(s, ctx, owner);
    case NewAccountAction(account) => ResourceRowEffect(s, ctx, account, 0);
    case SetAlimitsAction(account, limit) => ResourceRowEffect(s, ctx, account, limit);
    case BlockAction(slot, accepted) => SchedEffect(s, slot, accepted, ctx);
    case _ => VotesActionEffect(s, ctx, a);
  }

  lemma SchedEffect(s: State, slot: uint32, accepted: int, ctx: Context)
    requires Inv(s)
    ensures forall sched :: var t := s.(sched := sched); Inv(t) && Uncovered(t) == Uncovered(s)
  {
    hide Sum, SumWhere, LedgerInv, VotesInv, StakeInv;
  }

  lemma VotesActionEffect(s: State, ctx: Context, a: Action)
    requires Inv(s) && (a.Vote? || a.Register? || a.Unreg? || a.SetWeights? || a.SetType?)
    ensures var r := Do(AsWritten, s, ctx, a);
            && r == Do(Swapped, s, ctx, a)
            && (r.Ok? ==> Inv(r.value) && r.value.core == s.core && Uncovered(r.value) == Uncovered(s))
  {
    hide Uncovered, VoteProducer, RegProducer, Unregister, SetVWeight, SetAcntType, VotesInv, LedgerInv,
      StakeInv, StakesOk, Stakes;
    var r := Do(AsWritten, s, ctx, a);
    match a {
      case Vote(voter, producers) => VoteProducerKeeps(s.votes, ctx, voter, producers);
      case Register(producer, key, url, location) => RegProducerKeeps(s.votes, ctx, producer, key, url, location);
      case Unreg(signer, producer) => UnregisterKeeps(s.votes, ctx, signer, producer);
      case SetWeights(company, government) => SetVWeightKeeps(s.votes, ctx, company, government);
      case SetType(account, kind) => SetAcntTypeKeeps(s.votes, ctx, account, kind);
    }
    if r.Ok? { VotesEffect(s, r.value.votes); }
  }
}
