/** The chain-level state that the system contract and the token contract share, and one atomic step of it. */
module Chain {
  import opened Base
  import opened TokenLedger
  import opened Voting
  import opened Staking
  import opened Election

  /** `core` is the core symbol, set once by `init`. */
  datatype State = State(stake: Stake, votes: Votes, sched: Sched, ledger: Ledger, core: Symbol)

  const STAKE_MEMO := "stake bandwidth"
  const REFUND_MEMO := "unstake"

  // ---------------------------------------------------------------------------------------------
  // Staking actions

  function Changebw(v: Variant, s: State, ctx: Context, signer: Name, receiver: Name, delta: Delta,
        transfer: bool): Result<State> {
    var from := if transfer then receiver else signer;
    :- Check(signer in ctx.auth, MissingAuth);
    :- Check(delta != 0, ZeroAmount);
    var (stake, balance) :- MoveStake(v, s.stake, signer, receiver, delta, transfer, ctx.now);
    var votes :- UpdateVotingPower(s.votes, from, delta);
    var ledger :- Payment(s, ctx, signer, balance);
    Ok(s.(stake := stake, votes := votes, ledger := ledger))
  }

  /** The inline transfer of what a stake change leaves to be paid. */
  function Payment(s: State, ctx: Context, signer: Name, balance: int64): Result<Ledger> {
    if signer != STAKE && 0 < balance
    then Transfer(s.ledger, ctx.(auth := {signer}), signer, STAKE, Asset(balance, s.core), STAKE_MEMO)
    else Ok(s.ledger)
  }

  function Delegatebw(v: Variant, s: State, ctx: Context, from: Name, receiver: Name, net: Asset, cpu: Asset,
        transfer: bool): Result<State> {
    var zero := Asset(0, s.core);
    :- Check(net == zero, NetNotZero);
    :- Check(cpu.symbol == s.core, SymbolMismatch);
    :- Check(0 < cpu.amount, NotPositive);
    :- Check(!transfer || from != receiver, TransferToSelf);
    Changebw(v, s, ctx, from, receiver, cpu.amount, transfer)
  }

  function Undelegatebw(v: Variant, s: State, ctx: Context, from: Name, receiver: Name, net: Asset,
        cpu: Asset): Result<State> {
    var zero := Asset(0, s.core);
    :- Check(net == zero, NetNotZero);
    :- Check(cpu.symbol == s.core, SymbolMismatch);
    :- Check(0 < cpu.amount, NotPositive);
    Changebw(v, s, ctx, from, receiver, -cpu.amount, false)
  }

  function PayRefund(s: State, ctx: Context, owner: Name): Result<State> {
    var refunds := s.stake.refunds;
    :- Check(owner in ctx.auth, MissingAuth);
    :- Check(owner in refunds, NoRefund);
    :- Check(Maturity(refunds[owner]) <= ctx.now, RefundTooEarly);
    var ledger :- Transfer(s.ledger, ctx.(auth := {STAKE, owner}), STAKE, owner,
      Asset(refunds[owner].amount, s.core), REFUND_MEMO);
    Ok(s.(stake := s.stake.(refunds := refunds - {owner}), ledger := ledger))
  }

  /** The host runs a due deferred refund once, whether or not the refund itself succeeds. */
  function RunDeferred(s: State, ctx: Context, owner: Name): Result<State> {
    var deferred := s.stake.deferred;
    :- Check(owner in deferred && deferred[owner] <= ctx.now, RefundTooEarly);
    var popped := s.(stake := s.stake.(deferred := deferred - {owner}));
    match PayRefund(popped, ctx.(auth := {owner}), owner)
    case Ok(paid) => Ok(paid)
    case Abort(_) => Ok(popped)
  }

  /** The part of `newaccount` that creates the resource row. */
  function NewAccount(s: State, account: Name): Result<State> {
    var st := s.stake;
    :- Check(account !in st.userres, RowExists);
    Ok(s.(stake := st.(userres := st.userres[account := 0], cpuLimit := st.cpuLimit[account := 0])))
  }

  function SetAlimits(s: State, ctx: Context, account: Name, cpu: int64): Result<State> {
    var st := s.stake;
    :- Check(SYSTEM in ctx.auth, MissingAuth);
    :- Check(account !in st.userres, HasResourceRow);
    Ok(s.(stake := st.(cpuLimit := st.cpuLimit[account := cpu])))
  }

  // ---------------------------------------------------------------------------------------------
  // One step

  datatype Action =
    | Token(token: TokenAction)
    | Delegate(from: Name, receiver: Name, net: Asset, cpu: Asset, transfer: bool)
    | Undelegate(from: Name, receiver: Name, net: Asset, cpu: Asset)
    | RefundAction(owner: Name)
    | DeferredRefund(owner: Name)
    | NewAccountAction(account: Name)
    | SetAlimitsAction(account: Name, limit: int64)
    | Vote(voter: Name, producers: seq<Name>)
    | Register(producer: Name, key: nat, url: string, location: nat)
    | Unreg(signer: Name, producer: Name)
    | SetWeights(company: nat, government: nat)
    | SetType(account: Name, kind: Name)
    | BlockAction(slot: uint32, accepted: int)

  ghost function Do(v: Variant, s: State, ctx: Context, a: Action): Result<State> {
    match a
    case Token(t) =>
      var ledger :- Act(s.ledger, ctx, t);
      Ok(s.(ledger := ledger))
    case Delegate(from, receiver, net, cpu, transfer) => Delegatebw(v, s, ctx, from, receiver, net, cpu, transfer)
    case Undelegate(from, receiver, net, cpu) => Undelegatebw(v, s, ctx, from, receiver, net, cpu)
    case RefundAction(owner) => PayRefund(s, ctx, owner)
    case DeferredRefund(owner) => RunDeferred(s, ctx, owner)
    case NewAccountAction(account) => NewAccount(s, account)
    case SetAlimitsAction(account, limit) => SetAlimits(s, ctx, account, limit)
    case Vote(voter, producers) => WithVotes(s, VoteProducer(s.votes, ctx, voter, producers))
    case Register(producer, key, url, location) => WithVotes(s, RegProducer(s.votes, ctx, producer, key, url, location))
    case Unreg(signer, producer) =>
      if signer == producer || signer == SYSTEM then WithVotes(s, Unregister(s.votes, ctx, signer, producer))
      else Abort(MissingAuth)
    case SetWeights(company, government) => WithVotes(s, SetVWeight(s.votes, ctx, company, government))
    case SetType(account, kind) => WithVotes(s, SetAcntType(s.votes, ctx, account, kind))
    case BlockAction(slot, accepted) =>
      var sched :- OnBlock(s.sched, s.votes.producers, Index(s.votes.producers), ctx, slot, accepted);
      Ok(s.(sched := sched))
  }

  function WithVotes(s: State, r: Result<Votes>): Result<State> {
    match r
    case Ok(votes) => Ok(s.(votes := votes))
    case Abort(e) => Abort(e)
  }
}
