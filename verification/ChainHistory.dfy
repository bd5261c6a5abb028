/** Delegations, lists, types, weights and registrations are what the committed actions of a run made them. */
module ChainHistory {
  import opened Base
  import opened Histories
  import opened TokenLedger
  import opened Voting
  import opened VotingInvariant
  import opened VotingEffects
  import opened Staking
  import opened StakingInvariant
  import opened StakingEffects
  import opened Chain
  import opened ChainInvariant
  import opened ChainEffects
  import opened Runs

  // ---------------------------------------------------------------------------------------------
  // The history

  /** What one committed action adds to the delegation of `from` to `receiver`. */
  function Change(a: Action, from: Name, receiver: Name): int {
    match a
    case Delegate(signer, to, _, cpu, transfer) =>
      if Delegator(signer, to, transfer) == from && to == receiver then cpu.amount else 0
    case Undelegate(signer, to, _, cpu) => if signer == from && to == receiver then -(cpu.amount as int) else 0
    case _ => 0
  }

  /** What was delegated from one account to another over a run, less what was undelegated. */
  ghost function Delegated(v: Variant, g: State, run: seq<Step>, from: Name, receiver: Name): int
    decreases |run|
  {
    if run == [] then 0
    else
      var past := Delegated(v, g, Earlier(run), from, receiver);
      if Commits(v, Exec(v, g, Earlier(run)), Latest(run)) then past + Change(Latest(run).action, from, receiver)
      else past
  }

  /** The list a voter last voted for. */
  ghost function LastVote(v: Variant, g: State, run: seq<Step>, voter: Name): seq<Name>
    decreases |run|
  {
    if run == [] then []
    else
      var a := Latest(run).action;
      if Commits(v, Exec(v, g, Earlier(run)), Latest(run)) && a.Vote? && a.voter == voter then a.producers
      else LastVote(v, g, Earlier(run), voter)
  }

  /** The type an account was given. */
  ghost function TypeGiven(v: Variant, g: State, run: seq<Step>, account: Name): Option<Name>
    decreases |run|
  {
    if run == [] then
      if account in g.votes.types then Some(g.votes.types[account]) else None
    else
      var a := Latest(run).action;
      if Commits(v, Exec(v, g, Earlier(run)), Latest(run)) && a.SetType? && a.account == account then Some(a.kind)
      else TypeGiven(v, g, Earlier(run), account)
  }

  /** The pair of weights last set. */
  ghost function LastWeights(v: Variant, g: State, run: seq<Step>): Weights
    decreases |run|
  {
    if run == [] then g.votes.weights
    else
      var a := Latest(run).action;
      if Commits(v, Exec(v, g, Earlier(run)), Latest(run)) && a.SetWeights? then Weights(a.company, a.government)
      else LastWeights(v, g, Earlier(run))
  }

  /** The key a producer last registered with, unless it was deactivated since. */
  ghost function Registration(v: Variant, g: State, run: seq<Step>, producer: Name): Option<nat>
    decreases |run|
  {
    if run == [] then KeyOf(g.votes, producer)
    else
      var a := Latest(run).action;
      if !Commits(v, Exec(v, g, Earlier(run)), Latest(run)) then Registration(v, g, Earlier(run), producer)
      else if a.Register? && a.producer == producer then Some(a.key)
      else if a.Unreg? && a.producer == producer then None
      else Registration(v, g, Earlier(run), producer)
  }

  function KeyOf(votes: Votes, producer: Name): Option<nat> {
    if producer in votes.producers && votes.producers[producer].active then Some(votes.producers[producer].key)
    else None
  }

  function TypeOf(votes: Votes, account: Name): Option<Name> {
    if account in votes.types then Some(votes.types[account]) else None
  }

  // ---------------------------------------------------------------------------------------------
  // Tables against history

  lemma DelegationStep(v: Variant, s: State, ctx: Context, a: Action, from: Name, receiver: Name)
    requires Inv(s) && Do(v, s, ctx, a).Ok?
    ensures Get0(Do(v, s, ctx, a).value.stake.delband, (from, receiver))
         == Get0(s.stake.delband, (from, receiver)) + Change(a, from, receiver)
  {
    hide Inv, Delegatebw, Undelegatebw, PayRefund, RunDeferred, Act, VoteProducer, RegProducer, Unregister,
      QueueMoved, OneRow, Regained;
    match a
    case Delegate(signer, to, net, cpu, transfer) => DelegateCommits(v, s, ctx, signer, to, net, cpu, transfer);
    case Undelegate(signer, to, net, cpu) => UndelegateCommits(v, s, ctx, signer, to, net, cpu);
    case RefundAction(owner) => RefundCommits(s, ctx, owner);
    case DeferredRefund(owner) => DeferredCommits(s, ctx, owner);
    case _ =>
  }

  /** In every reachable state, what an account delegates to another is what it delegated less what it took back. */
  lemma {:induction false} DelegationsAreHistory(v: Variant, g: State, run: seq<Step>, from: Name, receiver: Name)
    requires Genesis(g)
    ensures Get0(Exec(v, g, run).stake.delband, (from, receiver)) == Delegated(v, g, run, from, receiver)
    decreases |run|
  {
    hide Inv, Do, Change;
    if run != [] {
      DelegationsAreHistory(v, g, Earlier(run), from, receiver);
      Conservation(v, g, Earlier(run));
      var s := Exec(v, g, Earlier(run));
      if Commits(v, s, Latest(run)) { DelegationStep(v, s, Latest(run).ctx, Latest(run).action, from, receiver); }
    }
  }

  /** Moving stake changes no list, no type, no weights and no key. */
  lemma StakeKeepsLists(v: Variant, s: State, t: State, signer: Name, receiver: Name, delta: int, transfer: bool,
        now: nat, account: Name, producer: Name)
    requires StakeMoved(v, s, t, signer, receiver, delta, transfer, now)
    ensures VoterOf(t.votes, account).producers == VoterOf(s.votes, account).producers
    ensures TypeOf(t.votes, account) == TypeOf(s.votes, account) && t.votes.weights == s.votes.weights
    ensures KeyOf(t.votes, producer) == KeyOf(s.votes, producer)
  {
    hide RowsMoved, QueueMoved, Charge, Wrap64, Gain;
  }

  /** What an action leaves of one voter's list, one account's type, the weights, and one producer's key. */
  lemma VotesStep(v: Variant, s: State, ctx: Context, a: Action, account: Name, producer: Name)
    requires Inv(s) && Do(v, s, ctx, a).Ok?
    ensures var votes := Do(v, s, ctx, a).value.votes;
            && VoterOf(votes, account).producers ==
                 (if a.Vote? && a.voter == account then a.producers else VoterOf(s.votes, account).producers)
            && TypeOf(votes, account) ==
                 (if a.SetType? && a.account == account then Some(a.kind) else TypeOf(s.votes, account))
            && votes.weights == (if a.SetWeights? then Weights(a.company, a.government) else s.votes.weights)
            && KeyOf(votes, producer) ==
                 if a.Register? && a.producer == producer then Some(a.key)
                 else if a.Unreg? && a.producer == producer then None
                 else KeyOf(s.votes, producer)
  {
    hide LedgerInv, VotesInv, StakeInv, StakesOk, Delegatebw, Undelegatebw, PayRefund, RunDeferred, Act,
      VoteProducer, RegProducer, Unregister, SetVWeight, SetAcntType, StakeMoved, RefundReady, Wrap64;
    match a
    case Delegate(signer, to, net, cpu, transfer) =>
      DelegateCommits(v, s, ctx, signer, to, net, cpu, transfer);
      StakeKeepsLists(v, s, Do(v, s, ctx, a).value, signer, to, cpu.amount, transfer, ctx.now, account, producer);
    case Undelegate(signer, to, net, cpu) =>
      UndelegateCommits(v, s, ctx, signer, to, net, cpu);
      var delta := -(cpu.amount as int);
      StakeKeepsLists(v, s, Do(v, s, ctx, a).value, signer, to, delta, false, ctx.now, account, producer);
    case RefundAction(owner) => RefundCommits(s, ctx, owner);
    case DeferredRefund(owner) => DeferredCommits(s, ctx, owner);
    case Vote(voter, names) => VoteEffect(s.votes, ctx, voter, names);
    case Register(p, key, url, location) => RegisterEffect(s.votes, ctx, p, key, url, location);
    case Unreg(signer, p) => UnregisterEffect(s.votes, ctx, signer, p);
    case SetWeights(company, government) => SetVWeightEffect(s.votes, ctx, company, government);
    case SetType(f, kind) => SetAcntTypeEffect(s.votes, ctx, f, kind);
    case _ =>
  }

  /** In every reachable state, a voter's list is the one last voted for, an account's type is the one it was given,
      the weights are those last set, and a producer is active exactly under the key it last registered with. */
  lemma {:induction false} VotesAreHistory(v: Variant, g: State, run: seq<Step>, account: Name, producer: Name)
    requires Genesis(g)
    ensures var votes := Exec(v, g, run).votes;
            && VoterOf(votes, account).producers == LastVote(v, g, run, account)
            && TypeOf(votes, account) == TypeGiven(v, g, run, account)
            && votes.weights == LastWeights(v, g, run)
            && KeyOf(votes, producer) == Registration(v, g, run, producer)
    decreases |run|
  {
    hide Inv, Do, KeyOf;
    if run != [] {
      VotesAreHistory(v, g, Earlier(run), account, producer);
      Conservation(v, g, Earlier(run));
      var s := Exec(v, g, Earlier(run));
      if Commits(v, s, Latest(run)) { VotesStep(v, s, Latest(run).ctx, Latest(run).action, account, producer); }
    }
  }
}
