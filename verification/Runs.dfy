/** Whole runs of the chain: what holds after any sequence of actions, in any order, by anyone. */
module Runs {
  import opened Base
  import opened Histories
  import opened Sums
  import opened TokenLedger
  import opened Voting
  import opened VotingInvariant
  import opened Staking
  import opened StakingInvariant
  import opened Election
  import opened Chain
  import opened ChainInvariant

  datatype Step = Step(ctx: Context, action: Action)

  /** A step that aborts leaves every table as it was. */
  ghost function Apply(v: Variant, s: State, step: Step): State {
    match Do(v, s, step.ctx, step.action)
    case Ok(t) => t
    case Abort(_) => s
  }

  ghost predicate Commits(v: Variant, s: State, step: Step) {
    Do(v, s, step.ctx, step.action).Ok?
  }

  ghost function Exec(v: Variant, g: State, run: seq<Step>): State
    decreases |run|
  {
    if run == [] then g else Apply(v, Exec(v, g, Earlier(run)), Latest(run))
  }

  /** The state right after `init`: the core token exists, and nobody has staked or voted yet. */
  ghost predicate Genesis(g: State) {
    && LedgerInv(g.ledger) && CoreOk(g)
    && g.stake.delband == map[] && g.stake.userres == map[] && g.stake.refunds == map[] && g.stake.deferred == map[]
    && g.votes.voters == map[] && WeightsOk(g.votes.weights)
    && (forall f :: f in g.votes.types ==> g.votes.types[f] == COMPANY || g.votes.types[f] == GOVERNMENT)
    && (forall p :: p in g.votes.producers ==>
         && g.votes.producers[p].company == 0 && g.votes.producers[p].government == 0
         && g.votes.producers[p].weight == 0
         && (g.votes.producers[p].active ==> g.votes.producers[p].key != DEFAULT_KEY))
    && g.sched == Sched(0, 0)
  }

  lemma GenesisInv(g: State)
    requires Genesis(g)
    ensures Inv(g) && Uncovered(g) == -StakeBalance(g)
  {
    hide LedgerInv, Weigh;
    forall t: Name ensures ColSum(g.stake, t) == 0 && RowSum(g.stake, t) == 0 {
      assert Slice(g.stake.delband, ToOf(t)) == map[];
      assert Slice(g.stake.delband, FromOf(t)) == map[];
    }
    forall p, isCompany ensures Recount(g.votes.voters, g.votes.types, p, isCompany) == 0 {
      assert Shares(g.votes.voters, g.votes.types, p, isCompany) == map[];
    }
    ZeroWeighs(g.votes.weights);
    assert Stakes(g.votes.voters) == map[];
    assert Pending(g.stake) == map[];
  }

  // ---------------------------------------------------------------------------------------------
  // Conservation

  /** What all committed actions delegated without paying for it. */
  ghost function Shortfall(v: Variant, g: State, run: seq<Step>): int
    decreases |run|
  {
    if run == [] then 0
    else
      var s := Exec(v, g, Earlier(run));
      Shortfall(v, g, Earlier(run)) + if Commits(v, s, Latest(run)) then Excess(v, s, Latest(run).action) else 0
  }

  /** What the staking account held at the start and what token actions moved into it directly since. */
  ghost function Gifts(v: Variant, g: State, run: seq<Step>): int
    decreases |run|
  {
    if run == [] then StakeBalance(g)
    else
      var s := Exec(v, g, Earlier(run));
      Gifts(v, g, Earlier(run)) + if Commits(v, s, Latest(run)) then Donated(s, Latest(run).action) else 0
  }

  /** Every reachable state satisfies the invariant, and in it: delegated + pending + gifts = balance of
      the staking account + shortfall. */
  lemma {:induction false} Conservation(v: Variant, g: State, run: seq<Step>)
    requires Genesis(g)
    ensures var t := Exec(v, g, run);
            && Inv(t) && t.core == g.core
            && Sum(t.stake.delband) + Sum(Pending(t.stake)) + Gifts(v, g, run) == StakeBalance(t) + Shortfall(v, g, run)
    decreases |run|
  {
    hide Inv, Genesis, Do, Excess, Donated, StakeBalance, Sum, Pending;
    if run == [] {
      GenesisInv(g);
    } else {
      Conservation(v, g, Earlier(run));
      var s := Exec(v, g, Earlier(run));
      DoEffect(v, s, Latest(run).ctx, Latest(run).action);
    }
  }

  /** The deployment never signs for the staking account. */
  predicate NeverSigned(run: seq<Step>) {
    forall step :: step in run ==> STAKE !in step.ctx.auth
  }

  /** An action cannot commit for the staking account without its signature. */
  lemma UnsignedMoves(v: Variant, s: State, step: Step)
    requires Inv(s) && STAKE !in step.ctx.auth && Commits(v, s, step)
    ensures 0 <= Donated(s, step.action)
    ensures 0 <= Excess(v, s, step.action)
    ensures v == Swapped ==> Excess(v, s, step.action) == 0
  {
    hide Inv, Exec, MoveStake, UpdateVotingPower, VotesInv, AddBalance, SubBalance;
    assert step.action.Token? ==> Act(s.ledger, step.ctx, step.action.token).Ok?;
  }

  /** Apart from the staking account's own signatures, shortfall only ever grows, and with the two
      statements swapped there is none at all; gifts never become negative. */
  lemma {:induction false} ShortfallSign(v: Variant, g: State, run: seq<Step>)
    requires Genesis(g) && NeverSigned(run)
    ensures 0 <= Gifts(v, g, run)
    ensures 0 <= Shortfall(v, g, run)
    ensures v == Swapped ==> Shortfall(v, g, run) == 0
    decreases |run|
  {
    hide Inv, Do, Excess, Donated;
    if run == [] {
      BalanceWithinSupply(g.ledger, STAKE, g.core.code);
    } else {
      ShortfallSign(v, g, Earlier(run));
      Conservation(v, g, Earlier(run));
      var s := Exec(v, g, Earlier(run));
      if Commits(v, s, Latest(run)) { UnsignedMoves(v, s, Latest(run)); }
    }
  }

  /** The shortfall of a run does not exceed what the staking account was given beside the stake. */
  ghost predicate Covered(v: Variant, g: State, run: seq<Step>) {
    Shortfall(v, g, run) <= Gifts(v, g, run)
  }

  /** The staking account holds all delegations and all pending refunds at once exactly when the shortfall
      stays within the gifts. In particular it does so after every run without shortfall, and, with the two
      statements swapped, after every run at all. */
  lemma Solvency(v: Variant, g: State, run: seq<Step>)
    requires Genesis(g)
    ensures var t := Exec(v, g, run);
            Sum(t.stake.delband) + Sum(Pending(t.stake)) <= StakeBalance(t) <==> Covered(v, g, run)
    ensures NeverSigned(run) && Shortfall(v, g, run) == 0 ==> Covered(v, g, run)
    ensures NeverSigned(run) && v == Swapped ==> Covered(v, g, run)
  {
    hide Exec, Genesis, Inv, Sum, Pending, StakeBalance;
    Conservation(v, g, run);
    if NeverSigned(run) { ShortfallSign(v, g, run); }
  }

  /** A committed self-delegation of more than the delegator has pending, while something is pending. */
  ghost predicate Exceeds(s: State, step: Step) {
    && Commits(AsWritten, s, step) && step.action.Delegate?
    && step.action.from == step.action.receiver && step.action.from in s.stake.refunds
    && s.stake.refunds[step.action.from].amount < step.action.cpu.amount
  }

  /** Step by step: without the staking account's signature, the code as written adds to the shortfall
      exactly on a committed self-delegation that exceeds a pending refund, and adds exactly the part that
      exceeds it. */
  lemma ShortfallStep(g: State, run: seq<Step>, step: Step)
    requires Genesis(g) && STAKE !in step.ctx.auth
    ensures var s := Exec(AsWritten, g, run);
            Shortfall(AsWritten, g, run + [step]) == Shortfall(AsWritten, g, run) +
              if Exceeds(s, step) then step.action.cpu.amount - s.stake.refunds[step.action.from].amount else 0
  {
    hide Exec, Genesis, Do, Inv;
    assert Earlier(run + [step]) == run;
    if Commits(AsWritten, Exec(AsWritten, g, run), step) {
      Conservation(AsWritten, g, run);
      UnsignedCannotStake(AsWritten, Exec(AsWritten, g, run), step);
      if step.action.Undelegate? { OnlyDelegationsExceed(Exec(AsWritten, g, run), step.action); }
    }
  }

  /** Run by run: the code as written ends without shortfall exactly when no step of the run was a
      self-delegation that exceeds a pending refund. */
  lemma {:induction false} NoShortfall(g: State, run: seq<Step>)
    requires Genesis(g) && NeverSigned(run)
    ensures Shortfall(AsWritten, g, run) == 0 <==>
              forall i :: 0 <= i < |run| ==> !Exceeds(Exec(AsWritten, g, run[..i]), run[i])
    decreases |run|
  {
    hide Exec, Genesis, Exceeds, Shortfall;
    if run == [] {
      NothingShortYet(g);
    } else {
      var past, n := Earlier(run), |run| - 1;
      assert run == past + [Latest(run)];
      NoShortfall(g, past);
      ShortfallSign(AsWritten, g, past);
      ShortfallStep(g, past, Latest(run));
      ExceedsByMore(Exec(AsWritten, g, past), Latest(run));
      assert run[..n] == past;
      assert forall i :: 0 <= i < n ==> run[..i] == past[..i] && run[i] == past[i];
    }
  }

  lemma NothingShortYet(g: State)
    ensures Shortfall(AsWritten, g, []) == 0
  {
  }

  lemma ExceedsByMore(s: State, step: Step)
    ensures Exceeds(s, step) ==> 0 < step.action.cpu.amount - s.stake.refunds[step.action.from].amount
  {
    hide Do;
  }

  lemma OnlyDelegationsExceed(s: State, a: Action)
    requires Inv(s) && a.Undelegate? && a.from != STAKE && 0 < a.cpu.amount
    ensures Excess(AsWritten, s, a) == 0
  {
    hide LedgerInv, VotesInv, TotalsOk, StakesOk;
  }

  lemma UnsignedCannotStake(v: Variant, s: State, step: Step)
    requires STAKE !in step.ctx.auth && Commits(v, s, step)
    ensures step.action.Delegate? ==>
            && step.action.from != STAKE
            && (step.action.transfer ==> step.action.from != step.action.receiver)
    ensures step.action.Undelegate? ==> step.action.from != STAKE && 0 < step.action.cpu.amount
  {
    hide MoveStake, UpdateVotingPower, Transfer;
  }

  /** While the staking account is covered every matured refund can be paid: its owner is never the staking
      account, its amount is positive, and neither the overdraw check nor the self-transfer check can fire. */
  lemma MaturedRefundsPay(v: Variant, g: State, run: seq<Step>, ctx: Context, owner: Name)
    requires Genesis(g) && Covered(v, g, run)
    requires var t := Exec(v, g, run); owner in t.stake.refunds && Maturity(t.stake.refunds[owner]) <= ctx.now
    requires owner in ctx.auth && owner in ctx.accounts && g.core.code in ctx.codes
    ensures var t := Exec(v, g, run);
            var r := PayRefund(t, ctx, owner);
            && r.Ok? && owner != STAKE && 0 < t.stake.refunds[owner].amount
            && owner !in r.value.stake.refunds
            && BalanceOf(r.value.ledger, owner, g.core.code)
               == BalanceOf(t.ledger, owner, g.core.code) + t.stake.refunds[owner].amount
            && StakeBalance(r.value) == StakeBalance(t) - t.stake.refunds[owner].amount
  {
    hide Exec, Genesis, Sum, SumWhere, PayRefund, LedgerInv, VotesInv;
    var t := Exec(v, g, run);
    Conservation(v, g, run);
    Solvency(v, g, run);
    SumsNonNegative(t.stake, owner, owner);
    assert Get0(Pending(t.stake), owner) == t.stake.refunds[owner].amount;
    PayRefundEffect(t, ctx, owner);
  }

  // ---------------------------------------------------------------------------------------------
  // Sums and caches

  /** In every reachable state: a voter's stake is the sum of what the account delegates; an account's
      resource weight is the sum of what is delegated to it; and while that row exists it is exactly the
      limit the host enforces. */
  lemma CachesAreSums(v: Variant, g: State, run: seq<Step>, account: Name)
    requires Genesis(g)
    ensures var t := Exec(v, g, run);
            && VoterOf(t.votes, account).staked == RowSum(t.stake, account) >= 0
            && Get0(t.stake.userres, account) == ColSum(t.stake, account) >= 0
            && (account in t.stake.userres ==>
                 && account in t.stake.cpuLimit
                 && t.stake.cpuLimit[account] == ColSum(t.stake, account))
  {
    hide Exec, Genesis, Sum, SumWhere, LedgerInv, VotesInv;
    Conservation(v, g, run);
    SumsNonNegative(Exec(v, g, run).stake, account, account);
  }

  /** In every reachable state: a list with stake behind it names only producers that have a row, and a
      list of any kind belongs to an account whose type is set; both lists and types stay well formed. */
  lemma ListsAreBacked(v: Variant, g: State, run: seq<Step>, voter: Name)
    requires Genesis(g) && voter in Exec(v, g, run).votes.voters
    ensures var t := Exec(v, g, run).votes;
            var row := t.voters[voter];
            && StrictlySorted(row.producers)
            && (row.producers != [] ==> voter in t.types && (t.types[voter] == COMPANY || t.types[voter] == GOVERNMENT))
            && (row.staked != 0 ==> forall p :: p in row.producers ==> p in t.producers)
  {
    hide Exec, Genesis, LedgerInv, StakeInv, StakesOk, TalliesOk, ProducersOk, StrictlySorted;
    Conservation(v, g, run);
  }

  /** While the staking account is covered, the two checks on negative totals never refuse an amount in the
      asset range. (Nothing checks that range before the checks are reached, and an amount that takes the
      voter's stake past 64 bits reads as negative.) */
  lemma NegativeChecksNeverFire(v: Variant, g: State, run: seq<Step>, ctx: Context, a: Action)
    requires Genesis(g) && Covered(v, g, run)
    requires (a.Delegate? || a.Undelegate?) && InRange(a.cpu.amount)
    ensures var r := Do(v, Exec(v, g, run), ctx, a);
            r.Abort? ==> r.error != NegativeTotal && r.error != NegativeStake
  {
    hide Exec, Genesis, Sum, SumWhere, RowSum, Changebw, LedgerInv, VotesInv, StakesOk;
    var t := Exec(v, g, run);
    Conservation(v, g, run);
    Solvency(v, g, run);
    BalanceWithinSupply(t.ledger, STAKE, g.core.code);
    if 0 < a.cpu.amount {
      var delta: Delta := if a.Delegate? then a.cpu.amount else -a.cpu.amount;
      var transfer := a.Delegate? && a.transfer;
      SumsNonNegative(t.stake, if transfer then a.receiver else a.from, a.receiver);
      ChangebwEffect(v, t, ctx, a.from, a.receiver, delta, transfer);
    }
  }
}
