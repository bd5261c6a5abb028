/** When refunds are paid, over whole runs with a clock that never goes back. */
module TimingRuns {
  import opened Base
  import opened Histories
  import opened TokenLedger
  import opened Voting
  import opened Staking
  import opened StakingInvariant
  import opened Chain
  import opened ChainInvariant
  import opened Runs

  predicate ClockOk(run: seq<Step>) {
    Forward(run, (step: Step) => step.ctx.now)
  }

  /** When `owner` last undelegated, from whatever receiver. */
  ghost function LastUndelegation(v: Variant, g: State, run: seq<Step>, owner: Name): Moment
    decreases |run|
  {
    if run == [] then Never
    else
      var step := Latest(run);
      var undelegates := step.action.Undelegate? && step.action.from == owner;
      if Commits(v, Exec(v, g, Earlier(run)), step) && undelegates then At(step.ctx.now)
      else LastUndelegation(v, g, Earlier(run), owner)
  }

  /** A pending refund carries the second of the owner's last undelegation, and a scheduled refund
      transaction beside it is not due before the refund matures. */
  ghost predicate Timed(s: Stake, owner: Name, last: Moment, clock: nat) {
    owner in s.refunds ==>
      && last.At? && last.time <= clock && s.refunds[owner].time == Seconds(last.time)
      && (owner in s.deferred ==> Maturity(s.refunds[owner]) <= s.deferred[owner])
  }

  lemma UpdateRefundTimed(v: Variant, s: Stake, from: Name, receiver: Name, delta: Delta, transfer: bool, now: nat,
                          owner: Name, last: Moment, clock: nat)
    requires Timed(s, owner, last, clock) && clock <= now
    ensures var r := UpdateRefund(v, s, from, receiver, delta, transfer, now);
            r.Ok? ==> Timed(r.value.0, owner, if delta < 0 && from == owner then At(now) else last, now)
  {
  }

  /** A stake change touches the timing of nobody but the delegator, and keeps it right. */
  lemma MoveStakeTimed(v: Variant, s: Stake, signer: Name, receiver: Name, delta: Delta, transfer: bool, now: nat,
                       owner: Name, last: Moment, clock: nat)
    requires Timed(s, owner, last, clock) && clock <= now && (delta < 0 ==> !transfer)
    requires STAKE !in s.refunds
    ensures var r := MoveStake(v, s, signer, receiver, delta, transfer, now);
            r.Ok? ==> Timed(r.value.0, owner, if delta < 0 && signer == owner then At(now) else last, now)
  {
    hide UpdateRefund, Store;
    var from := if transfer then receiver else signer;
    var delegated := UpdateDelband(s, from, receiver, delta);
    if delegated.Ok? {
      var totalled := UpdateTotals(delegated.value, receiver, delta);
      if totalled.Ok? {
        UpdateRefundTimed(v, totalled.value, from, receiver, delta, transfer, now, owner, last, clock);
      }
    }
  }

  lemma StepTimed(v: Variant, s: State, ctx: Context, a: Action, owner: Name, last: Moment, clock: nat)
    requires Inv(s) && Timed(s.stake, owner, last, clock) && clock <= ctx.now
    requires Do(v, s, ctx, a).Ok?
    ensures Timed(Do(v, s, ctx, a).value.stake, owner,
              if a.Undelegate? && a.from == owner then At(ctx.now) else last, ctx.now)
  {
    hide MoveStake, UpdateVotingPower, Act, Transfer, VoteProducer, RegProducer, Unregister, LedgerInv,
      TotalsOk, StakesOk, Maturity;
    match a {
      case Delegate(from, receiver, _, cpu, transfer) =>
        MoveStakeTimed(v, s.stake, from, receiver, cpu.amount, transfer, ctx.now, owner, last, clock);
      case Undelegate(from, receiver, _, cpu) =>
        MoveStakeTimed(v, s.stake, from, receiver, -cpu.amount, false, ctx.now, owner, last, clock);
      case _ =>
    }
  }

  lemma {:induction false} RefundsAreTimed(v: Variant, g: State, run: seq<Step>, owner: Name)
    requires Genesis(g) && ClockOk(run)
    ensures Timed(Exec(v, g, run).stake, owner, LastUndelegation(v, g, run, owner),
              if run == [] then 0 else Latest(run).ctx.now)
    decreases |run|
  {
    hide Inv, Do, LedgerInv, CoreOk, Maturity;
    if run != [] {
      RefundsAreTimed(v, g, Earlier(run), owner);
      Conservation(v, g, Earlier(run));
      var s := Exec(v, g, Earlier(run));
      var clock := if Earlier(run) == [] then 0 else Latest(Earlier(run)).ctx.now;
      if Commits(v, s, Latest(run)) {
        StepTimed(v, s, Latest(run).ctx, Latest(run).action, owner, LastUndelegation(v, g, Earlier(run), owner), clock);
      }
    }
  }

  /** A step that pays the pending refund of `owner`: the owner's own action, or the scheduled transaction
      when it takes the row away. */
  ghost predicate Pays(v: Variant, s: State, step: Step, owner: Name) {
    && Commits(v, s, step)
    && (step.action == RefundAction(owner) || step.action == DeferredRefund(owner))
    && owner in s.stake.refunds && owner !in Apply(v, s, step).stake.refunds
  }

  /** Whenever a refund is paid, by the owner's action or by the scheduled transaction, the owner's latest
      undelegation, cut to whole seconds, lies at least three days back. */
  lemma PaidOnlyAfterDelay(v: Variant, g: State, run: seq<Step>, step: Step, owner: Name)
    requires Genesis(g) && ClockOk(run) && Pays(v, Exec(v, g, run), step, owner)
    ensures LastUndelegation(v, g, run, owner).At?
    ensures Seconds(LastUndelegation(v, g, run, owner).time) * 1_000_000 + REFUND_DELAY <= step.ctx.now
  {
    hide Exec, LastUndelegation, Genesis, Transfer;
    RefundsAreTimed(v, g, run, owner);
  }

  /** The owner's action pays whenever it commits. */
  lemma RefundActionPays(v: Variant, s: State, step: Step, owner: Name)
    requires step.action == RefundAction(owner) && Commits(v, s, step)
    ensures Pays(v, s, step, owner)
  {
    hide Transfer, Maturity;
  }

  /** A scheduled refund that comes due and finds its row is never too early. */
  lemma DueMeansMature(v: Variant, g: State, run: seq<Step>, owner: Name, now: nat)
    requires Genesis(g) && ClockOk(run)
    requires var s := Exec(v, g, run).stake; owner in s.refunds && owner in s.deferred && s.deferred[owner] <= now
    ensures Maturity(Exec(v, g, run).stake.refunds[owner]) <= now
  {
    hide Exec, LastUndelegation, Genesis, Maturity;
    RefundsAreTimed(v, g, run, owner);
  }

  /** While the staking account is covered, a scheduled refund that comes due and finds its row pays it. */
  lemma DueRefundPays(v: Variant, g: State, run: seq<Step>, ctx: Context, owner: Name)
    requires Genesis(g) && ClockOk(run) && Covered(v, g, run)
    requires var s := Exec(v, g, run).stake; owner in s.refunds && owner in s.deferred && s.deferred[owner] <= ctx.now
    requires owner in ctx.accounts && g.core.code in ctx.codes
    ensures var t := Exec(v, g, run);
            var r := RunDeferred(t, ctx, owner);
            && r.Ok? && owner !in r.value.stake.refunds && owner !in r.value.stake.deferred
            && BalanceOf(r.value.ledger, owner, g.core.code)
               == BalanceOf(t.ledger, owner, g.core.code) + t.stake.refunds[owner].amount
  {
    hide Exec, Genesis, Covered, PayRefund, Maturity, Inv, LastUndelegation;
    var t := Exec(v, g, run);
    DueMeansMature(v, g, run, owner, ctx.now);
    MaturedRefundsPay(v, g, run, ctx.(auth := {owner}), owner);
    PayIgnoresSchedule(t, ctx.(auth := {owner}), owner);
  }

  /** Paying a refund neither reads nor writes the schedule. */
  lemma PayIgnoresSchedule(s: State, ctx: Context, owner: Name)
    ensures var popped := s.(stake := s.stake.(deferred := s.stake.deferred - {owner}));
            var r := PayRefund(s, ctx, owner);
            && PayRefund(popped, ctx, owner).Ok? == r.Ok?
            && (r.Ok? ==>
                 && PayRefund(popped, ctx, owner).value.ledger == r.value.ledger
                 && PayRefund(popped, ctx, owner).value.stake == r.value.stake.(deferred := s.stake.deferred - {owner}))
  {
    hide Transfer, Maturity;
  }
}
