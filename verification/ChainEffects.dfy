/** Each action on stake and refunds: exactly when it goes through, and what it leaves of every table. */
module ChainEffects {
  import opened Base
  import opened TokenLedger
  import opened Voting
  import opened VotingInvariant
  import opened VotingEffects
  import opened Staking
  import opened StakingInvariant
  import opened StakingEffects
  import opened Election
  import opened Chain
  import opened ChainInvariant

  // ---------------------------------------------------------------------------------------------
  // Changes of stake

  /** The signer can pay what the change of stake charges. */
  predicate Payable(v: Variant, s: State, ctx: Context, signer: Name, receiver: Name, delta: int, transfer: bool) {
    var charge := Charge(v, s.stake, signer, receiver, delta, transfer);
    0 < charge ==>
      && STAKE in ctx.accounts && s.core.code in ctx.codes
      && charge <= BalanceOf(s.ledger, signer, s.core.code)
  }

  /** What a change of stake leaves: the delegator's row, the receiver's total and limit and the delegator's stake
      moved by `delta`, the refund queue moved accordingly, and the charge paid to the staking account. */
  ghost predicate StakeMoved(v: Variant, s: State, t: State, signer: Name, receiver: Name, delta: int, transfer: bool,
        now: nat)
  {
    var from := Delegator(signer, receiver, transfer);
    var row := VoterOf(s.votes, from);
    && RowsMoved(s.stake, t.stake, from, receiver, delta)
    && QueueMoved(s.stake, t.stake, signer, receiver, delta, transfer, now)
    && InRange64(row.staked + delta)
    && OneRow(s.votes, t.votes, from, Voter(row.producers, row.staked + delta))
    && Regained(s.votes, t.votes, from)
    && t.ledger.stats == s.ledger.stats
    && Adds2(s.ledger, t.ledger, s.core.code, STAKE, signer, Charge(v, s.stake, signer, receiver, delta, transfer))
    && t.sched == s.sched && t.core == s.core
  }

  predicate InRange64(x: int) {
    0 <= x < TWO63
  }

  lemma ChangebwCommits(v: Variant, s: State, ctx: Context, signer: Name, receiver: Name, delta: Delta, transfer: bool)
    requires Inv(s) && delta != 0 && (delta < 0 ==> !transfer)
    ensures var r := Changebw(v, s, ctx, signer, receiver, delta, transfer);
            var row := VoterOf(s.votes, Delegator(signer, receiver, transfer));
            && (r.Ok? <==>
                 && signer in ctx.auth
                 && Movable(s.stake, signer, receiver, delta, transfer)
                 && InRange64(row.staked + delta) && Accepts(s.votes.producers, row.producers, false)
                 && Payable(v, s, ctx, signer, receiver, delta, transfer))
            && (r.Ok? ==> StakeMoved(v, s, r.value, signer, receiver, delta, transfer, ctx.now))
  {
    hide MoveStake, UpdateVotingPower, Transfer, LedgerInv, VotesInv, StakeInv, StakesOk, Charge, Movable, RowsMoved,
      QueueMoved, OneRow, Regained, Accepts;
    var from := Delegator(signer, receiver, transfer);
    MoveStakeCommits(v, s.stake, signer, receiver, delta, transfer, ctx.now);
    MoveStakeRows(v, s.stake, signer, receiver, delta, transfer, ctx.now);
    MoveStakeQueue(v, s.stake, signer, receiver, delta, transfer, ctx.now);
    PowerEffect(s.votes, from, delta);
    ChargeBounds(v, s.stake, signer, receiver, delta, transfer);
    ChargePaid(v, s, ctx, signer, receiver, delta, transfer);
  }

  lemma ChargePaid(v: Variant, s: State, ctx: Context, signer: Name, receiver: Name, delta: Delta, transfer: bool)
    requires Inv(s) && InRange64(Charge(v, s.stake, signer, receiver, delta, transfer))
    ensures var charge := Charge(v, s.stake, signer, receiver, delta, transfer);
            var r := Payment(s, ctx, signer, charge);
            && (signer in ctx.auth ==> (r.Ok? <==> Payable(v, s, ctx, signer, receiver, delta, transfer)))
            && (r.Ok? ==>
                 && r.value.stats == s.ledger.stats
                 && Adds2(s.ledger, r.value, s.core.code, STAKE, signer, charge))
  {
    hide Transfer, LedgerInv, VotesInv, StakeInv, StakesOk;
    var charge := Charge(v, s.stake, signer, receiver, delta, transfer);
    BalanceWithinSupply(s.ledger, signer, s.core.code);
    TransferEffect(s.ledger, ctx.(auth := {signer}), signer, STAKE, Asset(charge, s.core), STAKE_MEMO);
    assert |STAKE_MEMO| <= MAX_MEMO;
  }

  /** Delegating goes through exactly when the signer is the payer; the quantities are a zero and a positive amount
      of the core token; stake is not transferred to the signer itself; the rows can take the amount; the
      delegator's stake stays within 64 bits and its list names only producers with a row; and the signer can pay
      the charge. Then the stake moves as stated. */
  lemma DelegateCommits(v: Variant, s: State, ctx: Context, from: Name, receiver: Name, net: Asset, cpu: Asset,
        transfer: bool)
    requires Inv(s)
    ensures var r := Delegatebw(v, s, ctx, from, receiver, net, cpu, transfer);
            var row := VoterOf(s.votes, Delegator(from, receiver, transfer));
            && (r.Ok? <==>
                 && from in ctx.auth
                 && net.amount == 0 && net.symbol == s.core && 0 < cpu.amount && cpu.symbol == s.core
                 && (transfer ==> from != receiver)
                 && Movable(s.stake, from, receiver, cpu.amount, transfer)
                 && InRange64(row.staked + cpu.amount) && Accepts(s.votes.producers, row.producers, false)
                 && Payable(v, s, ctx, from, receiver, cpu.amount, transfer))
            && (r.Ok? ==> StakeMoved(v, s, r.value, from, receiver, cpu.amount, transfer, ctx.now))
  {
    hide Inv, Changebw, StakeMoved, Movable, Payable, Accepts;
    if 0 < cpu.amount { ChangebwCommits(v, s, ctx, from, receiver, cpu.amount, transfer); }
  }

  /** Undelegating goes through exactly when the signer is the delegator, the quantities are a zero and a positive
      amount of the core token, and the rows can take the withdrawal. No list and no balance can stop it. */
  lemma UndelegateCommits(v: Variant, s: State, ctx: Context, from: Name, receiver: Name, net: Asset, cpu: Asset)
    requires Inv(s)
    ensures var r := Undelegatebw(v, s, ctx, from, receiver, net, cpu);
            && (r.Ok? <==>
                 && from in ctx.auth
                 && net.amount == 0 && net.symbol == s.core && 0 < cpu.amount && cpu.symbol == s.core
                 && Movable(s.stake, from, receiver, -(cpu.amount as int), false))
            && (r.Ok? ==> StakeMoved(v, s, r.value, from, receiver, -(cpu.amount as int), false, ctx.now))
  {
    hide Inv, Changebw, StakeMoved, Movable, Accepts;
    if 0 < cpu.amount {
      ChangebwCommits(v, s, ctx, from, receiver, -cpu.amount, false);
      if Movable(s.stake, from, receiver, -(cpu.amount as int), false) {
        WithdrawalIsFree(s, from, receiver, cpu.amount);
      }
    }
  }

  /** Stake that is delegated has a voter's stake behind it, and that a list of producers with rows. */
  lemma WithdrawalIsFree(s: State, from: Name, receiver: Name, q: Delta)
    requires Inv(s) && 0 < q && Movable(s.stake, from, receiver, -q, false)
    ensures var row := VoterOf(s.votes, from);
            InRange64(row.staked - q) && Accepts(s.votes.producers, row.producers, false)
  {
    hide LedgerInv, TotalsOk, LimitsOk, TalliesOk, ProducersOk, StrictlySorted, RowSum, ColSum;
    SumsNonNegative(s.stake, from, receiver);
    OldStake(s, from);
    OldRowOk(s.votes, from);
  }

  // ---------------------------------------------------------------------------------------------
  // Refunds

  /** A refund goes through exactly when its owner signs and exists, it is pending and three days old, and the
      staking account holds it. Then the row is gone, the amount has moved from the staking account to the owner,
      and nothing else has changed, the schedule included. */
  lemma RefundCommits(s: State, ctx: Context, owner: Name)
    requires Inv(s)
    ensures var r := PayRefund(s, ctx, owner);
            && (r.Ok? <==> owner in ctx.auth && RefundReady(s, ctx, owner))
            && (r.Ok? ==> RefundPaid(s, r.value, owner))
  {
    hide LedgerInv, VotesInv, StakesOk, TotalsOk, LimitsOk, Transfer;
    if owner in s.stake.refunds {
      var q := Asset(s.stake.refunds[owner].amount, s.core);
      TransferEffect(s.ledger, ctx.(auth := {STAKE, owner}), STAKE, owner, q, REFUND_MEMO);
      BalanceWithinSupply(s.ledger, STAKE, s.core.code);
      assert |REFUND_MEMO| <= MAX_MEMO;
    }
  }

  predicate RefundReady(s: State, ctx: Context, owner: Name) {
    && owner in s.stake.refunds
    && s.stake.refunds[owner].time * 1_000_000 + 3 * 24 * 3600 * 1_000_000 <= ctx.now
    && owner in ctx.accounts && s.core.code in ctx.codes
    && s.stake.refunds[owner].amount <= StakeBalance(s)
  }

  ghost predicate RefundPaid(s: State, t: State, owner: Name) {
    && owner in s.stake.refunds && t.stake == s.stake.(refunds := t.stake.refunds)
    && t.stake.refunds.Keys == s.stake.refunds.Keys - {owner}
    && (forall f :: f in t.stake.refunds ==> t.stake.refunds[f] == s.stake.refunds[f])
    && t.ledger.stats == s.ledger.stats
    && Adds2(s.ledger, t.ledger, s.core.code, owner, STAKE, s.stake.refunds[owner].amount)
    && (t.votes, t.sched, t.core) == (s.votes, s.sched, s.core)
  }

  /** The host runs a scheduled refund exactly when it is due. The entry is gone afterwards; the refund is paid if
      it is ready, and otherwise nothing else changes. */
  lemma DeferredCommits(s: State, ctx: Context, owner: Name)
    requires Inv(s)
    ensures var r := RunDeferred(s, ctx, owner);
            var popped := s.(stake := s.stake.(deferred := s.stake.deferred - {owner}));
            && (r.Ok? <==> owner in s.stake.deferred && s.stake.deferred[owner] <= ctx.now)
            && (r.Ok? ==> if RefundReady(s, ctx, owner) then RefundPaid(popped, r.value, owner) else r.value == popped)
  {
    hide Inv, PayRefund, RefundPaid;
    var popped := s.(stake := s.stake.(deferred := s.stake.deferred - {owner}));
    UnscheduleKeeps(s, s.stake.deferred - {owner});
    RefundCommits(popped, ctx.(auth := {owner}), owner);
  }

  // ---------------------------------------------------------------------------------------------
  // Resource rows

  /** Nothing but the resource row and the limit of one account differs. */
  ghost predicate OneLimit(s: State, t: State, account: Name, limit: int) {
    && t == s.(stake := s.stake.(userres := t.stake.userres, cpuLimit := t.stake.cpuLimit))
    && account in t.stake.cpuLimit && t.stake.cpuLimit[account] == limit
    && (forall a: Name :: a != account ==>
         && (a in t.stake.cpuLimit <==> a in s.stake.cpuLimit) && Get0(t.stake.cpuLimit, a) == Get0(s.stake.cpuLimit, a)
         && (a in t.stake.userres <==> a in s.stake.userres) && Get0(t.stake.userres, a) == Get0(s.stake.userres, a))
  }

  /** A new account gets an empty resource row and a limit of zero, exactly when it has no row yet. */
  lemma NewAccountEffect(s: State, account: Name)
    ensures var r := NewAccount(s, account);
            && (r.Ok? <==> account !in s.stake.userres)
            && (r.Ok? ==>
                 && OneLimit(s, r.value, account, 0)
                 && account in r.value.stake.userres && r.value.stake.userres[account] == 0)
  {
  }

  /** A limit is set by hand exactly by the system account, and only for an account without a resource row. */
  lemma SetAlimitsEffect(s: State, ctx: Context, account: Name, limit: int64)
    ensures var r := SetAlimits(s, ctx, account, limit);
            && (r.Ok? <==> SYSTEM in ctx.auth && account !in s.stake.userres)
            && (r.Ok? ==> OneLimit(s, r.value, account, limit) && account !in r.value.stake.userres)
  {
  }

  // ---------------------------------------------------------------------------------------------
  // Any action

  /** A producer is deactivated exactly by itself, or by the system account, and only if it has a row. */
  lemma DeactivateCommits(v: Variant, s: State, ctx: Context, signer: Name, producer: Name)
    ensures Do(v, s, ctx, Unreg(signer, producer)).Ok? <==>
              signer in {producer, SYSTEM} && signer in ctx.auth && producer in s.votes.producers
  {
  }

  /** Each kind of action writes only the tables of its own concern. */
  lemma EachToItsOwn(v: Variant, s: State, ctx: Context, a: Action)
    ensures var r := Do(v, s, ctx, a);
            r.Ok? ==>
              match a
              case Token(t) => Act(s.ledger, ctx, t) == Ok(r.value.ledger) && r.value == s.(ledger := r.value.ledger)
              case Delegate(_, _, _, _, _) => (r.value.sched, r.value.core) == (s.sched, s.core)
              case Undelegate(_, _, _, _) => (r.value.sched, r.value.core) == (s.sched, s.core)
              case RefundAction(_) => r.value == s.(stake := r.value.stake, ledger := r.value.ledger)
              case DeferredRefund(_) => r.value == s.(stake := r.value.stake, ledger := r.value.ledger)
              case NewAccountAction(_) => r.value == s.(stake := r.value.stake)
              case SetAlimitsAction(_, _) => r.value == s.(stake := r.value.stake)
              case BlockAction(_, _) => r.value == s.(sched := r.value.sched)
              case _ => r.value == s.(votes := r.value.votes)
  {
    hide MoveStake, UpdateVotingPower, Transfer, Act, VoteProducer, RegProducer, Unregister, SetVWeight, SetAcntType,
      OnBlock, Index;
  }
}
