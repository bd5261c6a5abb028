/** Taking stake out and putting it back before the refund is paid undoes the first step. */
module RoundTrip {
  import opened Base
  import opened Sums
  import opened TokenLedger
  import opened Voting
  import opened VotingInvariant
  import opened Staking
  import opened StakingInvariant
  import opened Chain
  import opened ChainInvariant
  import opened Runs

  // ---------------------------------------------------------------------------------------------
  // Votes

  /** Withdrawing stake and restoring it always goes through on the voting side, and brings back every
      voter's row and every tally. */
  lemma VotesRestored(v: Votes, account: Name, q: Delta)
    requires VotesInv(v) && 0 < q && UpdateVotingPower(v, account, -q).Ok?
    ensures var v1 := UpdateVotingPower(v, account, -q).value;
            var r := UpdateVotingPower(v1, account, q);
            && r.Ok? && r.value.voters == v.voters && r.value.types == v.types && r.value.weights == v.weights
            && r.value.producers.Keys == v.producers.Keys
            && forall p :: p in v.producers ==>
                 && r.value.producers[p].company == v.producers[p].company
                 && r.value.producers[p].government == v.producers[p].government
  {
    hide UpdateProducersVotes, Recount, RollOk, ProducersOk, StrictlySorted, Wrap64;
    var row := VoterOf(v, account);
    UpdateVotingPowerKeeps(v, account, -q);
    var v1 := UpdateVotingPower(v, account, -q).value;
    UpdateVotingPowerKeeps(v1, account, q);
    OldRowOk(v, account);
    if account in v.types {
      UpdateSucceeds(v.producers, v.weights, v.types[account], false,
        row.producers, row.staked, row.producers, row.staked - q);
      UpdateSucceeds(v1.producers, v.weights, v.types[account], false,
        row.producers, row.staked - q, row.producers, row.staked);
    }
    var r := UpdateVotingPower(v1, account, q);
    assert r.Ok?;
    assert r.value.voters == v.voters;
    forall p | p in v.producers ensures Tallied(v, p) && Tallied(r.value, p) {}
  }

  // ---------------------------------------------------------------------------------------------
  // Staking tables

  /** A row that returns to `amount` after `q` was taken out: a row that survived is range checked. */
  predicate Returns(amount: int, q: int) {
    amount == q || amount <= MAX_AMOUNT
  }

  /** One amount row taken down by `q` and back up: it goes through exactly when the row returns. */
  lemma RowReturns<K>(m: map<K, int>, k: K, q: int)
    requires k in m && 0 < q <= m[k]
    ensures Store(Store(m, k, m[k] - q), k, m[k]) == m
    ensures Get0(Store(m, k, m[k] - q), k) + q == m[k]
    ensures Returns(m[k], q) <==> (k !in Store(m, k, m[k] - q) || InRange(m[k]))
  {
  }

  lemma DelbandRestored(s: Stake, s1: Stake, account: Name, q: Delta)
    requires RowsPositive(s) && 0 < q && UpdateDelband(s, account, account, -q).Ok?
    requires s1.delband == UpdateDelband(s, account, account, -q).value.delband
    ensures var r := UpdateDelband(s1, account, account, q);
            && (r.Ok? <==> Returns(Get0(s.delband, (account, account)), q))
            && (r.Ok? ==> r.value == s1.(delband := s.delband))
  {
    hide Store, Returns;
    RowReturns(s.delband, (account, account), q);
  }

  lemma TotalsRestored(s: Stake, s1: Stake, account: Name, q: Delta)
    requires account in s.userres && q <= s.userres[account] && account in s.cpuLimit
        && s.cpuLimit[account] == s.userres[account]
    requires 0 < q && UpdateTotals(s, account, -q).Ok?
    requires s1.userres == UpdateTotals(s, account, -q).value.userres
        && s1.cpuLimit == UpdateTotals(s, account, -q).value.cpuLimit
    ensures var r := UpdateTotals(s1, account, q);
            && (r.Ok? <==> Returns(s.userres[account], q))
            && (r.Ok? ==> r.value == s1.(userres := s.userres, cpuLimit := s.cpuLimit))
  {
    hide Store, Returns;
    RowReturns(s.userres, account, q);
    var r := UpdateTotals(s1, account, q);
    if r.Ok? { assert r.value.cpuLimit == s.cpuLimit; }
  }

  /** Undelegating adds to the pending refund and leaves nothing to pay. */
  lemma RefundGrows(v: Variant, s: Stake, from: Name, receiver: Name, q: Delta, now: nat)
    requires 0 < q && (from in s.refunds ==> 0 < s.refunds[from].amount)
    ensures var r := UpdateRefund(v, s, from, receiver, -q, false, now);
            && (PendingOf(s, from) + q <= MAX_AMOUNT ==> r.Ok?)
            && (r.Ok? ==>
                 && PendingOf(s, from) <= MAX_AMOUNT && r.value.1 == 0
                 && r.value.0 == s.(refunds := s.refunds[from := Refund(Seconds(now), PendingOf(s, from) + q)],
                                    deferred := s.deferred - {from} + map[from := now + REFUND_DELAY]))
  {
    assert (s.deferred - {from})[from := now + REFUND_DELAY] == s.deferred - {from} + map[from := now + REFUND_DELAY];
  }

  /** Delegating to oneself no more than is pending takes it from the pending refund alone. */
  lemma RefundShrinks(v: Variant, s: Stake, account: Name, q: Delta, now: nat)
    requires account in s.refunds && 0 < q <= s.refunds[account].amount
    ensures var r := UpdateRefund(v, s, account, account, q, false, now);
            && (s.refunds[account].amount - q <= MAX_AMOUNT ==> r.Ok?)
            && (r.Ok? ==>
                 && r.value.1 == 0
                 && r.value.0 == s.(refunds := r.value.0.refunds, deferred := r.value.0.deferred)
                 && r.value.0.refunds - {account} == s.refunds - {account}
                 && (account in r.value.0.refunds <==> q < s.refunds[account].amount)
                 && PendingOf(r.value.0, account) == s.refunds[account].amount - q)
  {
  }

  /** Only the request time and the schedule are not restored. */
  lemma RefundRestored(v: Variant, s: Stake, s1: Stake, account: Name, q: Delta, now: nat, later: nat)
    requires (forall f :: f in s.refunds ==> 0 < s.refunds[f].amount) && 0 < q
    requires UpdateRefund(v, s, account, account, -q, false, now).Ok?
    requires s1.refunds == UpdateRefund(v, s, account, account, -q, false, now).value.0.refunds
    ensures var r := UpdateRefund(v, s1, account, account, q, false, later);
            && r.Ok? && r.value.1 == 0
            && r.value.0 == s1.(refunds := r.value.0.refunds, deferred := r.value.0.deferred)
            && Pending(r.value.0) == Pending(s)
  {
    hide Pending, UpdateRefund;
    RefundGrows(v, s, account, account, q, now);
    RefundShrinks(v, s1, account, q, later);
    SamePending(s, UpdateRefund(v, s1, account, account, q, false, later).value.0, account);
  }

  lemma SamePending(s: Stake, t: Stake, account: Name)
    requires s.refunds - {account} == t.refunds - {account}
    requires account in s.refunds <==> account in t.refunds
    requires PendingOf(s, account) == PendingOf(t, account)
    ensures Pending(s) == Pending(t)
  {
    assert s.refunds.Keys == (s.refunds - {account}).Keys + (if account in s.refunds then {account} else {});
    assert t.refunds.Keys == (t.refunds - {account}).Keys + (if account in t.refunds then {account} else {});
    forall f | f in s.refunds ensures s.refunds[f].amount == t.refunds[f].amount {
      if f != account { assert (s.refunds - {account})[f] == (t.refunds - {account})[f]; }
    }
  }

  lemma StakeRestored(v: Variant, s: Stake, account: Name, q: Delta, now: nat, later: nat)
    requires StakeInv(s) && 0 < q && MoveStake(v, s, account, account, -q, false, now).Ok?
    ensures var (s1, paid) := MoveStake(v, s, account, account, -q, false, now).value;
            var r := MoveStake(v, s1, account, account, q, false, later);
            && paid == 0
            && (r.Ok? <==> Returns(Get0(s.delband, (account, account)), q) && Returns(Get0(s.userres, account), q))
            && (r.Ok? ==>
                 var (s2, balance) := r.value;
                 && balance == 0 && s2.delband == s.delband && s2.userres == s.userres && s2.cpuLimit == s.cpuLimit
                 && Pending(s2) == Pending(s))
  {
    hide Returns, TotalsOk, UpdateDelband, UpdateTotals, UpdateRefund;
    var (s1, _) := MoveStake(v, s, account, account, -q, false, now).value;
    TotalCoversRow(s, account, account);
    Footprints(v, s, account, -q, now);
    var delegated := UpdateDelband(s, account, account, -q).value;
    Footprints(v, delegated, account, -q, now);
    var totalled := UpdateTotals(delegated, account, -q).value;
    Footprints(v, totalled, account, -q, now);
    DelbandRestored(s, s1, account, q);
    TotalsRestored(delegated, s1.(delband := s.delband), account, q);
    if account != STAKE {
      RefundRestored(v, totalled, s1.(delband := s.delband, userres := s.userres, cpuLimit := s.cpuLimit), account, q,
        now, later);
    }
  }

  /** What each update writes. */
  lemma Footprints(v: Variant, s: Stake, account: Name, delta: Delta, now: nat)
    ensures var r := UpdateDelband(s, account, account, delta);
            r.Ok? ==> r.value == s.(delband := r.value.delband) && 0 <= Get0(s.delband, (account, account)) + delta
    ensures var r := UpdateTotals(s, account, delta);
            r.Ok? ==> r.value == s.(userres := r.value.userres, cpuLimit := r.value.cpuLimit)
    ensures var r := UpdateRefund(v, s, account, account, delta, false, now);
            r.Ok? ==> r.value.0 == s.(refunds := r.value.0.refunds, deferred := r.value.0.deferred)
                      && (delta < 0 && (account in s.refunds ==> 0 < s.refunds[account].amount) ==> r.value.1 == 0)
  {
    hide Store;
  }

  lemma TotalCoversRow(s: Stake, from: Name, receiver: Name)
    requires StakeInv(s)
    ensures Get0(s.delband, (from, receiver)) <= Get0(s.userres, receiver)
    ensures 0 < Get0(s.userres, receiver) ==> receiver in s.userres
  {
    hide SumWhere;
    SumsNonNegative(s, from, receiver);
  }

  // ---------------------------------------------------------------------------------------------
  // The round trip

  /** Everything the round trip must bring back. */
  ghost predicate Restored(s: State, t: State) {
    && t.stake.delband == s.stake.delband && t.stake.userres == s.stake.userres && t.stake.cpuLimit == s.stake.cpuLimit
    && Pending(t.stake) == Pending(s.stake)
    && t.ledger == s.ledger
    && t.votes.voters == s.votes.voters
    && t.votes.producers.Keys == s.votes.producers.Keys
    && forall p :: p in s.votes.producers ==>
         && t.votes.producers[p].company == s.votes.producers[p].company
         && t.votes.producers[p].government == s.votes.producers[p].government
  }

  /** From any state that satisfies the invariant, undelegating from oneself and delegating the same amount
      back restores delegations, totals, limits, pending amounts, every balance, every voter's stake and
      every tally, and moves no token. The second step goes through exactly when the two rows it returns to
      are within the asset range, or were emptied by the first step. */
  lemma UndelegateThenDelegate(v: Variant, s: State, ctx: Context, ctx': Context, account: Name, q: Asset)
    requires Inv(s) && account in ctx'.auth
    requires Undelegatebw(v, s, ctx, account, account, Asset(0, s.core), q).Ok?
    ensures var s1 := Undelegatebw(v, s, ctx, account, account, Asset(0, s.core), q).value;
            var r := Delegatebw(v, s1, ctx', account, account, Asset(0, s.core), q, false);
            && (r.Ok? <==>
                 && Returns(Get0(s.stake.delband, (account, account)), q.amount)
                 && Returns(Get0(s.stake.userres, account), q.amount))
            && (r.Ok? ==> Restored(s, r.value))
  {
    hide LedgerInv, CoreOk, StakesOk, StakeInv, VotesInv, MoveStake, UpdateVotingPower, Pending, Transfer, Returns;
    StakeRestored(v, s.stake, account, q.amount, ctx.now, ctx'.now);
    VotesRestored(s.votes, account, q.amount);
  }

  /** While the staking account is covered the way back is always open. */
  lemma WayBackIsOpen(v: Variant, g: State, run: seq<Step>, ctx: Context, ctx': Context, account: Name, q: Asset)
    requires Genesis(g) && Covered(v, g, run) && account in ctx'.auth
    requires Undelegatebw(v, Exec(v, g, run), ctx, account, account, Asset(0, g.core), q).Ok?
    ensures var t := Exec(v, g, run);
            var t1 := Undelegatebw(v, t, ctx, account, account, Asset(0, g.core), q).value;
            var r := Delegatebw(v, t1, ctx', account, account, Asset(0, g.core), q, false);
            r.Ok? && Restored(t, r.value)
  {
    hide Exec, Genesis, Covered, Undelegatebw, Delegatebw, LedgerInv, VotesInv, StakesOk, Sum, SumWhere, Restored;
    var t := Exec(v, g, run);
    Conservation(v, g, run);
    Solvency(v, g, run);
    SumsNonNegative(t.stake, account, account);
    BalanceWithinSupply(t.ledger, STAKE, g.core.code);
    UndelegateThenDelegate(v, t, ctx, ctx', account, q);
  }

  // ---------------------------------------------------------------------------------------------
  // The way out

  /** Taking out stake that is there goes through on the staking tables and queues it for refund. */
  lemma StakeLeaves(v: Variant, s: Stake, from: Name, receiver: Name, q: Delta, now: nat)
    requires StakeInv(s) && 0 < q <= Get0(s.delband, (from, receiver))
    requires Sum(s.delband) + Sum(Pending(s)) <= MAX_AMOUNT
    ensures var r := MoveStake(v, s, from, receiver, -q, false, now);
            && r.Ok? && r.value.1 == 0
            && (from != STAKE ==>
                  && from in r.value.0.refunds
                  && r.value.0.refunds[from] == Refund(Seconds(now), PendingOf(s, from) + q)
                  && from in r.value.0.deferred && r.value.0.deferred[from] == now + REFUND_DELAY)
  {
    hide Sum, SumWhere;
    SumsNonNegative(s, from, receiver);
    assert Get0(Pending(s), from) == PendingOf(s, from);
    TotalCoversRow(s, from, receiver);
    TotalIsBounded(s, receiver);
  }

  lemma TotalIsBounded(s: Stake, receiver: Name)
    requires StakeInv(s)
    ensures Get0(s.userres, receiver) <= Sum(s.delband)
  {
    hide Sum, SumWhere;
    SumsNonNegative(s, receiver, receiver);
  }

  /** Taking out stake that is there goes through on the voting side: a list with stake behind it names no
      missing producer. */
  lemma VotesLeave(v: Votes, account: Name, q: Delta)
    requires VotesInv(v) && 0 < q <= VoterOf(v, account).staked
    ensures UpdateVotingPower(v, account, -q).Ok?
  {
    hide UpdateProducersVotes, TalliesOk, ProducersOk, StrictlySorted, Wrap64;
    var row := VoterOf(v, account);
    OldRowOk(v, account);
    StakeFits(row.staked, -q);
    if account in v.types {
      UpdateSucceeds(v.producers, v.weights, v.types[account], false,
        row.producers, row.staked, row.producers, row.staked - q);
    }
  }

  /** Stake is never locked in. While the staking account is covered, undelegating goes through if and only
      if the delegator signs for a positive core amount of no more than is delegated to that receiver. Then
      the amount is queued for refund and no token moves. */
  lemma WayOutIsOpen(v: Variant, g: State, run: seq<Step>, ctx: Context, from: Name, receiver: Name, q: Asset)
    requires Genesis(g) && Covered(v, g, run)
    ensures var t := Exec(v, g, run);
            var r := Undelegatebw(v, t, ctx, from, receiver, Asset(0, g.core), q);
            && (r.Ok? <==> && from in ctx.auth && q.symbol == g.core
                           && 0 < q.amount <= Get0(t.stake.delband, (from, receiver)))
            && (r.Ok? ==>
                 && r.value.ledger == t.ledger
                 && (from != STAKE ==>
                       && from in r.value.stake.refunds
                       && r.value.stake.refunds[from] == Refund(Seconds(ctx.now), PendingOf(t.stake, from) + q.amount)))
  {
    hide Exec, Genesis, Covered, MoveStake, UpdateVotingPower, LedgerInv, VotesInv, Sum, SumWhere, RowSum, Pending;
    var t := Exec(v, g, run);
    Conservation(v, g, run);
    Solvency(v, g, run);
    BalanceWithinSupply(t.ledger, STAKE, g.core.code);
    SumsNonNegative(t.stake, from, receiver);
    if 0 < q.amount {
      if q.amount <= Get0(t.stake.delband, (from, receiver)) {
        StakeLeaves(v, t.stake, from, receiver, q.amount, ctx.now);
        OldStake(t, from);
        VotesLeave(t.votes, from, q.amount);
      } else {
        NothingThere(v, t.stake, from, receiver, q.amount, ctx.now);
      }
    }
  }

  lemma NothingThere(v: Variant, s: Stake, from: Name, receiver: Name, q: Delta, now: nat)
    requires RowsPositive(s) && Get0(s.delband, (from, receiver)) < q
    ensures MoveStake(v, s, from, receiver, -q, false, now).Abort?
  {
    hide UpdateDelband, UpdateTotals, UpdateRefund;
    UpdateDelbandEffect(s, from, receiver, -q);
  }
}
