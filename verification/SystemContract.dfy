/** The system contract as an object that updates its tables in place: staking, voting, and the schedule. */
module SystemContract {
  import opened Base
  import opened TokenLedger
  import opened TokenContract
  import opened Voting
  import opened Staking
  import opened Election
  import Chain

  /** `core` is the core symbol. `deferred` and `cpuLimit` are kept by the host on the contract's behalf. */
  class System {
    const token: Token
    const core: Symbol

    var delband: map<(Name, Name), int>
    var userres: map<Name, int>
    var refunds: map<Name, Refund>
    var deferred: map<Name, nat>
    var cpuLimit: map<Name, int>

    var voters: map<Name, Voter>
    var acntype: map<Name, Name>
    var producers: map<Name, Producer>
    var weights: Weights

    var lastUpdate: uint32
    var lastSize: nat

    constructor (token: Token, core: Symbol)
      ensures this.token == token
      ensures View() == Chain.State(Stake(map[], map[], map[], map[], map[]),
                                    Votes(map[], map[], map[], Weights(100, 100)),
                                    Sched(0, 0), token.View(), core)
    {
      this.token, this.core := token, core;
      delband, userres, refunds, deferred, cpuLimit := map[], map[], map[], map[], map[];
      voters, acntype, producers, weights := map[], map[], map[], Weights(100, 100);
      lastUpdate, lastSize := 0, 0;
    }

    function StakeView(): Stake
      reads this
    {
      Stake(delband, userres, refunds, deferred, cpuLimit)
    }

    function VotesView(): Votes
      reads this
    {
      Votes(voters, acntype, producers, weights)
    }

    function SchedView(): Sched
      reads this
    {
      Sched(lastUpdate, lastSize)
    }

    function View(): Chain.State
      reads this, token
    {
      Chain.State(StakeView(), VotesView(), SchedView(), token.View(), core)
    }

    /** The host discards the writes of an action that aborted. */
    method Rollback(stake: Stake, votes: Votes)
      modifies this
      ensures StakeView() == stake && VotesView() == votes && SchedView() == old(SchedView())
    {
      delband, userres, refunds := stake.delband, stake.userres, stake.refunds;
      deferred, cpuLimit := stake.deferred, stake.cpuLimit;
      voters, acntype, producers, weights := votes.voters, votes.types, votes.producers, votes.weights;
    }

    // -------------------------------------------------------------------------------------------
    // Staking

    method UpdateDelband(from: Name, receiver: Name, delta: Delta) returns (r: Outcome)
      modifies this`delband
      ensures Reaches(r, StakeView(), Staking.UpdateDelband(old(StakeView()), from, receiver, delta))
    {
      var k := (from, receiver);
      if k !in delband {
        delband := delband[k := delta];
      } else {
        var amount := CheckedAmount(delband[k] + delta);
        if amount.Abort? { return Aborted(amount.error); }
        delband := delband[k := amount.value];
      }
      if delband[k] < 0 { return Aborted(InsufficientStake); }
      if delband[k] == 0 {
        delband := delband - {k};
        assert delband == old(delband) - {k};
      }
      return Committed;
    }

    method UpdateTotals(receiver: Name, delta: Delta) returns (r: Outcome)
      modifies this`userres, this`cpuLimit
      ensures Reaches(r, StakeView(), Staking.UpdateTotals(old(StakeView()), receiver, delta))
    {
      if receiver !in userres {
        userres := userres[receiver := delta];
      } else {
        var amount := CheckedAmount(userres[receiver] + delta);
        if amount.Abort? { return Aborted(amount.error); }
        userres := userres[receiver := amount.value];
      }
      if userres[receiver] < 0 { return Aborted(NegativeTotal); }
      cpuLimit := cpuLimit[receiver := userres[receiver]];
      if userres[receiver] == 0 {
        userres := userres - {receiver};
        assert userres == old(userres) - {receiver};
      }
      return Committed;
    }

    /** Creates, updates or erases the pending refund, replaces or cancels the scheduled transaction, and
        says what remains to be transferred. The two statements in question stand in the order of the
        source: the refund amount is cleared first and negated after. */
    method UpdateRefund(from: Name, receiver: Name, delta: Delta, transfer: bool,
          now: nat) returns (r: Outcome, cpuBalance: int64)
      modifies this`refunds, this`deferred
      ensures match Staking.UpdateRefund(AsWritten, old(StakeView()), from, receiver, delta, transfer, now)
              case Ok(p) => r == Committed && StakeView() == p.0 && cpuBalance == p.1
              case Abort(e) => r == Aborted(e)
    {
      cpuBalance := delta;
      var needDeferred := false;
      var isUndelegating := delta < 0;
      var isDelegatingToSelf := !transfer && from == receiver;
      if isDelegatingToSelf || isUndelegating {
        if from in refunds {
          var time := refunds[from].time;
          if cpuBalance < 0 { time := Seconds(now); }
          var rest := CheckedAmount(refunds[from].amount - cpuBalance);
          if rest.Abort? { return Aborted(rest.error), 0; }
          var amount := rest.value;
          if amount < 0 {
            amount := 0;
            cpuBalance := -amount;
          } else {
            cpuBalance := 0;
          }
          if amount == 0 {
            refunds := refunds - {from};
          } else {
            refunds := refunds[from := Refund(time, amount)];
            needDeferred := true;
          }
        } else if cpuBalance < 0 {
          refunds := refunds[from := Refund(Seconds(now), -cpuBalance)];
          cpuBalance := 0;
          needDeferred := true;
        }
      }
      deferred := deferred - {from};
      if needDeferred {
        deferred := deferred[from := now + REFUND_DELAY];
      }
      return Committed, cpuBalance;
    }

    /** The loop that adds an amount to every listed producer. */
    method AddVotes(names: seq<Name>, isCompany: bool, delta: int, voting: bool) returns (r: Outcome)
      modifies this`producers
      ensures match Voting.AddVotes(old(producers), names, isCompany, delta, weights, voting)
              case Ok(after) => r == Committed && producers == after
              case Abort(e) => r == Aborted(e)
    {
      hide Weigh, Wrap64;
      var i := 0;
      while i < |names|
        invariant 0 <= i <= |names|
        invariant Voting.AddVotes(producers, names[i..], isCompany, delta, weights, voting)
               == Voting.AddVotes(old(producers), names, isCompany, delta, weights, voting)
      {
        var p := names[i];
        assert names[i..][0] == p && names[i..][1..] == names[i + 1..];
        if p !in producers { return Aborted(RowMissing); }
        if voting && !producers[p].active { return Aborted(NotRegistered); }
        var row := producers[p];
        if isCompany {
          row := row.(company := Wrap64(row.company + delta));
        } else {
          row := row.(government := Wrap64(row.government + delta));
        }
        row := row.(weight := Weigh(row.company, row.government, weights));
        producers := producers[p := row];
        i := i + 1;
      }
      return Committed;
    }

    method UpdateProducersVotes(kind: Name, voting: bool, oldNames: seq<Name>, oldStaked: int,
          newNames: seq<Name>, newStaked: int)
      returns (r: Outcome)
      modifies this`producers
      ensures match Voting.UpdateProducersVotes(old(producers), weights, kind, voting,
                                                oldNames, oldStaked, newNames, newStaked)
              case Ok(after) => r == Committed && producers == after
              case Abort(e) => r == Aborted(e)
    {
      r := Committed;
      if oldStaked != 0 {
        r := AddVotes(oldNames, kind == COMPANY, -oldStaked, voting);
      }
      if r.Committed? && newStaked != 0 {
        r := AddVotes(newNames, kind == COMPANY, newStaked, voting);
      }
    }

    method UpdateVotingPower(account: Name, delta: int64) returns (r: Outcome)
      modifies this`voters, this`producers
      ensures Reaches(r, VotesView(), Voting.UpdateVotingPower(old(VotesView()), account, delta))
    {
      var oldStaked: int64 := 0;
      if account !in voters {
        voters := voters[account := Voter([], delta)];
      } else {
        oldStaked := voters[account].staked;
        voters := voters[account := voters[account].(staked := Wrap64(oldStaked + delta))];
      }
      var row := voters[account];
      if row.staked < 0 { return Aborted(NegativeStake); }
      r := Committed;
      if row.producers != [] && account in acntype {
        r := UpdateProducersVotes(acntype[account], false, row.producers, oldStaked, row.producers, row.staked);
      }
    }

    /** The part of a stake change that moves the staking tables. */
    method MoveStake(signer: Name, receiver: Name, delta: Delta, transfer: bool, now: nat) returns (r: Outcome,
          transferAmount: int64)
      modifies this`delband, this`userres, this`cpuLimit, this`refunds, this`deferred
      ensures match Staking.MoveStake(AsWritten, old(StakeView()), signer, receiver, delta, transfer, now)
              case Ok(p) => r == Committed && StakeView() == p.0 && transferAmount == p.1
              case Abort(e) => r == Aborted(e)
    {
      hide Staking.UpdateDelband, Staking.UpdateTotals, Staking.UpdateRefund;
      transferAmount := 0;
      var from := signer;
      if transfer { from := receiver; }
      r := UpdateDelband(from, receiver, delta);
      if r.Aborted? { return; }
      r := UpdateTotals(receiver, delta);
      if r.Aborted? { return; }
      if signer != STAKE {
        r, transferAmount := UpdateRefund(from, receiver, delta, transfer, now);
      }
    }

    method Changebw(ctx: Context, signer: Name, receiver: Name, delta: Delta, transfer: bool) returns (r: Outcome)
      modifies this, token
      ensures Reaches(r, View(), Chain.Changebw(AsWritten, old(View()), ctx, signer, receiver, delta, transfer))
      ensures r.Aborted? ==> token.View() == old(token.View()) && SchedView() == old(SchedView())
    {
      hide Staking.MoveStake, Voting.UpdateVotingPower, TokenLedger.Transfer;
      if signer !in ctx.auth { return Aborted(MissingAuth); }
      if delta == 0 { return Aborted(ZeroAmount); }
      var transferAmount;
      r, transferAmount := MoveStake(signer, receiver, delta, transfer, ctx.now);
      if r.Aborted? { return; }
      r := UpdateVotingPower(if transfer then receiver else signer, delta);
      if r.Aborted? { return; }
      if signer != STAKE && 0 < transferAmount {
        r := token.Transfer(ctx.(auth := {signer}), signer, STAKE, Asset(transferAmount, core), Chain.STAKE_MEMO);
      }
    }

    method Delegatebw(ctx: Context, from: Name, receiver: Name, net: Asset, cpu: Asset,
          transfer: bool) returns (r: Outcome)
      modifies this, token
      ensures Settles(old(View()), r, View(),
          Chain.Delegatebw(AsWritten, old(View()), ctx, from, receiver, net, cpu, transfer))
    {
      if net != Asset(0, core) { return Aborted(NetNotZero); }
      if cpu.symbol != core { return Aborted(SymbolMismatch); }
      if cpu.amount <= 0 { return Aborted(NotPositive); }
      if transfer && from == receiver { return Aborted(TransferToSelf); }
      var stake, votes := StakeView(), VotesView();
      r := Changebw(ctx, from, receiver, cpu.amount, transfer);
      if r.Aborted? { Rollback(stake, votes); }
    }

    method Undelegatebw(ctx: Context, from: Name, receiver: Name, net: Asset, cpu: Asset) returns (r: Outcome)
      modifies this, token
      ensures Settles(old(View()), r, View(), Chain.Undelegatebw(AsWritten, old(View()), ctx, from, receiver, net, cpu))
    {
      if net != Asset(0, core) { return Aborted(NetNotZero); }
      if cpu.symbol != core { return Aborted(SymbolMismatch); }
      if cpu.amount <= 0 { return Aborted(NotPositive); }
      var stake, votes := StakeView(), VotesView();
      r := Changebw(ctx, from, receiver, -cpu.amount, false);
      if r.Aborted? { Rollback(stake, votes); }
    }

    method PayRefund(ctx: Context, owner: Name) returns (r: Outcome)
      modifies this`refunds, token
      ensures Settles(old(View()), r, View(), Chain.PayRefund(old(View()), ctx, owner))
    {
      if owner !in ctx.auth { return Aborted(MissingAuth); }
      if owner !in refunds { return Aborted(NoRefund); }
      if ctx.now < refunds[owner].time * 1_000_000 + REFUND_DELAY { return Aborted(RefundTooEarly); }
      r := token.Transfer(ctx.(auth := {STAKE, owner}), STAKE, owner, Asset(refunds[owner].amount, core),
        Chain.REFUND_MEMO);
      if r.Aborted? { return; }
      refunds := refunds - {owner};
    }

    method NewAccount(account: Name) returns (r: Outcome)
      modifies this`userres, this`cpuLimit
      ensures Settles(old(View()), r, View(), Chain.NewAccount(old(View()), account))
    {
      if account in userres { return Aborted(RowExists); }
      userres := userres[account := 0];
      cpuLimit := cpuLimit[account := 0];
      return Committed;
    }

    method SetAlimits(ctx: Context, account: Name, cpu: int64) returns (r: Outcome)
      modifies this`cpuLimit
      ensures Settles(old(View()), r, View(), Chain.SetAlimits(old(View()), ctx, account, cpu))
    {
      if SYSTEM !in ctx.auth { return Aborted(MissingAuth); }
      if account in userres { return Aborted(HasResourceRow); }
      cpuLimit := cpuLimit[account := cpu];
      return Committed;
    }

    // -------------------------------------------------------------------------------------------
    // Voting

    /** The source compares neighbours only. */
    method CheckSorted(names: seq<Name>) returns (sorted: bool)
      ensures sorted <==> StrictlySorted(names)
    {
      var i := 1;
      while i < |names|
        invariant 1 <= i
        invariant i <= |names| || |names| == 0
        invariant |names| == 0 || StrictlySorted(names[..i])
      {
        if names[i - 1] >= names[i] { return false; }
        i := i + 1;
      }
      assert |names| == 0 || names[..i] == names;
      return true;
    }

    method VoteProducer(ctx: Context, voter: Name, names: seq<Name>) returns (r: Outcome)
      modifies this
      ensures Settles(old(View()), r, View(),
          Chain.WithVotes(old(View()), Voting.VoteProducer(old(VotesView()), ctx, voter, names)))
    {
      if voter !in ctx.auth { return Aborted(MissingAuth); }
      if 30 < |names| { return Aborted(TooManyProducers); }
      var sorted := CheckSorted(names);
      if !sorted { return Aborted(UnsortedProducers); }
      if voter !in voters { return Aborted(NoStake); }
      if voter !in acntype { return Aborted(NoAccountType); }
      var stake, votes := StakeView(), VotesView();
      var row := voters[voter];
      voters := voters[voter := row.(producers := names)];
      r := UpdateProducersVotes(acntype[voter], true, row.producers, row.staked, names, row.staked);
      if r.Aborted? { Rollback(stake, votes); }
    }

    method RegProducer(ctx: Context, producer: Name, key: nat, url: string, location: nat) returns (r: Outcome)
      modifies this`producers
      ensures Settles(old(View()), r, View(),
          Chain.WithVotes(old(View()), Voting.RegProducer(old(VotesView()), ctx, producer, key, url, location)))
    {
      if MAX_URL <= |url| { return Aborted(UrlTooLong); }
      if key == DEFAULT_KEY { return Aborted(DefaultKey); }
      if producer !in ctx.auth { return Aborted(MissingAuth); }
      if producer in producers {
        var row := producers[producer].(key := key, active := true, url := url, location := location);
        if row.lastClaim == 0 { row := row.(lastClaim := ctx.now); }
        producers := producers[producer := row];
      } else {
        producers := producers[producer := Producer(0, 0, 0, key, true, url, location, ctx.now)];
      }
      return Committed;
    }

    method Unregister(ctx: Context, signer: Name, producer: Name) returns (r: Outcome)
      modifies this`producers
      ensures Settles(old(View()), r, View(),
          Chain.WithVotes(old(View()), Voting.Unregister(old(VotesView()), ctx, signer, producer)))
    {
      if signer !in ctx.auth { return Aborted(MissingAuth); }
      if producer !in producers { return Aborted(RowMissing); }
      producers := producers[producer := Deactivate(producers[producer])];
      return Committed;
    }

    method SetVWeight(ctx: Context, company: nat, government: nat) returns (r: Outcome)
      modifies this`weights
      ensures Settles(old(View()), r, View(),
          Chain.WithVotes(old(View()), Voting.SetVWeight(old(VotesView()), ctx, company, government)))
    {
      if SYSTEM !in ctx.auth { return Aborted(MissingAuth); }
      if !(100 <= company <= 1000) || !(100 <= government <= 1000) { return Aborted(WeightRange); }
      weights := Weights(company, government);
      return Committed;
    }

    method SetAcntType(ctx: Context, account: Name, kind: Name) returns (r: Outcome)
      modifies this`acntype
      ensures Settles(old(View()), r, View(),
          Chain.WithVotes(old(View()), Voting.SetAcntType(old(VotesView()), ctx, account, kind)))
    {
      if ADMIN !in ctx.auth { return Aborted(MissingAuth); }
      if account !in ctx.accounts { return Aborted(NoSuchAccount); }
      if account in acntype { return Aborted(TypeAlreadySet); }
      if kind != COMPANY && kind != GOVERNMENT { return Aborted(UnknownType); }
      acntype := acntype[account := kind];
      return Committed;
    }

    // -------------------------------------------------------------------------------------------
    // The schedule

    /** The scan through the by-votes index, from the front. */
    method TopProducers(idx: seq<Name>) returns (top: seq<Name>)
      requires forall p :: p in idx ==> p in producers
      ensures top == Scan(producers, idx, MAX_PRODUCERS)
    {
      hide Scan;
      top := [];
      var i := 0;
      while i < |idx| && |top| < MAX_PRODUCERS && 0 < producers[idx[i]].weight && producers[idx[i]].active
        invariant 0 <= i <= |idx| && |top| <= MAX_PRODUCERS
        invariant top + Scan(producers, idx[i..], MAX_PRODUCERS - |top|) == Scan(producers, idx, MAX_PRODUCERS)
      {
        ScanStep(producers, idx, i, MAX_PRODUCERS - |top|);
        top := top + [idx[i]];
        i := i + 1;
      }
      ScanStep(producers, idx, i, MAX_PRODUCERS - |top|);
    }

    /** `idx` is the order in which the host presents the rows through the by-votes index, and `accepted`
        its answer to the proposed schedule. `proposed` is empty when none was handed over. */
    method UpdateElectedProducers(idx: seq<Name>, slot: uint32, accepted: int) returns (proposed: seq<ProducerKey>)
      requires IsIndex(producers, idx)
      modifies this`lastUpdate, this`lastSize
      ensures Recomputed(SchedView(), proposed)
          == UpdateElected(old(SchedView()), producers, Index(producers), slot, accepted)
    {
      hide Scan;
      assert idx == Index(producers) by { IndexUnique(producers, idx, Index(producers)); }
      lastUpdate := slot;
      var top := TopProducers(idx);
      if |top| == 0 || |top| < lastSize { return []; }
      proposed := Keyed(producers, top);
      if 0 <= accepted { lastSize := |top|; }
    }

    method OnBlock(ctx: Context, idx: seq<Name>, slot: uint32, accepted: int) returns (r: Outcome)
      requires IsIndex(producers, idx)
      modifies this`lastUpdate, this`lastSize
      ensures Settles(old(SchedView()), r, SchedView(),
          Election.OnBlock(old(SchedView()), producers, Index(producers), ctx, slot, accepted))
    {
      if SYSTEM !in ctx.auth { return Aborted(MissingAuth); }
      if 120 < (slot - lastUpdate) % 0x1_0000_0000 {
        var _ := UpdateElectedProducers(idx, slot, accepted);
      }
      return Committed;
    }

    // -------------------------------------------------------------------------------------------
    // Dispatch

    /** The host runs a due scheduled refund once; if the refund aborts, only the schedule entry is gone. */
    method RunDeferred(ctx: Context, owner: Name) returns (r: Outcome)
      modifies this`refunds, this`deferred, token
      ensures Settles(old(View()), r, View(), Chain.RunDeferred(old(View()), ctx, owner))
    {
      hide Chain.PayRefund;
      if owner !in deferred || ctx.now < deferred[owner] { return Aborted(RefundTooEarly); }
      deferred := deferred - {owner};
      var _ := PayRefund(ctx.(auth := {owner}), owner);
      return Committed;
    }

    method TokenStep(ctx: Context, a: TokenAction) returns (r: Outcome)
      modifies token
      ensures Settles(old(View()), r, View(), Chain.Do(AsWritten, old(View()), ctx, Chain.Token(a)))
    {
      hide Act;
      r := token.Dispatch(ctx, a);
    }

    method BlockStep(ctx: Context, idx: seq<Name>, slot: uint32, accepted: int) returns (r: Outcome)
      requires IsIndex(producers, idx)
      modifies this`lastUpdate, this`lastSize
      ensures Settles(old(View()), r, View(), Chain.Do(AsWritten, old(View()), ctx, Chain.BlockAction(slot, accepted)))
    {
      hide Election.OnBlock, Index;
      r := OnBlock(ctx, idx, slot, accepted);
    }

    /** One step of the chain on the two contracts: exactly the step that the run theorems speak about. */
    method Dispatch(ctx: Context, a: Chain.Action, idx: seq<Name>) returns (r: Outcome)
      requires IsIndex(producers, idx)
      modifies this, token
      ensures Settles(old(View()), r, View(), Chain.Do(AsWritten, old(View()), ctx, a))
    {
      hide Chain.Delegatebw, Chain.Undelegatebw, Chain.PayRefund, Chain.RunDeferred, Chain.NewAccount,
        Chain.SetAlimits, Act,
        Voting.VoteProducer, Voting.RegProducer, Voting.Unregister, Voting.SetVWeight, Voting.SetAcntType,
        Election.OnBlock;
      match a
      case Token(t) => r := TokenStep(ctx, t);
      case Delegate(from, receiver, net, cpu, transfer) => r := Delegatebw(ctx, from, receiver, net, cpu, transfer);
      case Undelegate(from, receiver, net, cpu) => r := Undelegatebw(ctx, from, receiver, net, cpu);
      case RefundAction(owner) => r := PayRefund(ctx, owner);
      case DeferredRefund(owner) => r := RunDeferred(ctx, owner);
      case NewAccountAction(account) => r := NewAccount(account);
      case SetAlimitsAction(account, limit) => r := SetAlimits(ctx, account, limit);
      case Vote(voter, names) => r := VoteProducer(ctx, voter, names);
      case Register(producer, key, url, location) => r := RegProducer(ctx, producer, key, url, location);
      case Unreg(signer, producer) =>
        if signer == producer || signer == SYSTEM {
          r := Unregister(ctx, signer, producer);
        } else {
          r := Aborted(MissingAuth);
        }
      case SetWeights(company, government) => r := SetVWeight(ctx, company, government);
      case SetType(account, kind) => r := SetAcntType(ctx, account, kind);
      case BlockAction(slot, accepted) => r := BlockStep(ctx, idx, slot, accepted);
    }
  }
}
