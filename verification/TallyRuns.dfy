/** Tallies, weights and elections over whole runs: no 64-bit counter wraps while the staking account is
    covered, and then the election is the specified one. */
module TallyRuns {
  import opened Base
  import opened Histories
  import opened Doubles
  import opened Sums
  import opened TokenLedger
  import opened Voting
  import opened VotingInvariant
  import opened Staking
  import opened StakingInvariant
  import opened Election
  import opened Chain
  import opened ChainInvariant
  import opened Runs

  /** In any reachable state, each tally is the recount as a 64-bit register shows it. */
  lemma TalliesAreRecounts(v: Variant, g: State, run: seq<Step>, p: Name)
    requires Genesis(g) && p in Exec(v, g, run).votes.producers
    ensures var t := Exec(v, g, run).votes;
            && t.producers[p].company == Wrap64(Recount(t.voters, t.types, p, true))
            && t.producers[p].government == Wrap64(Recount(t.voters, t.types, p, false))
  {
    hide Exec, Genesis, Recount, Wrap64;
    Conservation(v, g, run);
    assert Tallied(Exec(v, g, run).votes, p);
  }

  /** While the staking account is covered, all voters together stake no more than the core token's supply. */
  lemma StakesWithinSupply(v: Variant, g: State, run: seq<Step>)
    requires Genesis(g) && Covered(v, g, run)
    ensures var t := Exec(v, g, run);
            && t.core == g.core && g.core.code in t.ledger.stats
            && 0 <= Sum(Stakes(t.votes.voters)) <= t.ledger.stats[g.core.code].supply.amount
            && t.ledger.stats[g.core.code].supply.amount <= t.ledger.stats[g.core.code].maxSupply.amount <= MAX_AMOUNT
  {
    hide Exec, Genesis, Sum, SumWhere, LedgerInv, VotesInv;
    Conservation(v, g, run);
    Solvency(v, g, run);
    var t := Exec(v, g, run);
    SumsNonNegative(t.stake, 0, 0);
    BalanceWithinSupply(t.ledger, STAKE, g.core.code);
  }

  /** While the staking account is covered no counter wraps: both tallies of every producer are the exact
      recounts, and together they stay within the supply. */
  lemma TalliesAreExact(v: Variant, g: State, run: seq<Step>, p: Name)
    requires Genesis(g) && Covered(v, g, run)
    requires p in Exec(v, g, run).votes.producers
    ensures var t := Exec(v, g, run);
            var row := t.votes.producers[p];
            && row.company == Recount(t.votes.voters, t.votes.types, p, true) >= 0
            && row.government == Recount(t.votes.voters, t.votes.types, p, false) >= 0
            && g.core.code in t.ledger.stats
            && row.company + row.government <= t.ledger.stats[g.core.code].supply.amount <= MAX_AMOUNT
  {
    hide Exec, Genesis, Recount, Sum, StrictlySorted;
    var t := Exec(v, g, run);
    Conservation(v, g, run);
    StakesWithinSupply(v, g, run);
    TalliesAreRecounts(v, g, run, p);
    RecountBound(t.votes.voters, t.votes.types, p);
  }

  // ---------------------------------------------------------------------------------------------
  // Weights

  /** The largest cap under which a fully weighted supply still fits in 64 bits. */
  const WEIGHABLE_SUPPLY: int := (TWO63 - 1) / 1000

  /** While a thousand times the votes fits in 64 bits, the weighted sum does not wrap, lies between 100 and
      1000 times the votes, and is positive exactly when there are votes. */
  lemma WeighIsExact(company: int, government: int, w: Weights)
    requires WeightsOk(w) && 0 <= company && 0 <= government && company + government <= WEIGHABLE_SUPPLY
    ensures WeightedSum(company, government, w) == company * w.company + government * w.government
    ensures 100 * (company + government) <= WeightedSum(company, government, w) <= 1000 * (company + government)
    ensures 0 < WeightedSum(company, government, w) <==> 0 < company + government
  {
    Scaled(company, w.company);
    Scaled(government, w.government);
  }

  lemma Scaled(x: int, w: int)
    requires 0 <= x && 100 <= w <= 1000
    ensures 100 * x <= x * w <= 1000 * x
  {
    assert x * (w - 100) >= 0 && x * (1000 - w) >= 0;
  }

  /** The bound is needed. Below one full turn of the register, the weight reads as negative exactly when
      the sum passes 63 bits; and whatever exceeds the bound has weights that take it there. */
  lemma WeightBoundIsTight(company: nat, government: nat, w: Weights)
    requires WeightsOk(w) && company * w.company + government * w.government < TWO64
    ensures Weigh(company, government, w) < 0 <==> TWO63 <= company * w.company + government * w.government
    ensures w == Weights(1000, 1000) ==>
              (Weigh(company, government, w) < 0 <==> WEIGHABLE_SUPPLY < company + government)
  {
    hide ToDouble, Wrap64;
    Scaled(company, w.company);
    Scaled(government, w.government);
    SumIsWrapped(company, government, w);
    ToDoubleClose(WeightedSum(company, government, w));
    WrapsOnce(company * w.company + government * w.government);
  }

  /** Only the wrap of the final sum shows. */
  lemma SumIsWrapped(company: int, government: int, w: Weights)
    ensures WeightedSum(company, government, w) == Wrap64(company * w.company + government * w.government)
  {
    hide Wrap64;
    WrapAbsorbs(government * w.government, Wrap64(company * w.company));
    WrapAbsorbs(company * w.company, government * w.government);
  }

  lemma WrapsOnce(x: nat)
    requires x < TWO64
    ensures Wrap64(x) < 0 <==> TWO63 <= x
  {
  }

  /** The cap of a token never changes. */
  lemma {:induction false} CapsStay(v: Variant, g: State, run: seq<Step>)
    requires Genesis(g)
    ensures KeepsTokens(g.ledger.stats, Exec(v, g, run).ledger.stats)
    decreases |run|
  {
    hide Inv, Do;
    if run != [] {
      CapsStay(v, g, Earlier(run));
      Conservation(v, g, Earlier(run));
      CapStep(v, Exec(v, g, Earlier(run)), Latest(run).ctx, Latest(run).action);
    }
  }

  lemma CapStep(v: Variant, s: State, ctx: Context, a: Action)
    requires Inv(s)
    ensures var r := Do(v, s, ctx, a);
            r.Ok? ==> KeepsTokens(s.ledger.stats, r.value.ledger.stats)
  {
    hide LedgerInv, VotesInv, StakeInv, StakesOk, Act, Changebw, PayRefund, VoteProducer, RegProducer, Unregister;
    match a {
      case Token(t) => ActEffect(s.ledger, ctx, t);
      case Delegate(from, receiver, _, cpu, transfer) =>
        if 0 < cpu.amount { ChangebwKeepsStats(v, s, ctx, from, receiver, cpu.amount, transfer); }
      case Undelegate(from, receiver, _, cpu) =>
        if 0 < cpu.amount { ChangebwKeepsStats(v, s, ctx, from, receiver, -cpu.amount, false); }
      case RefundAction(owner) => PayRefundKeepsStats(s, ctx, owner);
      case DeferredRefund(owner) =>
        var popped := s.(stake := s.stake.(deferred := s.stake.deferred - {owner}));
        PayRefundKeepsStats(popped, ctx.(auth := {owner}), owner);
      case _ =>
    }
  }

  lemma ChangebwKeepsStats(v: Variant, s: State, ctx: Context, signer: Name, receiver: Name, delta: Delta,
        transfer: bool)
    requires LedgerInv(s.ledger)
    ensures var r := Changebw(v, s, ctx, signer, receiver, delta, transfer);
            r.Ok? ==> r.value.ledger.stats == s.ledger.stats
  {
    hide LedgerInv, Transfer, MoveStake, UpdateVotingPower;
    var r := MoveStake(v, s.stake, signer, receiver, delta, transfer, ctx.now);
    if r.Ok? {
      TransferEffect(s.ledger, ctx.(auth := {signer}), signer, STAKE, Asset(r.value.1, s.core), STAKE_MEMO);
    }
  }

  lemma PayRefundKeepsStats(s: State, ctx: Context, owner: Name)
    requires LedgerInv(s.ledger)
    ensures var r := PayRefund(s, ctx, owner);
            r.Ok? ==> r.value.ledger.stats == s.ledger.stats
  {
    hide LedgerInv, Transfer;
    if owner in s.stake.refunds {
      TransferEffect(s.ledger, ctx.(auth := {STAKE, owner}), STAKE, owner,
        Asset(s.stake.refunds[owner].amount, s.core), REFUND_MEMO);
    }
  }

  // ---------------------------------------------------------------------------------------------
  // Election

  /** Under a weighable cap and while the staking account is covered, the early-stopping scan elects in
      every reachable state exactly what is specified, and nothing else meets the specification: all
      candidates in rank order, cut off after the first 21. */
  lemma ElectionIsRight(v: Variant, g: State, run: seq<Step>)
    requires Genesis(g) && Covered(v, g, run)
    requires g.ledger.stats[g.core.code].maxSupply.amount <= WEIGHABLE_SUPPLY
    ensures var ps := Exec(v, g, run).votes.producers;
            Elected(ps, Scan(ps, Index(ps), MAX_PRODUCERS))
            && forall top :: Elected(ps, top) ==> top == Scan(ps, Index(ps), MAX_PRODUCERS)
  {
    hide Exec, Genesis, Elected, Blocked, Scan, IsIndex, Covered;
    var ps := Exec(v, g, run).votes.producers;
    forall p | p in ps ensures 0 <= ps[p].weight {
      WeightsAreExact(v, g, run, p);
      TalliesAreExact(v, g, run, p);
    }
    NonNegativeNeverBlocks(ps);
    ScanIsElection(ps, Index(ps));
    forall top | Elected(ps, top) ensures top == Scan(ps, Index(ps), MAX_PRODUCERS) {
      ElectedUnique(ps, top, Scan(ps, Index(ps), MAX_PRODUCERS));
    }
  }

  /** Under the same conditions, what a recomputation proposes is the specified election: its owners are the
      candidates in rank order cut off after the first 21, each with its own key. It proposes them exactly when
      there is a candidate and no fewer are elected than the last accepted schedule had. */
  lemma ProposalIsElected(v: Variant, g: State, run: seq<Step>, slot: uint32, accepted: int)
    requires Genesis(g) && Covered(v, g, run)
    requires g.ledger.stats[g.core.code].maxSupply.amount <= WEIGHABLE_SUPPLY
    ensures var t := Exec(v, g, run);
            var ps := t.votes.producers;
            var count := if |Candidates(ps)| < 21 then |Candidates(ps)| else 21;
            var r := UpdateElected(t.sched, ps, Index(ps), slot, accepted);
            && (r.proposed != [] <==> 0 < count && t.sched.lastSize <= count)
            && (r.proposed != [] ==> |r.proposed| == count && Elected(ps, Owners(r.proposed)))
            && (forall i :: 0 <= i < |r.proposed| ==>
                 r.proposed[i].owner in ps && r.proposed[i].key == ps[r.proposed[i].owner].key)
  {
    hide Exec, Genesis, Elected, Scan, Covered, UpdateElected, EligibleFront, Candidates;
    var t := Exec(v, g, run);
    var ps := t.votes.producers;
    var top := Scan(ps, Index(ps), MAX_PRODUCERS);
    ElectionIsRight(v, g, run);
    ElectedSize(ps, top);
    ProposalEffect(t.sched, ps, Index(ps), slot, accepted);
    ScanIsFront(ps, Index(ps));
    forall front | EligibleFront(ps, Index(ps), front) ensures front == top {
      FrontUnique(ps, Index(ps), front, top);
    }
  }

  lemma ScanIsFront(ps: map<Name, Producer>, idx: seq<Name>)
    requires forall p :: p in idx ==> p in ps
    ensures EligibleFront(ps, idx, Scan(ps, idx, MAX_PRODUCERS))
  {
    hide Scan;
    ScanPrefix(ps, idx, MAX_PRODUCERS);
  }

  /** No schedule ever proposed holds a default key. */
  lemma NoDefaultKeyProposed(v: Variant, g: State, run: seq<Step>, slot: uint32, accepted: int)
    requires Genesis(g)
    ensures var t := Exec(v, g, run);
            var r := UpdateElected(t.sched, t.votes.producers, Index(t.votes.producers), slot, accepted);
            forall k :: k in r.proposed ==>
              && k.key != DEFAULT_KEY && k.owner in t.votes.producers && t.votes.producers[k.owner].active
              && k.key == t.votes.producers[k.owner].key
  {
    hide Exec, Genesis, Recount, Weighed, RollOk, LedgerInv, StakeInv, StakesOk, Keyed, Scan;
    Conservation(v, g, run);
    var t := Exec(v, g, run);
    KeysOfScan(t.votes.producers, Index(t.votes.producers));
  }

  lemma KeysOfScan(ps: map<Name, Producer>, idx: seq<Name>)
    requires forall p :: p in idx ==> p in ps
    requires forall p :: p in ps && ps[p].active ==> ps[p].key != DEFAULT_KEY
    ensures forall k :: k in Keyed(ps, Scan(ps, idx, MAX_PRODUCERS)) ==>
              k.key != DEFAULT_KEY && k.owner in ps && ps[k.owner].active && k.key == ps[k.owner].key
  {
    hide Scan;
    ScanPrefix(ps, idx, MAX_PRODUCERS);
  }

  // ---------------------------------------------------------------------------------------------
  // Which pair of weights a producer was last weighed with

  /** The accounts whose vote loops run in an action, and the lists they run over. */
  ghost predicate Touches(s: State, a: Action, p: Name) {
    match a
    case Vote(voter, names) =>
      VoterOf(s.votes, voter).staked != 0 && (p in VoterOf(s.votes, voter).producers || p in names)
    case Delegate(from, receiver, _, _, transfer) =>
      p in VoterOf(s.votes, if transfer then receiver else from).producers
    case Undelegate(from, _, _, _) => p in VoterOf(s.votes, from).producers
    case _ => false
  }

  /** The weights in force when the producer was last touched. */
  ghost function Stamp(v: Variant, g: State, run: seq<Step>, p: Name): Weights
    decreases |run|
  {
    if run == [] then g.votes.weights
    else
      var s := Exec(v, g, Earlier(run));
      if Commits(v, s, Latest(run)) && Touches(s, Latest(run).action, p) then s.votes.weights
      else Stamp(v, g, Earlier(run), p)
  }

  /** One revote: a touched producer is weighed with the weights in force, an untouched one keeps its
      tallies and its weight. */
  lemma RevoteWeighs(v: Votes, account: Name, names: seq<Name>, staked: int64, voting: bool, p: Name)
    requires RollOk(v) && StrictlySorted(names) && account in v.types && p in v.producers
    ensures var row := VoterOf(v, account);
            var r := Revote(v, account, Voter(names, staked), voting);
            r.Ok? ==>
              && p in r.value
              && var touched := (p in row.producers && row.staked != 0) || (p in names && staked != 0);
                 if touched then r.value[p].weight == Weigh(r.value[p].company, r.value[p].government, v.weights)
                 else (r.value[p].weight, r.value[p].company, r.value[p].government)
                        == (v.producers[p].weight, v.producers[p].company, v.producers[p].government)
  {
    hide Weigh, UpdateProducersVotes, StrictlySorted;
    OldRowOk(v, account);
    var row := VoterOf(v, account);
    UpdateEffect(v.producers, v.weights, v.types[account], voting, row.producers, row.staked, names, staked, p);
  }

  ghost predicate StampedWith(s: State, p: Name, w: Weights) {
    p in s.votes.producers ==>
      s.votes.producers[p].weight == Weigh(s.votes.producers[p].company, s.votes.producers[p].government, w)
  }

  lemma StampStep(v: Variant, s: State, ctx: Context, a: Action, p: Name, w: Weights)
    requires Inv(s) && StampedWith(s, p, w) && Do(v, s, ctx, a).Ok?
    ensures StampedWith(Do(v, s, ctx, a).value, p, if Touches(s, a, p) then s.votes.weights else w)
  {
    hide Weigh, VoteProducer, UpdateVotingPower, StrictlySorted, LedgerInv, StakeInv, StakesOk, TalliesOk,
      ProducersOk, Act, Transfer, MoveStake;
    ZeroWeighs(w);
    match a {
      case Vote(voter, names) => VoteWeighs(s.votes, ctx, voter, names, p);
      case Delegate(from, receiver, _, cpu, transfer) =>
        PowerWeighs(s.votes, if transfer then receiver else from, cpu.amount, p);
      case Undelegate(from, _, _, cpu) =>
        PowerWeighs(s.votes, from, -cpu.amount, p);
      case _ =>
    }
  }

  /** The row of a producer after an action whose vote loops did or did not touch it. */
  ghost predicate WeighedIf(touched: bool, v: Votes, v': Votes, p: Name) {
    p in v'.producers ==>
      && p in v.producers
      && if touched then v'.producers[p].weight == Weigh(v'.producers[p].company, v'.producers[p].government, v.weights)
         else (v'.producers[p].weight, v'.producers[p].company, v'.producers[p].government)
                == (v.producers[p].weight, v.producers[p].company, v.producers[p].government)
  }

  lemma VoteWeighs(v: Votes, ctx: Context, voter: Name, names: seq<Name>, p: Name)
    requires RollOk(v)
    ensures var r := VoteProducer(v, ctx, voter, names);
            var row := VoterOf(v, voter);
            r.Ok? ==> WeighedIf(row.staked != 0 && (p in row.producers || p in names), v, r.value, p)
  {
    hide Weigh, UpdateProducersVotes, StrictlySorted;
    if VoteProducer(v, ctx, voter, names).Ok? {
      var row := VoterOf(v, voter);
      RevoteKeys(v, voter, row.(producers := names), true);
      if p in v.producers { RevoteWeighs(v, voter, names, row.staked, true, p); }
    }
  }

  lemma PowerWeighs(v: Votes, account: Name, delta: Delta, p: Name)
    requires RollOk(v) && delta != 0
    ensures var r := UpdateVotingPower(v, account, delta);
            r.Ok? ==> WeighedIf(p in VoterOf(v, account).producers, v, r.value, p)
  {
    hide Weigh, UpdateProducersVotes, StrictlySorted;
    OldRowOk(v, account);
    var row := VoterOf(v, account);
    var staked := Wrap64(row.staked + delta);
    if row.producers != [] && account in v.types && 0 <= staked {
      RevoteKeys(v, account, row.(staked := staked), false);
      if p in v.producers { RevoteWeighs(v, account, row.producers, staked, false, p); }
    }
  }

  /** Every weight in every reachable state is the producer's votes weighted by the pair that was in force
      when the producer was last touched, however often the pair changed since. */
  lemma WeightIsStamped(v: Variant, g: State, run: seq<Step>, p: Name)
    requires Genesis(g) && p in Exec(v, g, run).votes.producers
    ensures var row := Exec(v, g, run).votes.producers[p];
            row.weight == Weigh(row.company, row.government, Stamp(v, g, run, p))
  {
    hide Weigh, Exec, Stamp, Genesis;
    StampRun(v, g, run, p);
  }

  lemma {:induction false} StampRun(v: Variant, g: State, run: seq<Step>, p: Name)
    requires Genesis(g)
    ensures StampedWith(Exec(v, g, run), p, Stamp(v, g, run, p))
    decreases |run|
  {
    hide Weigh, Inv, Do, Touches;
    if run == [] {
      ZeroWeighs(g.votes.weights);
    } else {
      StampRun(v, g, Earlier(run), p);
      Conservation(v, g, Earlier(run));
      var s := Exec(v, g, Earlier(run));
      if Commits(v, s, Latest(run)) {
        StampStep(v, s, Latest(run).ctx, Latest(run).action, p, Stamp(v, g, Earlier(run), p));
      }
    }
  }

  /** The weights in force always lie in the allowed range, and so does every stamp. */
  lemma {:induction false} StampInRange(v: Variant, g: State, run: seq<Step>, p: Name)
    requires Genesis(g)
    ensures WeightsOk(Stamp(v, g, run, p))
    decreases |run|
  {
    hide Exec, Touches, LedgerInv, TalliesOk, ProducersOk, StakeInv, StakesOk;
    if run != [] {
      StampInRange(v, g, Earlier(run), p);
      Conservation(v, g, Earlier(run));
    }
  }

  /** If the supply cap of the core token is weighable, no product and no sum wraps: every weight is the
      double of the exact sum of votes times the pair of the last touch. So it stays between 100 and 1000
      times the votes, as doubles show them, across any sequence of weight changes; it is positive exactly
      when the producer has votes; and it differs from the sum by one part in 2^53 at most. */
  lemma WeightsAreExact(v: Variant, g: State, run: seq<Step>, p: Name)
    requires Genesis(g) && Covered(v, g, run)
    requires g.ledger.stats[g.core.code].maxSupply.amount <= WEIGHABLE_SUPPLY
    requires p in Exec(v, g, run).votes.producers
    ensures var row := Exec(v, g, run).votes.producers[p];
            var votes := row.company + row.government;
            var sum := VotesAtStamp(v, g, run, p);
            && 100 * votes <= sum <= 1000 * votes
            && row.weight == ToDouble(sum)
            && ToDouble(100 * votes) <= row.weight <= ToDouble(1000 * votes)
            && (sum <= MANTISSA ==> row.weight == sum)
            && -sum <= MANTISSA * (row.weight - sum) <= sum
            && (0 < row.weight <==> 0 < votes)
  {
    hide Exec, LedgerInv, Inv, Covered, Stamp, Recount, Sum, WeightedSum, ToDouble;
    StakesWithinSupply(v, g, run);
    TalliesAreExact(v, g, run, p);
    CapsStay(v, g, run);
    StampInRange(v, g, run, p);
    WeightIsStamped(v, g, run, p);
    var row := Exec(v, g, run).votes.producers[p];
    WeighIsExact(row.company, row.government, Stamp(v, g, run, p));
    WeightRounds(row.company + row.government, VotesAtStamp(v, g, run, p));
  }

  /** A producer's votes weighted, without rounding or wrapping, by the pair it was last touched with. */
  ghost function VotesAtStamp(v: Variant, g: State, run: seq<Step>, p: Name): int
    requires p in Exec(v, g, run).votes.producers
  {
    var row := Exec(v, g, run).votes.producers[p];
    row.company * Stamp(v, g, run, p).company + row.government * Stamp(v, g, run, p).government
  }

  lemma WeightRounds(votes: int, sum: int)
    requires 0 <= 100 * votes <= sum <= 1000 * votes
    ensures ToDouble(100 * votes) <= ToDouble(sum) <= ToDouble(1000 * votes)
    ensures sum <= MANTISSA ==> ToDouble(sum) == sum
    ensures -sum <= MANTISSA * (ToDouble(sum) - sum) <= sum
    ensures 0 < ToDouble(sum) <==> 0 < sum
  {
    hide ToDouble;
    ToDoubleMonotone(100 * votes, sum);
    ToDoubleMonotone(sum, 1000 * votes);
    ToDoubleClose(sum);
    if sum <= MANTISSA { ToDoubleExact(sum); }
  }

  /** The conversion to doubles can cost a producer its seat only by a hair: a candidate left out although its
      votes weigh more than those of an elected one has the same weight as a double, so its votes weigh more
      by two parts in 2^53 at most. */
  lemma RoundingOnlyTies(v: Variant, g: State, run: seq<Step>, p: Name, q: Name)
    requires Genesis(g) && Covered(v, g, run)
    requires g.ledger.stats[g.core.code].maxSupply.amount <= WEIGHABLE_SUPPLY
    requires var ps := Exec(v, g, run).votes.producers;
             var top := Scan(ps, Index(ps), MAX_PRODUCERS);
             p in top && q in Candidates(ps) && q !in top
    ensures var ps := Exec(v, g, run).votes.producers;
            && p in ps && q in ps && ps[q].weight <= ps[p].weight
            && (VotesAtStamp(v, g, run, p) < VotesAtStamp(v, g, run, q) ==>
                  && ps[p].weight == ps[q].weight
                  && MANTISSA * (VotesAtStamp(v, g, run, q) - VotesAtStamp(v, g, run, p))
                     <= 2 * VotesAtStamp(v, g, run, q))
  {
    hide Exec, Genesis, Covered, Scan, Index, ToDouble, VotesAtStamp;
    ElectionIsRight(v, g, run);
    WeightsAreExact(v, g, run, p);
    WeightsAreExact(v, g, run, q);
    var x, y := VotesAtStamp(v, g, run, p), VotesAtStamp(v, g, run, q);
    if x < y { ToDoubleMonotone(x, y); }
  }
}
