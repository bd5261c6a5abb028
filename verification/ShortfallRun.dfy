/** One run on which the refund update as written delegates tokens that nobody paid for, and the same run
    with the two statements swapped. */
module ShortfallRun {
  import opened Base
  import opened Histories
  import opened Sums
  import opened TokenLedger
  import opened Voting
  import opened Staking
  import opened Election
  import opened Chain
  import opened ChainInvariant
  import opened Runs

  const ALICE: Name := 0x345c_8500_0000_0000
  const CORE: Symbol := Symbol(0x454f_53, 4)

  /** Alice holds the whole supply of ten. */
  const START: State := State(
    Stake(map[], map[], map[], map[], map[]),
    Votes(map[], map[], map[], Weights(100, 100)),
    Sched(0, 0),
    Ledger(map[CORE.code := Stat(Asset(10, CORE), Asset(100, CORE), ALICE)],
           map[(ALICE, CORE.code) := Asset(10, CORE)]),
    CORE)

  function At(now: nat): Context {
    Context(now, {ALICE}, {ALICE, STAKE}, {CORE.code})
  }

  function StakeSelf(amount: int64): Action {
    Delegate(ALICE, ALICE, Asset(0, CORE), Asset(amount, CORE), false)
  }

  function UnstakeSelf(amount: int64): Action {
    Undelegate(ALICE, ALICE, Asset(0, CORE), Asset(amount, CORE))
  }

  /** Stake five, take one back, and stake three while the one is still pending. Then take everything out
      and ask for it after the delay. */
  const RUN: seq<Step> := [
    Step(At(0), StakeSelf(5)),
    Step(At(0), UnstakeSelf(1)),
    Step(At(0), StakeSelf(3)),
    Step(At(0), UnstakeSelf(7))]

  // ---------------------------------------------------------------------------------------------
  // The states along the run, table by table

  function Staked(own: int64, pending: int64): Stake {
    Stake(Store(map[], (ALICE, ALICE), own), Store(map[], ALICE, own), Queue(pending), Due(pending), map[ALICE := own])
  }

  function Queue(pending: int64): map<Name, Refund> {
    if pending == 0 then map[] else map[ALICE := Refund(0, pending)]
  }

  function Due(pending: int64): map<Name, nat> {
    if pending == 0 then map[] else map[ALICE := REFUND_DELAY]
  }

  function Voted(own: int64): Votes {
    START.votes.(voters := map[ALICE := Voter([], own)])
  }

  function Held(liquid: int64, held: int64): Ledger {
    START.ledger.(accounts := map[(ALICE, CORE.code) := Asset(liquid, CORE), (STAKE, CORE.code) := Asset(held, CORE)])
  }

  /** The states in which Alice delegates `own`, has `pending` to come and `liquid` in hand, with `held` in
      the staking account. */
  function Holding(own: int64, pending: int64, liquid: int64, held: int64): State {
    START.(stake := Staked(own, pending), votes := Voted(own), ledger := Held(liquid, held))
  }

  // ---------------------------------------------------------------------------------------------
  // One step, table by table

  predicate Small(x: int) {
    0 <= x <= 10
  }

  /** What is pending after Alice moves her own stake by `delta`, and what she pays for it. */
  function Left(pending: int, delta: int): int {
    if pending < delta then 0 else pending - delta
  }

  function Paid(v: Variant, pending: int, delta: int): int {
    if delta <= pending then 0 else if pending == 0 then delta else if v == AsWritten then 0 else delta - pending
  }

  lemma DelbandMoves(s: Stake, own: int64, delta: Delta)
    requires Small(own) && Small(own + delta) && s.delband == Store(map[], (ALICE, ALICE), own)
    ensures UpdateDelband(s, ALICE, ALICE, delta) == Ok(s.(delband := Store(map[], (ALICE, ALICE), own + delta)))
  {
    assert UpdateDelband(s, ALICE, ALICE, delta).value.delband == Store(map[], (ALICE, ALICE), own + delta);
  }

  lemma TotalsMove(s: Stake, own: int64, delta: Delta)
    requires Small(own) && Small(own + delta) && s.userres == Store(map[], ALICE, own) && s.cpuLimit.Keys <= {ALICE}
    ensures UpdateTotals(s, ALICE, delta)
         == Ok(s.(userres := Store(map[], ALICE, own + delta), cpuLimit := map[ALICE := own + delta]))
  {
    assert UpdateTotals(s, ALICE, delta).value.userres == Store(map[], ALICE, own + delta);
    assert UpdateTotals(s, ALICE, delta).value.cpuLimit == map[ALICE := own + delta];
  }

  lemma QueueMoves(v: Variant, s: Stake, pending: int64, delta: Delta)
    requires Small(pending) && -10 <= delta <= 10 && delta != 0
    requires s.refunds == Queue(pending) && s.deferred == Due(pending)
    ensures UpdateRefund(v, s, ALICE, ALICE, delta, false, 0)
         == Ok((s.(refunds := Queue(Left(pending, delta)), deferred := Due(Left(pending, delta))),
           Paid(v, pending, delta)))
  {
    var t := UpdateRefund(v, s, ALICE, ALICE, delta, false, 0).value.0;
    assert t.refunds == Queue(Left(pending, delta));
    assert t.deferred == Due(Left(pending, delta));
  }

  lemma StakeMoves(v: Variant, s: Stake, own: int64, pending: int64, delta: Delta)
    requires Small(own) && Small(own + delta) && Small(pending) && -10 <= delta <= 10 && delta != 0
    requires s == Staked(own, pending) || (s == START.stake && own == pending == 0)
    ensures MoveStake(v, s, ALICE, ALICE, delta, false, 0)
         == Ok((Staked(own + delta, Left(pending, delta)), Paid(v, pending, delta)))
  {
    hide UpdateDelband, UpdateTotals, UpdateRefund;
    assert START.stake.delband == Store(map[], (ALICE, ALICE), 0) && START.stake.userres == Store(map[], ALICE, 0);
    DelbandMoves(s, own, delta);
    var delegated := UpdateDelband(s, ALICE, ALICE, delta).value;
    TotalsMove(delegated, own, delta);
    var totalled := UpdateTotals(delegated, ALICE, delta).value;
    QueueMoves(v, totalled, pending, delta);
  }

  lemma VotesMove(v: Votes, own: int64, delta: Delta)
    requires Small(own) && Small(own + delta)
    requires v == Voted(own) || (v == START.votes && own == 0)
    ensures UpdateVotingPower(v, ALICE, delta) == Ok(Voted(own + delta))
  {
    assert UpdateVotingPower(v, ALICE, delta).value.voters == Voted(own + delta).voters;
  }

  lemma TokensMove(s: State, liquid: int64, held: int64, q: int64)
    requires Small(liquid) && Small(held) && 0 <= q <= liquid && s.core == CORE
    requires s.ledger == Held(liquid, held) || (s.ledger == START.ledger && liquid == 10 && held == 0 && 0 < q)
    ensures Payment(s, At(0), ALICE, q) == Ok(Held(liquid - q, held + q))
  {
    assert |STAKE_MEMO| <= MAX_MEMO;
    assert Payment(s, At(0), ALICE, q).value.accounts == Held(liquid - q, held + q).accounts;
  }

  /** One step: Alice moves her own stake by `delta` from a state along the run, or from the start. */
  lemma Moves(v: Variant, s: State, own: int64, pending: int64, liquid: int64, held: int64, delta: Delta)
    requires Small(own) && Small(own + delta) && Small(pending) && Small(liquid) && Small(held)
    requires -10 <= delta <= 10 && delta != 0 && Paid(v, pending, delta) <= liquid
    requires s == Holding(own, pending, liquid, held)
          || (s == START && own == pending == held == 0 && liquid == 10)
    ensures Changebw(v, s, At(0), ALICE, ALICE, delta, false)
         == Ok(Holding(own + delta, Left(pending, delta), liquid - Paid(v, pending, delta),
           held + Paid(v, pending, delta)))
  {
    hide MoveStake, UpdateVotingPower, Payment, Staked, Voted, Held;
    StakeMoves(v, s.stake, own, pending, delta);
    VotesMove(s.votes, own, delta);
    TokensMove(s, liquid, held, Paid(v, pending, delta));
  }

  /** Where the third step leads: two tokens short as written, paid up with the statements swapped. */
  function Topped(v: Variant): State {
    if v == AsWritten then Holding(7, 0, 5, 5) else Holding(7, 0, 3, 7)
  }

  lemma Steps(v: Variant)
    ensures Do(v, START, At(0), StakeSelf(5)) == Ok(Holding(5, 0, 5, 5))
    ensures Do(v, Holding(5, 0, 5, 5), At(0), UnstakeSelf(1)) == Ok(Holding(4, 1, 5, 5))
    ensures Do(v, Holding(4, 1, 5, 5), At(0), StakeSelf(3)) == Ok(Topped(v))
    ensures Do(v, Holding(7, 0, 5, 5), At(0), UnstakeSelf(7)) == Ok(Holding(0, 7, 5, 5))
    ensures Do(v, Holding(7, 0, 3, 7), At(0), UnstakeSelf(7)) == Ok(Holding(0, 7, 3, 7))
  {
    hide Changebw, Staked, Voted, Held;
    Moves(v, START, 0, 0, 10, 0, 5);
    Moves(v, Holding(5, 0, 5, 5), 5, 0, 5, 5, -1);
    Moves(v, Holding(4, 1, 5, 5), 4, 1, 5, 5, 3);
    Moves(v, Holding(7, 0, 5, 5), 7, 0, 5, 5, -7);
    Moves(v, Holding(7, 0, 3, 7), 7, 0, 3, 7, -7);
  }

  lemma StartIsGenesis()
    ensures Genesis(START)
  {
    var l := START.ledger;
    assert Slice(Amounts(l.accounts), OfCode(CORE.code)) == map[(ALICE, CORE.code) := 10];
    SumPut(map[], (ALICE, CORE.code), 10);
  }

  /** Only the third step delegates more than it pays for. */
  lemma Excesses(v: Variant)
    ensures Excess(v, START, StakeSelf(5)) == 0 && Excess(v, Holding(5, 0, 5, 5), UnstakeSelf(1)) == 0
    ensures Excess(v, Holding(4, 1, 5, 5), StakeSelf(3)) == if v == AsWritten then 2 else 0
    ensures forall liquid, held :: Excess(v, Holding(7, 0, liquid, held), UnstakeSelf(7)) == 0
  {
  }

  lemma RunOf(v: Variant)
    ensures Exec(v, START, RUN) == if v == AsWritten then Holding(0, 7, 5, 5) else Holding(0, 7, 3, 7)
    ensures Shortfall(v, START, RUN) == if v == AsWritten then 2 else 0
  {
    hide Do, Holding, Excess, Exec, Shortfall;
    Steps(v);
    Excesses(v);
    assert RUN[..1] == [] + [RUN[0]] && RUN[..2] == RUN[..1] + [RUN[1]];
    assert RUN[..3] == RUN[..2] + [RUN[2]] && RUN == RUN[..3] + [RUN[3]];
    Nothing(v);
    Extend(v, [], RUN[0], Holding(5, 0, 5, 5));
    Extend(v, RUN[..1], RUN[1], Holding(4, 1, 5, 5));
    Extend(v, RUN[..2], RUN[2], Topped(v));
    Extend(v, RUN[..3], RUN[3], if v == AsWritten then Holding(0, 7, 5, 5) else Holding(0, 7, 3, 7));
  }

  lemma Nothing(v: Variant)
    ensures Exec(v, START, []) == START && Shortfall(v, START, []) == 0
  {
  }

  lemma Extend(v: Variant, run: seq<Step>, step: Step, t: State)
    requires Do(v, Exec(v, START, run), step.ctx, step.action) == Ok(t)
    ensures Exec(v, START, run + [step]) == t
    ensures Shortfall(v, START, run + [step]) == Shortfall(v, START, run) + Excess(v, Exec(v, START, run), step.action)
  {
    hide Do, Excess;
    assert Earlier(run + [step]) == run;
  }

  lemma RefundOfSeven(liquid: int64, held: int64)
    requires 0 <= liquid <= 10 && 0 <= held <= 10
    ensures PayRefund(Holding(0, 7, liquid, held), At(REFUND_DELAY), ALICE).Ok? <==> 7 <= held
    ensures held < 7 ==> PayRefund(Holding(0, 7, liquid, held), At(REFUND_DELAY), ALICE) == Abort(Overdrawn)
  {
  }

  /** As written, the run ends with seven tokens owed and five held, and the refund of seven is refused
      after the delay. With the statements swapped, the same run is covered and the refund is paid. */
  lemma RunFallsShort()
    ensures Genesis(START) && NeverSigned(RUN)
    ensures Shortfall(AsWritten, START, RUN) == 2
    ensures PayRefund(Exec(AsWritten, START, RUN), At(REFUND_DELAY), ALICE) == Abort(Overdrawn)
    ensures Shortfall(Swapped, START, RUN) == 0
    ensures PayRefund(Exec(Swapped, START, RUN), At(REFUND_DELAY), ALICE).Ok?
  {
    hide Genesis, Exec, Shortfall, PayRefund, Holding;
    StartIsGenesis();
    RunOf(AsWritten);
    RunOf(Swapped);
    RefundOfSeven(5, 5);
    RefundOfSeven(3, 7);
  }
}
