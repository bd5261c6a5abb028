/** Row and column sums of the delegation table, the cached totals, and what each update moves. */
module StakingInvariant {
  import opened Base
  import opened Sums
  import opened Staking

  function FromOf(from: Name): ((Name, Name)) -> bool {
    (k: (Name, Name)) => k.0 == from
  }

  function ToOf(receiver: Name): ((Name, Name)) -> bool {
    (k: (Name, Name)) => k.1 == receiver
  }

  /** Everything `from` delegates, over all receivers. */
  ghost function RowSum(s: Stake, from: Name): int {
    SumWhere(s.delband, FromOf(from))
  }

  /** Everything delegated to `receiver`, over all delegators. */
  ghost function ColSum(s: Stake, receiver: Name): int {
    SumWhere(s.delband, ToOf(receiver))
  }

  function Pending(s: Stake): map<Name, int> {
    map f | f in s.refunds :: s.refunds[f].amount
  }

  function PendingOf(s: Stake, from: Name): int {
    if from in s.refunds then s.refunds[from].amount else 0
  }

  ghost predicate RowsPositive(s: Stake) {
    && (forall k :: k in s.delband ==> 0 < s.delband[k])
    && (forall f :: f in s.refunds ==> 0 < s.refunds[f].amount && f != STAKE)
  }

  /** The cached total of an account is the sum of what is delegated to it; a missing row counts zero. */
  ghost predicate TotalsOk(s: Stake) {
    forall t: Name :: Get0(s.userres, t) == ColSum(s, t)
  }

  /** While a resource row exists, the host enforces exactly its weight. */
  ghost predicate LimitsOk(s: Stake) {
    forall t :: t in s.userres ==> t in s.cpuLimit && s.cpuLimit[t] == s.userres[t]
  }

  ghost predicate StakeInv(s: Stake) {
    RowsPositive(s) && TotalsOk(s) && LimitsOk(s)
  }

  lemma SumsNonNegative(s: Stake, from: Name, receiver: Name)
    requires RowsPositive(s)
    ensures 0 <= RowSum(s, from) <= Sum(s.delband)
    ensures 0 <= ColSum(s, receiver) <= Sum(s.delband)
    ensures Get0(s.delband, (from, receiver)) <= RowSum(s, from)
        && Get0(s.delband, (from, receiver)) <= ColSum(s, receiver)
    ensures 0 <= Sum(Pending(s)) && 0 <= Get0(Pending(s), from) <= Sum(Pending(s))
  {
    SumWhereBounds(s.delband, FromOf(from), (from, receiver));
    SumWhereBounds(s.delband, ToOf(receiver), (from, receiver));
    SumAtLeast(Pending(s), from);
  }

  /** One delegation row moves by `delta`: so does its row sum, its column sum and the grand total. */
  lemma UpdateDelbandEffect(s: Stake, from: Name, receiver: Name, delta: Delta)
    requires RowsPositive(s)
    ensures var r := UpdateDelband(s, from, receiver, delta);
            && (r.Abort? ==> r.error in {InsufficientStake, AssetRange})
            && (r == Abort(InsufficientStake) ==> Get0(s.delband, (from, receiver)) + delta < 0)
            && (r.Ok? ==>
                 && RowsPositive(r.value) && r.value == s.(delband := r.value.delband)
                 && 0 <= Get0(s.delband, (from, receiver)) + delta == Get0(r.value.delband, (from, receiver))
                 && Sum(r.value.delband) == Sum(s.delband) + delta
                 && (forall f: Name :: RowSum(r.value, f) == RowSum(s, f) + if f == from then delta else 0)
                 && (forall t: Name :: ColSum(r.value, t) == ColSum(s, t) + if t == receiver then delta else 0))
  {
    hide Sum, SumWhere;
    var r := UpdateDelband(s, from, receiver, delta);
    var k := (from, receiver);
    var amount := Get0(s.delband, k) + delta;
    if r.Ok? {
      assert r.value.delband == Store(s.delband, k, amount);
      SumStore(s.delband, k, amount);
      forall f: Name ensures RowSum(r.value, f) == RowSum(s, f) + if f == from then delta else 0 {
        SumWhereStore(s.delband, k, amount, FromOf(f));
      }
      forall t: Name ensures ColSum(r.value, t) == ColSum(s, t) + if t == receiver then delta else 0 {
        SumWhereStore(s.delband, k, amount, ToOf(t));
      }
    }
  }

  /** Once the delegation check has passed, the total cannot go negative: only its range can stop it. */
  lemma UpdateTotalsEffect(s: Stake, d: Stake, receiver: Name, delta: Delta)
    requires RowsPositive(d) && d == s.(delband := d.delband)
    requires TotalsOk(s) && LimitsOk(s)
    requires forall t: Name :: ColSum(d, t) == ColSum(s, t) + if t == receiver then delta else 0
    ensures var r := UpdateTotals(d, receiver, delta);
            && (r.Abort? ==> r.error == AssetRange)
            && (r.Ok? ==> StakeInv(r.value) && r.value == d.(userres := r.value.userres, cpuLimit := r.value.cpuLimit))
  {
    hide SumWhere;
    SumsNonNegative(d, receiver, receiver);
    var r := UpdateTotals(d, receiver, delta);
    if r.Ok? {
      forall t: Name ensures ColSum(r.value, t) == ColSum(d, t) {}
    }
  }

  /** The part of a self-delegation that exceeds a pending refund. */
  function ExcessOver(s: Stake, from: Name, receiver: Name, delta: int, transfer: bool): int {
    if !transfer && from == receiver && from in s.refunds && PendingOf(s, from) < delta
    then delta - PendingOf(s, from)
    else 0
  }

  /** The refund update accounts for every unit of the delta: what leaves the pending refunds and what is
      left to pay add up to it, except that the code as written drops the excess. */
  lemma UpdateRefundEffect(v: Variant, s: Stake, from: Name, receiver: Name, delta: Delta, transfer: bool, now: nat)
    requires RowsPositive(s) && delta != 0 && (from == STAKE ==> transfer && 0 < delta)
    ensures var r := UpdateRefund(v, s, from, receiver, delta, transfer, now);
            && (r.Abort? ==> r.error == AssetRange)
            && (r.Ok? ==>
                 var (s', balance) := r.value;
                 && s' == s.(refunds := s'.refunds, deferred := s'.deferred) && RowsPositive(s')
                 && 0 <= balance
                 && Sum(Pending(s')) == Sum(Pending(s)) - delta + balance
                      + if v == AsWritten then ExcessOver(s, from, receiver, delta, transfer) else 0)
  {
    hide Sum, Pending, UpdateRefund, RowsPositive, OthersKeep;
    RefundArithmetic(v, s, from, receiver, delta, transfer, now);
    var r := UpdateRefund(v, s, from, receiver, delta, transfer, now);
    if r.Ok? {
      OneRefundMoves(s, r.value.0, from);
    }
  }

  /** The update of one owner's refund row, and of no other. */
  lemma RefundArithmetic(v: Variant, s: Stake, from: Name, receiver: Name, delta: Delta, transfer: bool, now: nat)
    requires RowsPositive(s) && delta != 0 && (from == STAKE ==> transfer && 0 < delta)
    ensures var r := UpdateRefund(v, s, from, receiver, delta, transfer, now);
            && (r.Abort? ==> r.error == AssetRange)
            && (r.Ok? ==>
                 var (s', balance) := r.value;
                 && s' == s.(refunds := s'.refunds, deferred := s'.deferred) && RowsPositive(s')
                 && 0 <= balance && OthersKeep(s, s', from)
                 && PendingOf(s', from) == PendingOf(s, from) - delta + balance
                      + if v == AsWritten then ExcessOver(s, from, receiver, delta, transfer) else 0)
  {
    hide UpdateRefund, PendingOf, ExcessOver;
    OwnRefund(v, s, from, receiver, delta, transfer, now);
    OtherRefunds(v, s, from, receiver, delta, transfer, now);
  }

  /** No refund row but that of `from` differs. */
  ghost predicate OthersKeep(s: Stake, s': Stake, from: Name) {
    && (forall f: Name :: f != from ==> (f in s'.refunds <==> f in s.refunds))
    && (forall f: Name :: f != from && f in s.refunds && f in s'.refunds ==> s'.refunds[f] == s.refunds[f])
  }

  lemma OtherRefunds(v: Variant, s: Stake, from: Name, receiver: Name, delta: Delta, transfer: bool, now: nat)
    ensures var r := UpdateRefund(v, s, from, receiver, delta, transfer, now);
            r.Ok? ==> OthersKeep(s, r.value.0, from)
  {
    hide CheckedAmount;
  }

  lemma OwnRefund(v: Variant, s: Stake, from: Name, receiver: Name, delta: Delta, transfer: bool, now: nat)
    requires from in s.refunds ==> 0 < s.refunds[from].amount && from != STAKE
    requires delta != 0 && (from == STAKE ==> transfer && 0 < delta)
    ensures var r := UpdateRefund(v, s, from, receiver, delta, transfer, now);
            && (r.Abort? ==> r.error == AssetRange)
            && (r.Ok? ==>
                 var (s', balance) := r.value;
                 && s' == s.(refunds := s'.refunds, deferred := s'.deferred)
                 && (from in s'.refunds ==> 0 < s'.refunds[from].amount && from != STAKE)
                 && 0 <= balance
                 && PendingOf(s', from) == PendingOf(s, from) - delta + balance
                      + if v == AsWritten then ExcessOver(s, from, receiver, delta, transfer) else 0)
  {
  }

  /** Only one owner's pending refund changed, so the sum moves by that change. */
  lemma OneRefundMoves(s: Stake, s': Stake, from: Name)
    requires OthersKeep(s, s', from)
    ensures Sum(Pending(s')) == Sum(Pending(s)) - PendingOf(s, from) + PendingOf(s', from)
  {
    hide Sum;
    assert Pending(s') - {from} == Pending(s) - {from};
    SumDrop(Pending(s), from);
    SumDrop(Pending(s'), from);
  }

  /** All three tables together: the invariant stays, row sums move with the delegation, the negative-total
      check never fires, and delegations plus refunds grow by what is left to pay plus the dropped excess. */
  lemma MoveStakeEffect(v: Variant, s: Stake, signer: Name, receiver: Name, delta: Delta, transfer: bool, now: nat)
    requires StakeInv(s) && delta != 0 && (delta < 0 ==> !transfer)
    ensures var from := if transfer then receiver else signer;
            var r := MoveStake(v, s, signer, receiver, delta, transfer, now);
            && (r.Abort? ==> r.error in {InsufficientStake, AssetRange})
            && (r.Ok? ==>
                 var (s', balance) := r.value;
                 && StakeInv(s') && 0 <= balance && (signer == STAKE ==> balance == 0)
                 && (forall f: Name :: RowSum(s', f) == RowSum(s, f) + if f == from then delta else 0)
                 && Sum(s'.delband) == Sum(s.delband) + delta
                 && Sum(s'.delband) + Sum(Pending(s'))
                    == Sum(s.delband) + Sum(Pending(s)) + balance + Unpaid(v, s, signer, receiver, delta, transfer))
  {
    hide RowSum, ColSum, Sum, Pending, UpdateDelband, UpdateTotals, UpdateRefund, RowsPositive, TotalsOk,
      LimitsOk, Store, ExcessOver;
    var from := if transfer then receiver else signer;
    UpdateDelbandEffect(s, from, receiver, delta);
    var r1 := UpdateDelband(s, from, receiver, delta);
    if r1.Ok? {
      UpdateTotalsEffect(s, r1.value, receiver, delta);
      var r2 := UpdateTotals(r1.value, receiver, delta);
      if r2.Ok? {
        SameDelegations(r1.value, r2.value);
        SameQueue(s, r2.value);
        SameExcess(s, r2.value, signer, receiver, delta, transfer);
        if signer != STAKE {
          UpdateRefundEffect(v, r2.value, from, receiver, delta, transfer, now);
          var r3 := UpdateRefund(v, r2.value, from, receiver, delta, transfer, now);
          if r3.Ok? { SameTotals(r2.value, r3.value.0); }
        }
      }
    }
  }

  /** Row and column sums depend on the delegation table alone. */
  lemma SameDelegations(a: Stake, b: Stake)
    requires a.delband == b.delband
    ensures forall t: Name :: RowSum(a, t) == RowSum(b, t) && ColSum(a, t) == ColSum(b, t)
  {
    hide SumWhere;
  }

  lemma SameTotals(a: Stake, b: Stake)
    requires a.delband == b.delband && a.userres == b.userres && a.cpuLimit == b.cpuLimit
    requires TotalsOk(a) && LimitsOk(a)
    ensures TotalsOk(b) && LimitsOk(b)
    ensures forall f: Name :: RowSum(a, f) == RowSum(b, f)
  {
    hide SumWhere;
    SameDelegations(a, b);
  }

  /** With `transfer` there is no excess, whoever is named as the delegator. */
  lemma SameExcess(a: Stake, b: Stake, signer: Name, receiver: Name, delta: int, transfer: bool)
    requires a.refunds == b.refunds
    ensures ExcessOver(b, if transfer then receiver else signer, receiver, delta, transfer)
         == ExcessOver(a, signer, receiver, delta, transfer)
  {
  }

  lemma SameQueue(a: Stake, b: Stake)
    requires a.refunds == b.refunds
    ensures Pending(a) == Pending(b)
  {
  }

  /** What a stake change delegates without paying for it. */
  function Unpaid(v: Variant, s: Stake, signer: Name, receiver: Name, delta: int, transfer: bool): int {
    if signer == STAKE then delta
    else if v == AsWritten then ExcessOver(s, signer, receiver, delta, transfer)
    else 0
  }
}
