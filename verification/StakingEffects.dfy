/** A change of stake, table by table: exactly when it goes through, and what it leaves of every row. */
module StakingEffects {
  import opened Base
  import opened Staking
  import opened StakingInvariant

  /** Who delegates: with `transfer`, the receiver. */
  function Delegator(signer: Name, receiver: Name, transfer: bool): Name {
    if transfer then receiver else signer
  }

  /** Whether a change of stake goes to the refund queue first. */
  predicate Requeues(signer: Name, receiver: Name, delta: int, transfer: bool) {
    signer != STAKE && ((!transfer && signer == receiver) || delta < 0)
  }

  /** The three tables can take the change: there is enough to withdraw, rows that exist stay in the asset range,
      and so does a pending refund that is drawn upon or added to. A new row is not range checked. */
  predicate Movable(s: Stake, signer: Name, receiver: Name, delta: int, transfer: bool) {
    var k := (Delegator(signer, receiver, transfer), receiver);
    && 0 <= Get0(s.delband, k) + delta
    && (k in s.delband ==> s.delband[k] + delta <= MAX_AMOUNT)
    && (receiver in s.userres ==> s.userres[receiver] + delta <= MAX_AMOUNT)
    && (Requeues(signer, receiver, delta, transfer) && k.0 in s.refunds ==> InRange(s.refunds[k.0].amount - delta))
  }

  lemma MoveStakeCommits(v: Variant, s: Stake, signer: Name, receiver: Name, delta: Delta, transfer: bool, now: nat)
    requires StakeInv(s) && delta != 0 && (delta < 0 ==> !transfer)
    ensures MoveStake(v, s, signer, receiver, delta, transfer, now).Ok?
       <==> Movable(s, signer, receiver, delta, transfer)
  {
    hide Store, ColSum, RowSum;
    var from := Delegator(signer, receiver, transfer);
    ColumnCoversRow(s, from, receiver);
  }

  lemma ColumnCoversRow(s: Stake, from: Name, receiver: Name)
    requires StakeInv(s)
    ensures 0 <= Get0(s.delband, (from, receiver)) <= Get0(s.userres, receiver)
  {
    SumsNonNegative(s, from, receiver);
  }

  /** One amount in a table moves by `d`; a row is there afterwards exactly when its amount is not zero. Every
      other row stays as it is. */
  ghost predicate RowMoved<K(!new)>(m: map<K, int>, m': map<K, int>, k: K, d: int) {
    && Get0(m', k) == Get0(m, k) + d && (k in m' <==> Get0(m', k) != 0)
    && forall j :: j != k ==> (j in m' <==> j in m) && Get0(m', j) == Get0(m, j)
  }

  /** The delegation of the delegator to the receiver, the receiver's total and the receiver's limit move, and no
      other delegation, total or limit does. */
  ghost predicate RowsMoved(s: Stake, s': Stake, from: Name, receiver: Name, delta: int) {
    && RowMoved(s.delband, s'.delband, (from, receiver), delta)
    && RowMoved(s.userres, s'.userres, receiver, delta)
    && receiver in s'.cpuLimit && s'.cpuLimit[receiver] == Get0(s'.userres, receiver)
    && forall a: Name :: a != receiver ==>
         (a in s'.cpuLimit <==> a in s.cpuLimit) && Get0(s'.cpuLimit, a) == Get0(s.cpuLimit, a)
  }

  lemma StoreMoves<K(!new)>(m: map<K, int>, k: K, d: int)
    ensures RowMoved(m, Store(m, k, Get0(m, k) + d), k, d)
  {
  }

  lemma DelbandMoves(s: Stake, from: Name, receiver: Name, delta: Delta)
    ensures var r := UpdateDelband(s, from, receiver, delta);
            var amount := Get0(s.delband, (from, receiver)) + delta;
            r.Ok? ==> r.value == s.(delband := Store(s.delband, (from, receiver), amount))
  {
    hide Store;
  }

  lemma TotalsMove(s: Stake, receiver: Name, delta: Delta)
    ensures var r := UpdateTotals(s, receiver, delta);
            var total := Get0(s.userres, receiver) + delta;
            r.Ok? ==>
              r.value == s.(userres := Store(s.userres, receiver, total), cpuLimit := s.cpuLimit[receiver := total])
  {
    hide Store;
  }

  lemma MoveStakeRows(v: Variant, s: Stake, signer: Name, receiver: Name, delta: Delta, transfer: bool, now: nat)
    ensures var r := MoveStake(v, s, signer, receiver, delta, transfer, now);
            r.Ok? ==> RowsMoved(s, r.value.0, Delegator(signer, receiver, transfer), receiver, delta)
  {
    hide UpdateDelband, UpdateTotals, UpdateRefund, Store, RowMoved;
    var from := Delegator(signer, receiver, transfer);
    DelbandMoves(s, from, receiver, delta);
    StoreMoves(s.delband, (from, receiver), delta);
    StoreMoves(s.userres, receiver, delta);
    var delegated := UpdateDelband(s, from, receiver, delta);
    if delegated.Ok? {
      TotalsMove(delegated.value, receiver, delta);
      var totalled := UpdateTotals(delegated.value, receiver, delta);
      if totalled.Ok? {
        RowIs(s.userres, totalled.value.userres, receiver, delta);
        OnlyQueue(v, totalled.value, from, receiver, delta, transfer, now);
      }
    }
  }

  lemma RowIs<K(!new)>(m: map<K, int>, m': map<K, int>, k: K, d: int)
    requires RowMoved(m, m', k, d)
    ensures Get0(m', k) == Get0(m, k) + d
  {
  }

  lemma OnlyQueue(v: Variant, s: Stake, from: Name, receiver: Name, delta: Delta, transfer: bool, now: nat)
    ensures var r := UpdateRefund(v, s, from, receiver, delta, transfer, now);
            r.Ok? ==> r.value.0 == s.(refunds := r.value.0.refunds, deferred := r.value.0.deferred)
  {
  }

  /** What the signer is charged for a change of stake: nothing when withdrawing; when delegating, the amount,
      less what a self-delegation takes from the pending refund. As written, a pending refund that does not
      cover the amount still leaves nothing to pay. */
  function Charge(v: Variant, s: Stake, signer: Name, receiver: Name, delta: int, transfer: bool): int {
    if signer == STAKE || delta < 0 then 0
    else if transfer || signer != receiver || signer !in s.refunds then delta
    else if v == AsWritten || delta <= s.refunds[signer].amount then 0
    else delta - s.refunds[signer].amount
  }

  lemma ChargeBounds(v: Variant, s: Stake, signer: Name, receiver: Name, delta: Delta, transfer: bool)
    requires StakeInv(s) && (delta < 0 ==> !transfer)
    ensures 0 <= Charge(v, s, signer, receiver, delta, transfer) < 0x8000_0000_0000_0000
  {
    hide TotalsOk, LimitsOk;
  }

  /** Nobody else's refund or schedule is affected. */
  ghost predicate OthersWait(s: Stake, s': Stake, from: Name) {
    forall f: Name :: f != from ==>
      && (f in s'.refunds <==> f in s.refunds) && (f in s.refunds && f in s'.refunds ==> s'.refunds[f] == s.refunds[f])
      && (f in s'.deferred <==> f in s.deferred)
      && (f in s.deferred && f in s'.deferred ==> s'.deferred[f] == s.deferred[f])
  }

  /** A change that goes to the queue leaves what is still pending there, with the time of the request when
      withdrawing and the earlier time otherwise, and schedules its payment three days ahead. */
  ghost predicate Requeued(s: Stake, s': Stake, from: Name, delta: int, now: nat) {
    var left := if PendingOf(s, from) < delta then 0 else PendingOf(s, from) - delta;
    && PendingOf(s', from) == left
    && (from in s'.refunds <==> 0 < left) && (from in s'.deferred <==> 0 < left)
    && (from in s'.deferred ==> s'.deferred[from] == now + 3 * 24 * 3600 * 1_000_000)
    && (from in s'.refunds && delta < 0 ==> s'.refunds[from].time == now / 1_000_000)
    && (from in s'.refunds && 0 < delta ==> from in s.refunds && s'.refunds[from].time == s.refunds[from].time)
  }

  /** What happens to the refund queue: nothing when the staking account signs; a change that does not go to
      the queue only cancels the delegator's schedule. */
  ghost predicate QueueMoved(s: Stake, s': Stake, signer: Name, receiver: Name, delta: int, transfer: bool, now: nat) {
    var from := Delegator(signer, receiver, transfer);
    if signer == STAKE then s'.refunds == s.refunds && s'.deferred == s.deferred
    else
      && OthersWait(s, s', from)
      && if Requeues(signer, receiver, delta, transfer) then Requeued(s, s', from, delta, now)
         else s'.refunds == s.refunds && from !in s'.deferred
  }

  lemma OthersDoWait(v: Variant, s: Stake, from: Name, receiver: Name, delta: Delta, transfer: bool, now: nat)
    ensures var r := UpdateRefund(v, s, from, receiver, delta, transfer, now);
            r.Ok? ==> OthersWait(s, r.value.0, from)
  {
    hide CheckedAmount;
  }

  lemma OwnQueue(v: Variant, s: Stake, from: Name, receiver: Name, delta: Delta, transfer: bool, now: nat)
    requires delta != 0 && (from in s.refunds ==> 0 < s.refunds[from].amount)
    ensures var r := UpdateRefund(v, s, from, receiver, delta, transfer, now);
            r.Ok? ==>
              if (!transfer && from == receiver) || delta < 0 then Requeued(s, r.value.0, from, delta, now)
              else r.value.0.refunds == s.refunds && from !in r.value.0.deferred
  {
  }

  lemma OwnCharge(v: Variant, s: Stake, signer: Name, receiver: Name, delta: Delta, transfer: bool, now: nat)
    requires signer != STAKE && (delta < 0 ==> !transfer) && delta != 0
    requires signer in s.refunds ==> 0 < s.refunds[signer].amount
    ensures var r := UpdateRefund(v, s, Delegator(signer, receiver, transfer), receiver, delta, transfer, now);
            r.Ok? ==> r.value.1 == Charge(v, s, signer, receiver, delta, transfer)
  {
  }

  lemma MoveStakeQueue(v: Variant, s: Stake, signer: Name, receiver: Name, delta: Delta, transfer: bool, now: nat)
    requires StakeInv(s) && delta != 0 && (delta < 0 ==> !transfer)
    ensures var r := MoveStake(v, s, signer, receiver, delta, transfer, now);
            r.Ok? ==>
              && QueueMoved(s, r.value.0, signer, receiver, delta, transfer, now)
              && r.value.1 == Charge(v, s, signer, receiver, delta, transfer)
  {
    hide UpdateDelband, UpdateTotals, UpdateRefund, TotalsOk, LimitsOk;
    var from := Delegator(signer, receiver, transfer);
    DelbandMoves(s, from, receiver, delta);
    var delegated := UpdateDelband(s, from, receiver, delta);
    if delegated.Ok? {
      TotalsMove(delegated.value, receiver, delta);
      var totalled := UpdateTotals(delegated.value, receiver, delta);
      if totalled.Ok? && signer != STAKE {
        OthersDoWait(v, totalled.value, from, receiver, delta, transfer, now);
        OwnQueue(v, totalled.value, from, receiver, delta, transfer, now);
        OwnCharge(v, totalled.value, signer, receiver, delta, transfer, now);
      }
    }
  }
}
