/** Delegated stake, per-receiver totals, pending refunds and their deferred transactions. */
module Staking {
  import opened Base

  /** `time` is the request time in whole seconds. */
  datatype Refund = Refund(time: nat, amount: int64)

  /** A change of stake: a positive quantity or the negation of one. */
  type Delta = x: int | -0x8000_0000_0000_0000 < x < 0x8000_0000_0000_0000

  /** All amounts are in the core symbol. `cpuLimit` is the limit the host enforces for an account, and
      `deferred` holds when the account's scheduled refund transaction becomes due, in microseconds. */
  datatype Stake = Stake(
    delband: map<(Name, Name), int>,
    userres: map<Name, int>,
    refunds: map<Name, Refund>,
    deferred: map<Name, nat>,
    cpuLimit: map<Name, int>)

  const REFUND_DELAY_SEC: nat := 3 * 24 * 3600
  const REFUND_DELAY: nat := REFUND_DELAY_SEC * 1_000_000

  /** The order of two statements in the refund update. `AsWritten` clears the refund amount and then
      negates it; `Swapped` negates first. */
  datatype Variant = AsWritten | Swapped

  function UpdateDelband(s: Stake, from: Name, receiver: Name, delta: Delta): Result<Stake> {
    var k := (from, receiver);
    var amount :- if k in s.delband then CheckedAmount(s.delband[k] + delta) else Ok(delta);
    :- Check(0 <= amount, InsufficientStake);
    Ok(s.(delband := Store(s.delband, k, amount)))
  }

  function UpdateTotals(s: Stake, receiver: Name, delta: Delta): Result<Stake> {
    var amount :- if receiver in s.userres then CheckedAmount(s.userres[receiver] + delta) else Ok(delta);
    :- Check(0 <= amount, NegativeTotal);
    Ok(s.(userres := Store(s.userres, receiver, amount), cpuLimit := s.cpuLimit[receiver := amount]))
  }

  /** Updates the pending refund of `from` and says what remains to be paid from the liquid balance. */
  function UpdateRefund(v: Variant, s: Stake, from: Name, receiver: Name, delta: Delta, transfer: bool,
        now: nat): Result<(Stake, int64)> {
    var unscheduled := s.deferred - {from};
    if (!transfer && from == receiver) || delta < 0 then
      if from in s.refunds then
        var time := if delta < 0 then Seconds(now) else s.refunds[from].time;
        var rest :- CheckedAmount(s.refunds[from].amount - delta);
        var amount := if rest < 0 then 0 else rest;
        var balance := if rest < 0 then (if v == AsWritten then -amount else -rest) else 0;
        if amount == 0 then Ok((s.(refunds := s.refunds - {from}, deferred := unscheduled), balance))
        else Ok((s.(refunds := s.refunds[from := Refund(time, amount)],
                    deferred := unscheduled[from := now + REFUND_DELAY]), balance))
      else if delta < 0 then
        Ok((s.(refunds := s.refunds[from := Refund(Seconds(now), -delta)],
               deferred := unscheduled[from := now + REFUND_DELAY]), 0))
      else Ok((s.(deferred := unscheduled), delta))
    else Ok((s.(deferred := unscheduled), delta))
  }

  /** The three staking tables moved together, and what remains to be paid. With `transfer` the receiver
      becomes the delegator; the staking account itself neither pays nor gets refunds. */
  function MoveStake(v: Variant, s: Stake, signer: Name, receiver: Name, delta: Delta, transfer: bool,
        now: nat): Result<(Stake, int64)> {
    var from := if transfer then receiver else signer;
    var delegated :- UpdateDelband(s, from, receiver, delta);
    var totalled :- UpdateTotals(delegated, receiver, delta);
    if signer != STAKE then UpdateRefund(v, totalled, from, receiver, delta, transfer, now) else Ok((totalled, 0))
  }

  /** The first moment at which a refund may be paid, in microseconds. */
  function Maturity(r: Refund): nat {
    r.time * 1_000_000 + REFUND_DELAY
  }
}
