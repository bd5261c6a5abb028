/** The multisig contract as an object that updates its tables in place. */
module MultisigContract {
  import opened Base
  import opened Multisig

  class Msig {
    var proposals: map<Key, Trx>
    var approvals: map<Key, Ballot>
    var oldApprovals: map<Key, OldBallot>
    var invalidations: map<Name, nat>

    constructor ()
      ensures View() == Tables(map[], map[], map[], map[])
    {
      proposals, approvals, oldApprovals, invalidations := map[], map[], map[], map[];
    }

    function View(): Tables
      reads this
    {
      Tables(proposals, approvals, oldApprovals, invalidations)
    }

    method Propose(ctx: Signed, key: Key, requested: seq<Level>, trx: Trx, authority: Authority) returns (r: Outcome)
      modifies this`proposals, this`approvals
      ensures Settles(old(View()), r, View(), Multisig.Propose(old(View()), ctx, key, requested, trx, authority))
    {
      if !HasAuth(ctx, key.proposer) { return Aborted(MissingAuth); }
      if trx.expiration < Seconds(ctx.now) { return Aborted(Expired); }
      if key in proposals { return Aborted(RowExists); }
      if !authority(trx, requested) { return Aborted(NotAuthorized); }
      if key in approvals { return Aborted(RowExists); }
      proposals := proposals[key := trx];
      var entries: seq<Approval> := [];
      for i := 0 to |requested|
        invariant Levels(entries) == requested[..i] && forall j :: 0 <= j < |entries| ==> entries[j].time == 0
      {
        entries := entries + [Approval(requested[i], 0)];
      }
      assert entries == Fresh(requested);
      approvals := approvals[key := Ballot(entries, [])];
      return Committed;
    }

    method Approve(ctx: Signed, key: Key, level: Level, hash: HashArgument) returns (r: Outcome)
      modifies this`approvals, this`oldApprovals
      ensures Settles(old(View()), r, View(), Multisig.Approve(old(View()), ctx, key, level, hash))
    {
      if level !in ctx.levels { return Aborted(MissingAuth); }
      if hash.HashOf? {
        if key !in proposals { return Aborted(RowMissing); }
        if proposals[key] != hash.trx { return Aborted(HashMismatch); }
      }
      if key in approvals {
        var row := approvals[key];
        var i := IndexOf(Levels(row.requested), level);
        if i == |row.requested| { return Aborted(NotRequested); }
        row := row.(provided := row.provided + [Approval(level, ctx.now)]);
        row := row.(requested := RemoveAt(row.requested, i));
        approvals := approvals[key := row];
      } else {
        if key !in oldApprovals { return Aborted(RowMissing); }
        var row := oldApprovals[key];
        var i := IndexOf(row.requested, level);
        if i == |row.requested| { return Aborted(NotRequested); }
        row := row.(provided := row.provided + [level]);
        row := row.(requested := RemoveAt(row.requested, i));
        oldApprovals := oldApprovals[key := row];
      }
      return Committed;
    }

    method Unapprove(ctx: Signed, key: Key, level: Level) returns (r: Outcome)
      modifies this`approvals, this`oldApprovals
      ensures Settles(old(View()), r, View(), Multisig.Unapprove(old(View()), ctx, key, level))
    {
      if level !in ctx.levels { return Aborted(MissingAuth); }
      if key in approvals {
        var row := approvals[key];
        var i := IndexOf(Levels(row.provided), level);
        if i == |row.provided| { return Aborted(NotProvided); }
        row := row.(requested := row.requested + [Approval(level, ctx.now)]);
        row := row.(provided := RemoveAt(row.provided, i));
        approvals := approvals[key := row];
      } else {
        if key !in oldApprovals { return Aborted(RowMissing); }
        var row := oldApprovals[key];
        var i := IndexOf(row.provided, level);
        if i == |row.provided| { return Aborted(NotProvided); }
        row := row.(requested := row.requested + [level]);
        row := row.(provided := RemoveAt(row.provided, i));
        oldApprovals := oldApprovals[key := row];
      }
      return Committed;
    }

    method Cancel(ctx: Signed, key: Key, canceler: Name) returns (r: Outcome)
      modifies this`proposals, this`approvals, this`oldApprovals
      ensures Settles(old(View()), r, View(), Multisig.Cancel(old(View()), ctx, key, canceler))
    {
      if !HasAuth(ctx, canceler) { return Aborted(MissingAuth); }
      if key !in proposals { return Aborted(RowMissing); }
      if canceler != key.proposer && Seconds(ctx.now) <= proposals[key].expiration { return Aborted(NotExpired); }
      if key in approvals {
        approvals := approvals - {key};
      } else {
        if key !in oldApprovals { return Aborted(RowMissing); }
        oldApprovals := oldApprovals - {key};
      }
      proposals := proposals - {key};
      return Committed;
    }

    /** `sent` holds the transaction handed to the host and its identifier, if the action committed. */
    method Exec(ctx: Signed, key: Key, executer: Name, authority: Authority) returns (r: Outcome, sent: seq<(int, Trx)>)
      modifies this`proposals, this`approvals, this`oldApprovals
      ensures Settles(old(View()), r, View(), Multisig.Exec(old(View()), ctx, key, executer, authority))
      ensures sent == if r.Committed? then [(DeferredId(key), old(proposals)[key])] else []
    {
      sent := [];
      if !HasAuth(ctx, executer) { return Aborted(MissingAuth), []; }
      if key !in proposals { return Aborted(RowMissing), []; }
      var trx := proposals[key];
      if trx.expiration < Seconds(ctx.now) { return Aborted(Expired), []; }
      if key !in approvals && key !in oldApprovals { return Aborted(RowMissing), []; }
      var levels := Count(key);
      if !authority(trx, levels) { return Aborted(NotAuthorized), []; }
      if key in approvals {
        approvals := approvals - {key};
      } else {
        oldApprovals := oldApprovals - {key};
      }
      sent := [(DeferredId(key), trx)];
      proposals := proposals - {key};
      return Committed, sent;
    }

    /** The loop that builds the vector of levels to present. */
    method Count(key: Key) returns (levels: seq<Level>)
      requires key in approvals || key in oldApprovals
      ensures levels == Counted(View(), key)
    {
      levels := [];
      if key in approvals {
        var provided := approvals[key].provided;
        for i := 0 to |provided|
          invariant levels == CountedNew(provided[..i], invalidations)
        {
          var p := provided[i];
          assert provided[..i + 1][..i] == provided[..i];
          if p.level.actor !in invalidations || invalidations[p.level.actor] < p.time {
            levels := levels + [p.level];
          }
        }
        assert provided[..|provided|] == provided;
      } else {
        var provided := oldApprovals[key].provided;
        for i := 0 to |provided|
          invariant levels == CountedOld(provided[..i], invalidations)
        {
          assert provided[..i + 1][..i] == provided[..i];
          if provided[i].actor !in invalidations {
            levels := levels + [provided[i]];
          }
        }
        assert provided[..|provided|] == provided;
      }
    }

    method Invalidate(ctx: Signed, account: Name) returns (r: Outcome)
      modifies this`invalidations
      ensures Settles(old(View()), r, View(), Multisig.Invalidate(old(View()), ctx, account))
    {
      if !HasAuth(ctx, account) { return Aborted(MissingAuth); }
      invalidations := invalidations[account := ctx.now];
      return Committed;
    }

    /** The contract's dispatcher: exactly the step that the run theorems speak about. */
    method Dispatch(ctx: Signed, a: Action) returns (r: Outcome)
      modifies this
      ensures Settles(old(View()), r, View(), Do(old(View()), ctx, a))
    {
      hide Multisig.Propose, Multisig.Approve, Multisig.Unapprove, Multisig.Cancel, Multisig.Exec, Multisig.Invalidate;
      match a
      case ProposeAction(key, requested, trx, authority) => r := Propose(ctx, key, requested, trx, authority);
      case ApproveAction(key, level, hash) => r := Approve(ctx, key, level, hash);
      case UnapproveAction(key, level) => r := Unapprove(ctx, key, level);
      case CancelAction(key, canceler) => r := Cancel(ctx, key, canceler);
      case ExecAction(key, executer, authority) =>
        var sent;
        r, sent := Exec(ctx, key, executer, authority);
      case InvalidateAction(account) => r := Invalidate(ctx, account);
    }
  }
}
