/** When each action of the multisig contract goes through, in terms of the history alone. */
module MultisigActions {
  import opened Base
  import opened Histories
  import opened Multisig
  import opened MultisigRuns
  import opened MultisigHistory

  // ---------------------------------------------------------------------------------------------
  // What the history says of a proposal

  /** The transaction of the proposal that is open under a name, as it was proposed. */
  function OpenProposal(g: Tables, run: seq<Step>, key: Key): Option<Trx>
    decreases |run|
  {
    if run == [] then
      if key in g.proposals then Some(g.proposals[key]) else None
    else
      var step := Latest(run);
      if !Commits(After(g, Earlier(run)), step) then OpenProposal(g, Earlier(run), key)
      else if Begins(step, key) then Some(step.action.trx)
      else if Ends(step, key) then None
      else OpenProposal(g, Earlier(run), key)
  }

  /** Whether the open proposal is one that was left over in the old format. */
  predicate LeftOver(g: Tables, run: seq<Step>, key: Key)
    decreases |run|
  {
    if run == [] then key in g.oldApprovals
    else
      && LeftOver(g, Earlier(run), key)
      && !(Commits(After(g, Earlier(run)), Latest(run)) && Ends(Latest(run), key))
  }

  /** How often a level counts: in the current format once for each approval in force that no invalidation at
      the same time or later strikes out; in the old format once for each approval in force, unless its actor
      ever invalidated. */
  function Counts(g: Tables, run: seq<Step>, key: Key, level: Level): nat {
    var times, last := InForce(g, run, key, level), LastInvalidation(g, run, level.actor);
    if LeftOver(g, run, key) then
      if last.Never? then |times| else 0
    else |Standing(times, last)|
  }

  /** A list of levels in which each occurs as often as it counts. */
  ghost predicate Presents(g: Tables, run: seq<Step>, key: Key, levels: seq<Level>) {
    forall level :: multiset(levels)[level] == Counts(g, run, key, level)
  }

  /** The open proposals and their transactions are those of the history. */
  lemma {:induction false} ProposalsAreHistory(g: Tables, run: seq<Step>, key: Key)
    requires Genesis(g)
    ensures var m := After(g, run);
            && OpenProposal(g, run, key) == (if key in m.proposals then Some(m.proposals[key]) else None)
            && (LeftOver(g, run, key) <==> key in m.oldApprovals)
    decreases |run|
  {
    hide Do, Lockstep;
    if run != [] {
      ProposalsAreHistory(g, Earlier(run), key);
      TablesStayInLockstep(g, Earlier(run));
      if Commits(After(g, Earlier(run)), Latest(run)) {
        ProposalStep(After(g, Earlier(run)), Latest(run), key);
      }
    }
  }

  lemma ProposalStep(m: Tables, step: Step, key: Key)
    requires Lockstep(m) && Commits(m, step)
    ensures var t := Apply(m, step);
            && (key in t.proposals <==> Begins(step, key) || (key in m.proposals && !Ends(step, key)))
            && (key in t.proposals ==>
                 t.proposals[key] == if Begins(step, key) then step.action.trx else m.proposals[key])
            && (key in t.oldApprovals <==> key in m.oldApprovals && !Ends(step, key))
  {
    hide Do;
    RowsStep(m, step);
  }

  // ---------------------------------------------------------------------------------------------
  // When actions go through

  /** A proposal goes through exactly when its proposer signs, its transaction has not expired, no proposal is
      open under the name, and the host finds that the requested levels would authorise the transaction. */
  lemma ProposeCommits(g: Tables, run: seq<Step>, ctx: Signed, key: Key, requested: seq<Level>, trx: Trx,
        authority: Authority)
    requires Genesis(g)
    ensures Commits(After(g, run), Step(ctx, ProposeAction(key, requested, trx, authority))) <==>
              && (exists l :: l in ctx.levels && l.actor == key.proposer)
              && Seconds(ctx.now) <= trx.expiration
              && OpenProposal(g, run, key).None?
              && authority(trx, requested)
  {
    hide After, OpenProposal, LeftOver, Genesis;
    ProposalsAreHistory(g, run, key);
    TablesStayInLockstep(g, run);
    assert key in After(g, run).approvals ==> key in After(g, run).proposals;
  }

  /** The levels of an open proposal that are still requested are those proposed less those in force. */
  lemma StillRequested(g: Tables, run: seq<Step>, key: Key, level: Level)
    requires Genesis(g)
    ensures var m := After(g, run);
            var times := |InForce(g, run, key, level)|;
            var proposed := ProposedLevels(g, run, key)[level];
            && (key in m.approvals ==>
                 && multiset(Levels(m.approvals[key].provided))[level] == times
                 && multiset(Levels(m.approvals[key].requested))[level] == proposed - times)
            && (key in m.oldApprovals ==>
                 && multiset(m.oldApprovals[key].provided)[level] == times
                 && multiset(m.oldApprovals[key].requested)[level] == proposed - times)
            && (key !in m.approvals && key !in m.oldApprovals ==> times == 0)
  {
    hide After, InForce, ProposedLevels, Genesis, Levels, Times;
    var m := After(g, run);
    TablesHoldInForce(g, run, key, level);
    LevelsAreConserved(g, run, key);
    TablesStayInLockstep(g, run);
    if key in m.approvals { TimesCount(m.approvals[key].provided, level); }
  }

  /** An approval goes through exactly when the level signs, a proposal is open, a hash given with it is that of
      the proposed transaction, and the level was proposed more often than it has approvals in force. */
  lemma ApproveCommits(g: Tables, run: seq<Step>, ctx: Signed, key: Key, level: Level, hash: HashArgument)
    requires Genesis(g)
    ensures Commits(After(g, run), Step(ctx, ApproveAction(key, level, hash))) <==>
              && level in ctx.levels
              && OpenProposal(g, run, key).Some?
              && (hash.HashOf? ==> hash.trx == OpenProposal(g, run, key).value)
              && |InForce(g, run, key, level)| < ProposedLevels(g, run, key)[level]
  {
    hide After, OpenProposal, LeftOver, InForce, ProposedLevels, Genesis, Levels, RemoveAt;
    var m := After(g, run);
    ProposalsAreHistory(g, run, key);
    TablesStayInLockstep(g, run);
    StillRequested(g, run, key, level);
    assert key in m.proposals <==> key in m.approvals || key in m.oldApprovals;
    if key in m.approvals { Occurs(Levels(m.approvals[key].requested), level); }
    if key in m.oldApprovals { Occurs(m.oldApprovals[key].requested, level); }
  }

  lemma Occurs<T>(s: seq<T>, x: T)
    ensures IndexOf(s, x) < |s| <==> 0 < multiset(s)[x]
  {
    hide IndexOf;
  }

  /** An unapproval goes through exactly when the level signs and has an approval in force. */
  lemma UnapproveCommits(g: Tables, run: seq<Step>, ctx: Signed, key: Key, level: Level)
    requires Genesis(g)
    ensures Commits(After(g, run), Step(ctx, UnapproveAction(key, level))) <==>
              level in ctx.levels && InForce(g, run, key, level) != []
  {
    hide After, InForce, ProposedLevels, Genesis, Levels, RemoveAt;
    var m := After(g, run);
    TablesStayInLockstep(g, run);
    StillRequested(g, run, key, level);
    if key in m.approvals { Occurs(Levels(m.approvals[key].provided), level); }
    if key in m.oldApprovals { Occurs(m.oldApprovals[key].provided, level); }
  }

  /** A cancellation goes through exactly when the canceller signs, a proposal is open, and the canceller is its
      proposer or its transaction has expired. */
  lemma CancelCommits(g: Tables, run: seq<Step>, ctx: Signed, key: Key, canceler: Name)
    requires Genesis(g)
    ensures Commits(After(g, run), Step(ctx, CancelAction(key, canceler))) <==>
              && (exists l :: l in ctx.levels && l.actor == canceler)
              && OpenProposal(g, run, key).Some?
              && (canceler == key.proposer || OpenProposal(g, run, key).value.expiration < Seconds(ctx.now))
  {
    hide After, OpenProposal, LeftOver, Genesis;
    ProposalsAreHistory(g, run, key);
    TablesStayInLockstep(g, run);
    assert key in After(g, run).proposals ==> key in After(g, run).approvals || key in After(g, run).oldApprovals;
  }

  /** An invalidation goes through exactly when its account signs. */
  lemma InvalidateCommits(g: Tables, run: seq<Step>, ctx: Signed, account: Name)
    ensures Commits(After(g, run), Step(ctx, InvalidateAction(account))) <==>
              exists l :: l in ctx.levels && l.actor == account
  {
    hide After;
  }

  /** An execution goes through exactly when the executer signs, a proposal is open, its transaction has not
      expired, and the host authorises that transaction, as it was proposed, by a list of levels in which each
      occurs as often as the history of approvals and invalidations says. */
  lemma ExecCommits(g: Tables, run: seq<Step>, ctx: Signed, key: Key, executer: Name, authority: Authority)
    requires Genesis(g)
    ensures exists levels :: Presents(g, run, key, levels) &&
              (Commits(After(g, run), Step(ctx, ExecAction(key, executer, authority))) <==>
                && (exists l :: l in ctx.levels && l.actor == executer)
                && OpenProposal(g, run, key).Some?
                && Seconds(ctx.now) <= OpenProposal(g, run, key).value.expiration
                && authority(OpenProposal(g, run, key).value, levels))
  {
    hide After, OpenProposal, LeftOver, Genesis, Presents, Counted;
    var m := After(g, run);
    ProposalsAreHistory(g, run, key);
    TablesStayInLockstep(g, run);
    assert key in m.proposals <==> key in m.approvals || key in m.oldApprovals;
    CountedPresents(g, run, key);
    assert Presents(g, run, key, Counted(m, key));
  }

  lemma CountedPresents(g: Tables, run: seq<Step>, key: Key)
    requires Genesis(g)
    ensures Presents(g, run, key, Counted(After(g, run), key))
  {
    hide After, OpenProposal, LeftOver, Genesis, InForce, LastInvalidation, Standing, CountedNew, CountedOld;
    var m := After(g, run);
    ProposalsAreHistory(g, run, key);
    TablesStayInLockstep(g, run);
    forall level ensures multiset(Counted(m, key))[level] == Counts(g, run, key, level) {
      ExecCountsHistory(g, run, key, level);
      TablesHoldInForce(g, run, key, level);
      NoneStanding(LastInvalidation(g, run, level.actor));
    }
  }

  lemma NoneStanding(invalidated: Moment)
    ensures Standing([], invalidated) == []
  {
  }
}
