/** The life of a proposal over whole runs, and what `exec` counts in terms of what happened before. */
module MultisigRuns {
  import opened Histories
  import opened Multisig

  datatype Step = Step(ctx: Signed, action: Action)

  predicate Commits(m: Tables, step: Step) {
    Do(m, step.ctx, step.action).Ok?
  }

  function Apply(m: Tables, step: Step): Tables {
    match Do(m, step.ctx, step.action)
    case Ok(t) => t
    case Abort(_) => m
  }

  function After(g: Tables, run: seq<Step>): Tables
    decreases |run|
  {
    if run == [] then g else Apply(After(g, Earlier(run)), Latest(run))
  }

  /** Where a run may start: proposals left over in the old format, and nothing else. */
  predicate Genesis(g: Tables) {
    g.approvals == map[] && g.invalidations == map[] && g.proposals.Keys == g.oldApprovals.Keys
  }

  predicate ClockOk(run: seq<Step>) {
    Forward(run, (step: Step) => step.ctx.now)
  }

  // ---------------------------------------------------------------------------------------------
  // The tables move in lockstep

  /** A proposal exists exactly when one of the two approval tables, and only one, has its row. */
  predicate Lockstep(m: Tables) {
    && m.proposals.Keys == m.approvals.Keys + m.oldApprovals.Keys
    && m.approvals.Keys !! m.oldApprovals.Keys
  }

  lemma {:induction false} TablesStayInLockstep(g: Tables, run: seq<Step>)
    requires Genesis(g)
    ensures Lockstep(After(g, run))
    decreases |run|
  {
    if run != [] {
      TablesStayInLockstep(g, Earlier(run));
      LockstepStep(After(g, Earlier(run)), Latest(run));
    }
  }

  /** What `exec` and `cancel` do to the tables. */
  ghost predicate Removes(m: Tables, t: Tables, key: Key) {
    && key in m.proposals
    && t == m.(proposals := m.proposals - {key}, approvals := m.approvals - {key},
               oldApprovals := m.oldApprovals - {key})
  }

  /** What `propose` does to the tables. */
  ghost predicate Adds(m: Tables, t: Tables, key: Key, requested: seq<Level>, trx: Trx) {
    && key !in m.proposals && key !in m.approvals && key !in m.oldApprovals
    && t == m.(proposals := m.proposals[key := trx], approvals := m.approvals[key := Ballot(Fresh(requested), [])])
  }

  lemma EndRemoves(m: Tables, step: Step, key: Key)
    requires Lockstep(m) && Commits(m, step) && Ends(step, key)
    ensures Removes(m, Apply(m, step), key)
  {
    hide Counted, HasAuth;
    assert key in m.proposals <==> key in m.approvals.Keys + m.oldApprovals.Keys;
    if key in m.approvals {
      assert m.oldApprovals - {key} == m.oldApprovals;
    } else {
      assert m.approvals - {key} == m.approvals;
    }
  }

  lemma ProposeAdds(m: Tables, ctx: Signed, key: Key, requested: seq<Level>, trx: Trx, authority: Authority)
    requires Lockstep(m) && Propose(m, ctx, key, requested, trx, authority).Ok?
    ensures Adds(m, Propose(m, ctx, key, requested, trx, authority).value, key, requested, trx)
  {
    hide HasAuth;
    assert key in m.proposals <==> key in m.approvals.Keys + m.oldApprovals.Keys;
  }

  /** Which rows a committed action makes appear or disappear. */
  lemma RowsStep(m: Tables, step: Step)
    requires Lockstep(m) && Commits(m, step)
    ensures var t := Apply(m, step);
            match step.action
            case ProposeAction(key, requested, trx, _) => Adds(m, t, key, requested, trx)
            case ExecAction(key, _, _) => Removes(m, t, key)
            case CancelAction(key, _) => Removes(m, t, key)
            case InvalidateAction(account) => t == m.(invalidations := m.invalidations[account := step.ctx.now])
            case _ =>
              && t.proposals == m.proposals && t.invalidations == m.invalidations
              && t.approvals.Keys == m.approvals.Keys && t.oldApprovals.Keys == m.oldApprovals.Keys
  {
    hide IndexOf, RemoveAt, Levels, Fresh, Propose, Exec, Cancel, HasAuth, HashFits, Removes, Adds;
    match step.action
    case ProposeAction(key, requested, trx, authority) => ProposeAdds(m, step.ctx, key, requested, trx, authority);
    case ExecAction(key, _, _) => EndRemoves(m, step, key);
    case CancelAction(key, _) => EndRemoves(m, step, key);
    case _ =>
  }

  lemma LockstepStep(m: Tables, step: Step)
    requires Lockstep(m)
    ensures Lockstep(Apply(m, step))
  {
    hide Do;
    if Commits(m, step) { RowsStep(m, step); }
  }

  // ---------------------------------------------------------------------------------------------
  // Beginnings and ends

  /** Whether a step ends the life of a proposal. */
  predicate Ends(step: Step, key: Key) {
    (step.action.ExecAction? || step.action.CancelAction?) && step.action.key == key
  }

  predicate Begins(step: Step, key: Key) {
    step.action.ProposeAction? && step.action.key == key
  }

  function Begun(g: Tables, run: seq<Step>, key: Key): nat
    decreases |run|
  {
    if run == [] then
      if key in g.proposals then 1 else 0
    else
      var begins := Commits(After(g, Earlier(run)), Latest(run)) && Begins(Latest(run), key);
      Begun(g, Earlier(run), key) + if begins then 1 else 0
  }

  function Ended(g: Tables, run: seq<Step>, key: Key): nat
    decreases |run|
  {
    if run == [] then 0
    else
      var ends := Commits(After(g, Earlier(run)), Latest(run)) && Ends(Latest(run), key);
      Ended(g, Earlier(run), key) + if ends then 1 else 0
  }

  lemma ExistenceStep(m: Tables, step: Step, key: Key)
    requires Lockstep(m)
    ensures var before := if key in m.proposals then 1 else 0;
            var after := if key in Apply(m, step).proposals then 1 else 0;
            after == before
              + (if Commits(m, step) && Begins(step, key) then 1 else 0)
              - (if Commits(m, step) && Ends(step, key) then 1 else 0)
  {
    hide Do;
    if Commits(m, step) { RowsStep(m, step); }
  }

  /** At every moment of every run, proposals of one name were begun as often as they were executed or
      cancelled, plus one if it exists now. So each instance ends at most once, one way only, and before
      the next instance begins. */
  lemma {:induction false} EachInstanceEndsOnce(g: Tables, run: seq<Step>, key: Key)
    requires Genesis(g)
    ensures Begun(g, run, key) == Ended(g, run, key) + if key in After(g, run).proposals then 1 else 0
    decreases |run|
  {
    hide Commits, Apply, Lockstep;
    if run != [] {
      EachInstanceEndsOnce(g, Earlier(run), key);
      TablesStayInLockstep(g, Earlier(run));
      ExistenceStep(After(g, Earlier(run)), Latest(run), key);
    }
  }

  // ---------------------------------------------------------------------------------------------
  // Levels are conserved

  function LevelsOf(m: Tables, key: Key): multiset<Level> {
    if key in m.approvals then
      multiset(Levels(m.approvals[key].requested)) + multiset(Levels(m.approvals[key].provided))
    else if key in m.oldApprovals then multiset(m.oldApprovals[key].requested) + multiset(m.oldApprovals[key].provided)
    else multiset{}
  }

  /** The levels the current instance was proposed with. */
  function ProposedLevels(g: Tables, run: seq<Step>, key: Key): multiset<Level>
    decreases |run|
  {
    if run == [] then LevelsOf(g, key)
    else
      var step := Latest(run);
      if !Commits(After(g, Earlier(run)), step) then ProposedLevels(g, Earlier(run), key)
      else if Begins(step, key) then multiset(step.action.requested)
      else if Ends(step, key) then multiset{}
      else ProposedLevels(g, Earlier(run), key)
  }

  lemma RemoveAtMultiset<T>(s: seq<T>, i: nat)
    requires i < |s|
    ensures multiset(RemoveAt(s, i)) + multiset{s[i]} == multiset(s)
  {
    assert s == s[..i] + [s[i]] + s[i + 1..];
  }

  lemma LevelsRemoveAt(s: seq<Approval>, i: nat)
    requires i < |s|
    ensures Levels(RemoveAt(s, i)) == RemoveAt(Levels(s), i)
  {
  }

  lemma LevelsAppend(s: seq<Approval>, a: Approval)
    ensures Levels(s + [a]) == Levels(s) + [a.level]
  {
  }

  lemma MoveConserves(from: seq<Approval>, i: nat, to: seq<Approval>, time: nat)
    requires i < |from|
    ensures multiset(Levels(RemoveAt(from, i))) + multiset(Levels(to + [Approval(from[i].level, time)]))
         == multiset(Levels(from)) + multiset(Levels(to))
    ensures multiset(Levels(to + [Approval(from[i].level, time)])) + multiset(Levels(RemoveAt(from, i)))
         == multiset(Levels(to)) + multiset(Levels(from))
  {
    LevelsRemoveAt(from, i);
    LevelsAppend(to, Approval(from[i].level, time));
    RemoveAtMultiset(Levels(from), i);
  }

  lemma OldMoveConserves(from: seq<Level>, i: nat, to: seq<Level>)
    requires i < |from|
    ensures multiset(RemoveAt(from, i)) + multiset(to + [from[i]]) == multiset(from) + multiset(to)
    ensures multiset(to + [from[i]]) + multiset(RemoveAt(from, i)) == multiset(to) + multiset(from)
  {
    RemoveAtMultiset(from, i);
  }

  /** From `propose` to its end, approving and unapproving only move levels between the two lists. */
  lemma {:induction false} LevelsAreConserved(g: Tables, run: seq<Step>, key: Key)
    requires Genesis(g)
    ensures LevelsOf(After(g, run), key) == ProposedLevels(g, run, key)
    decreases |run|
  {
    if run != [] {
      LevelsAreConserved(g, Earlier(run), key);
      TablesStayInLockstep(g, Earlier(run));
      ConserveStep(After(g, Earlier(run)), Latest(run), key);
    }
  }

  lemma ConserveStep(m: Tables, step: Step, key: Key)
    requires Lockstep(m)
    ensures LevelsOf(Apply(m, step), key) ==
              if !Commits(m, step) then LevelsOf(m, key)
              else if Begins(step, key) then multiset(step.action.requested)
              else if Ends(step, key) then multiset{}
              else LevelsOf(m, key)
  {
    hide Levels, Approve, Unapprove, Propose, Exec, Cancel, Invalidate, Fresh;
    if Commits(m, step) {
      RowsStep(m, step);
      match step.action
      case ApproveAction(k, level, hash) => ApproveConserves(m, step.ctx, k, level, hash, key);
      case UnapproveAction(k, level) => UnapproveConserves(m, step.ctx, k, level, key);
      case ProposeAction(_, requested, _, _) => assert Levels(Fresh(requested)) == requested && Levels([]) == [];
      case _ =>
    }
  }

  lemma ApproveConserves(m: Tables, ctx: Signed, k: Key, level: Level, hash: HashArgument, key: Key)
    ensures Approve(m, ctx, k, level, hash).Ok?
        ==> LevelsOf(Approve(m, ctx, k, level, hash).value, key) == LevelsOf(m, key)
  {
    hide Levels, RemoveAt, HashFits;
    if Approve(m, ctx, k, level, hash).Ok? {
      if k in m.approvals {
        var row := m.approvals[k];
        MoveConserves(row.requested, IndexOf(Levels(row.requested), level), row.provided, ctx.now);
      } else {
        var row := m.oldApprovals[k];
        OldMoveConserves(row.requested, IndexOf(row.requested, level), row.provided);
      }
    }
  }

  lemma UnapproveConserves(m: Tables, ctx: Signed, k: Key, level: Level, key: Key)
    ensures Unapprove(m, ctx, k, level).Ok? ==> LevelsOf(Unapprove(m, ctx, k, level).value, key) == LevelsOf(m, key)
  {
    hide Levels, RemoveAt;
    if Unapprove(m, ctx, k, level).Ok? {
      if k in m.approvals {
        var row := m.approvals[k];
        MoveConserves(row.provided, IndexOf(Levels(row.provided), level), row.requested, ctx.now);
      } else {
        var row := m.oldApprovals[k];
        OldMoveConserves(row.provided, IndexOf(row.provided, level), row.requested);
      }
    }
  }
}
