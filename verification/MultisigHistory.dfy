/** What `exec` presents to the host, in terms of the whole history of approvals and invalidations. */
module MultisigHistory {
  import opened Base
  import opened Histories
  import opened Multisig
  import opened MultisigRuns

  // ---------------------------------------------------------------------------------------------
  // The history

  predicate Approves(step: Step, key: Key, level: Level) {
    step.action.ApproveAction? && step.action.key == key && step.action.level == level
  }

  predicate Unapproves(step: Step, key: Key, level: Level) {
    step.action.UnapproveAction? && step.action.key == key && step.action.level == level
  }

  predicate Invalidates(step: Step, actor: Name) {
    step.action.InvalidateAction? && step.action.account == actor
  }

  /** When the approvals of `level` that are in force for the current instance were given, oldest first. An
      unapproval takes back the oldest. Approvals inherited in the old format count as given at time zero. */
  function InForce(g: Tables, run: seq<Step>, key: Key, level: Level): seq<nat>
    decreases |run|
  {
    if run == [] then Inherited(g, key, level)
    else
      var past := InForce(g, Earlier(run), key, level);
      var step := Latest(run);
      if !Commits(After(g, Earlier(run)), step) then past
      else if Approves(step, key, level) then past + [step.ctx.now]
      else if Unapproves(step, key, level) && past != [] then past[1..]
      else if Begins(step, key) || Ends(step, key) then []
      else past
  }

  function Inherited(g: Tables, key: Key, level: Level): seq<nat> {
    if key in g.oldApprovals then seq(multiset(g.oldApprovals[key].provided)[level], _ => 0) else []
  }

  /** When an actor last invalidated. */
  function LastInvalidation(g: Tables, run: seq<Step>, actor: Name): Moment
    decreases |run|
  {
    if run == [] then Never
    else
      var step := Latest(run);
      if Commits(After(g, Earlier(run)), step) && Invalidates(step, actor) then At(step.ctx.now)
      else LastInvalidation(g, Earlier(run), actor)
  }

  /** Whether an actor invalidated at time `t` or later. */
  predicate InvalidatedSince(g: Tables, run: seq<Step>, actor: Name, t: nat)
    decreases |run|
  {
    run != [] &&
    var step := Latest(run);
    || (Commits(After(g, Earlier(run)), step) && Invalidates(step, actor) && t <= step.ctx.now)
    || InvalidatedSince(g, Earlier(run), actor, t)
  }

  /** When `level` last approved the current instance, unless it unapproved since. */
  function LatestApproval(g: Tables, run: seq<Step>, key: Key, level: Level): Moment
    decreases |run|
  {
    if run == [] then Never
    else
      var step := Latest(run);
      if !Commits(After(g, Earlier(run)), step) then LatestApproval(g, Earlier(run), key, level)
      else if Approves(step, key, level) then At(step.ctx.now)
      else if Unapproves(step, key, level) then Never
      else if Begins(step, key) || Ends(step, key) then Never
      else LatestApproval(g, Earlier(run), key, level)
  }

  // ---------------------------------------------------------------------------------------------
  // Times recorded in a list

  /** The times recorded for one level, in list order. */
  function Times(s: seq<Approval>, level: Level): seq<nat>
    decreases |s|
  {
    if s == [] then []
    else
      var past := Times(s[..|s| - 1], level);
      if s[|s| - 1].level == level then past + [s[|s| - 1].time] else past
  }

  lemma {:induction false} TimesConcat(a: seq<Approval>, b: seq<Approval>, level: Level)
    ensures Times(a + b, level) == Times(a, level) + Times(b, level)
    decreases |b|
  {
    if b == [] {
      assert a + b == a;
    } else {
      var front := b[..|b| - 1];
      TimesConcat(a, front, level);
      assert (a + b)[..|a + b| - 1] == a + front;
    }
  }

  lemma {:induction false} TimesAbsent(s: seq<Approval>, level: Level)
    requires level !in Levels(s)
    ensures Times(s, level) == []
    decreases |s|
  {
    if s != [] {
      var front := s[..|s| - 1];
      assert Levels(s)[|s| - 1] == s[|s| - 1].level;
      assert Levels(front) == Levels(s)[..|s| - 1];
      TimesAbsent(front, level);
    }
  }

  lemma TimesAppend(s: seq<Approval>, a: Approval, level: Level)
    ensures Times(s + [a], level) == Times(s, level) + if a.level == level then [a.time] else []
  {
    TimesConcat(s, [a], level);
    assert Times([a], level) == if a.level == level then [a.time] else [];
  }

  /** Removing the first entry of a level drops its oldest time, and no time of another level. */
  lemma TimesRemoveFirst(s: seq<Approval>, first: Level, level: Level)
    requires first in Levels(s)
    ensures var i := IndexOf(Levels(s), first);
            var times := Times(RemoveAt(s, i), level);
            if level == first then Times(s, level) != [] && times == Times(s, level)[1..] else times == Times(s, level)
  {
    hide Times, Levels, RemoveAt;
    var i := IndexOf(Levels(s), first);
    TimesSplit(s, i, level);
    LevelsPrefix(s, i);
    TimesAbsent(s[..i], first);
  }

  lemma TimesSplit(s: seq<Approval>, i: nat, level: Level)
    requires i < |s|
    ensures Times(s, level) == Times(s[..i], level) + (if s[i].level == level then [s[i].time] else [])
        + Times(s[i + 1..], level)
    ensures Times(RemoveAt(s, i), level) == Times(s[..i], level) + Times(s[i + 1..], level)
  {
    hide Times;
    assert s == s[..i] + [s[i]] + s[i + 1..];
    TimesAppend(s[..i], s[i], level);
    TimesConcat(s[..i] + [s[i]], s[i + 1..], level);
    TimesConcat(s[..i], s[i + 1..], level);
  }

  lemma LevelsPrefix(s: seq<Approval>, i: nat)
    requires i <= |s|
    ensures Levels(s[..i]) == Levels(s)[..i]
  {
  }

  lemma {:induction false} TimesCount(s: seq<Approval>, level: Level)
    ensures |Times(s, level)| == multiset(Levels(s))[level]
    decreases |s|
  {
    if s != [] {
      var front := s[..|s| - 1];
      TimesCount(front, level);
      assert s == front + [s[|s| - 1]];
      LevelsAppend(front, s[|s| - 1]);
    }
  }

  /** The times not struck out by an invalidation at the same time or later. */
  function Standing(times: seq<nat>, invalidated: Moment): seq<nat>
    decreases |times|
  {
    if times == [] then []
    else
      var t := times[|times| - 1];
      var rest := Standing(times[..|times| - 1], invalidated);
      if invalidated.Never? || invalidated.time < t then rest + [t] else rest
  }

  function Entry(invalidations: map<Name, nat>, actor: Name): Moment {
    if actor in invalidations then At(invalidations[actor]) else Never
  }

  lemma {:induction false} CountedNewTimes(provided: seq<Approval>, invalidations: map<Name, nat>, level: Level)
    ensures multiset(CountedNew(provided, invalidations))[level]
         == |Standing(Times(provided, level), Entry(invalidations, level.actor))|
    decreases |provided|
  {
    if provided != [] {
      var front, p := provided[..|provided| - 1], provided[|provided| - 1];
      CountedNewTimes(front, invalidations, level);
      assert Times(provided, level) == Times(front, level) + if p.level == level then [p.time] else [];
      if p.level == level {
        assert Times(provided, level)[..|Times(provided, level)| - 1] == Times(front, level);
      }
    }
  }

  lemma {:induction false} CountedOldCount(provided: seq<Level>, invalidations: map<Name, nat>, level: Level)
    ensures multiset(CountedOld(provided, invalidations))[level]
         == if level.actor in invalidations then 0 else multiset(provided)[level]
    decreases |provided|
  {
    if provided != [] {
      var front := provided[..|provided| - 1];
      CountedOldCount(front, invalidations, level);
      assert provided == front + [provided[|provided| - 1]];
    }
  }

  // ---------------------------------------------------------------------------------------------
  // Tables against history

  /** What the tables hold for one level of one proposal, set against the times in force. */
  predicate Agrees(m: Tables, key: Key, level: Level, times: seq<nat>) {
    && (key in m.approvals ==> Times(m.approvals[key].provided, level) == times)
    && (key in m.oldApprovals ==> multiset(m.oldApprovals[key].provided)[level] == |times|)
    && (key !in m.approvals && key !in m.oldApprovals ==> times == [])
  }

  lemma {:induction false} InvalidationsAreLast(g: Tables, run: seq<Step>, actor: Name)
    requires Genesis(g)
    ensures Entry(After(g, run).invalidations, actor) == LastInvalidation(g, run, actor)
    decreases |run|
  {
    if run != [] {
      InvalidationsAreLast(g, Earlier(run), actor);
      TablesStayInLockstep(g, Earlier(run));
      InvalidationStep(After(g, Earlier(run)), Latest(run));
    }
  }

  lemma InvalidationStep(m: Tables, step: Step)
    requires Lockstep(m)
    ensures Apply(m, step).invalidations ==
              if Commits(m, step) && step.action.InvalidateAction?
              then m.invalidations[step.action.account := step.ctx.now]
              else m.invalidations
  {
    hide Do;
    if Commits(m, step) { RowsStep(m, step); }
  }

  lemma ApproveAgrees(m: Tables, ctx: Signed, k: Key, l: Level, hash: HashArgument, key: Key, level: Level,
        times: seq<nat>)
    requires Lockstep(m) && Agrees(m, key, level, times) && Approve(m, ctx, k, l, hash).Ok?
    ensures Agrees(Approve(m, ctx, k, l, hash).value, key, level,
              if (k, l) == (key, level) then times + [ctx.now] else times)
  {
    hide Times, HashFits, RemoveAt, Levels;
    if k in m.approvals { TimesAppend(m.approvals[k].provided, Approval(l, ctx.now), level); }
  }

  lemma UnapproveAgrees(m: Tables, ctx: Signed, k: Key, l: Level, key: Key, level: Level, times: seq<nat>)
    requires Lockstep(m) && Agrees(m, key, level, times) && Unapprove(m, ctx, k, l).Ok?
    ensures (k, l) == (key, level) ==> times != []
    ensures Agrees(Unapprove(m, ctx, k, l).value, key, level, if (k, l) == (key, level) then times[1..] else times)
  {
    hide Times, RemoveAt, Levels;
    if k in m.approvals {
      TimesRemoveFirst(m.approvals[k].provided, l, level);
    } else {
      var provided := m.oldApprovals[k].provided;
      RemoveAtMultiset(provided, IndexOf(provided, l));
    }
  }

  /** The tables always hold exactly the approvals in force. */
  lemma {:induction false} TablesHoldInForce(g: Tables, run: seq<Step>, key: Key, level: Level)
    requires Genesis(g)
    ensures Agrees(After(g, run), key, level, InForce(g, run, key, level))
    decreases |run|
  {
    hide Do, Agrees, Lockstep;
    if run == [] {
      InheritedAgrees(g, key, level);
    } else {
      TablesHoldInForce(g, Earlier(run), key, level);
      TablesStayInLockstep(g, Earlier(run));
      if Commits(After(g, Earlier(run)), Latest(run)) {
        AgreeStep(After(g, Earlier(run)), Latest(run), key, level, InForce(g, Earlier(run), key, level));
      }
    }
  }

  lemma InheritedAgrees(g: Tables, key: Key, level: Level)
    requires Genesis(g)
    ensures Agrees(g, key, level, Inherited(g, key, level))
  {
  }

  lemma AgreeStep(m: Tables, step: Step, key: Key, level: Level, past: seq<nat>)
    requires Lockstep(m) && Commits(m, step) && Agrees(m, key, level, past)
    ensures Agrees(Apply(m, step), key, level,
              if Approves(step, key, level) then past + [step.ctx.now]
              else if Unapproves(step, key, level) && past != [] then past[1..]
              else if Begins(step, key) || Ends(step, key) then []
              else past)
  {
    hide Approve, Unapprove, Propose, Exec, Cancel, Fresh, Levels;
    match step.action
    case ApproveAction(k, l, hash) => ApproveAgrees(m, step.ctx, k, l, hash, key, level, past);
    case UnapproveAction(k, l) => UnapproveAgrees(m, step.ctx, k, l, key, level, past);
    case _ => RowsStep(m, step);
  }

  // ---------------------------------------------------------------------------------------------
  // What exec counts

  /** In every reachable state, for every proposal: in the current format, `exec` presents a level once for
      every approval in force that its actor's last invalidation does not strike out; in the old format,
      once for every approval in force if its actor has never invalidated at all. */
  lemma ExecCountsHistory(g: Tables, run: seq<Step>, key: Key, level: Level)
    requires Genesis(g)
    ensures var m := After(g, run);
            var times := InForce(g, run, key, level);
            var last := LastInvalidation(g, run, level.actor);
            && (key in m.approvals ==> multiset(Counted(m, key))[level] == |Standing(times, last)|)
            && (key in m.oldApprovals ==> multiset(Counted(m, key))[level] == if last.Never? then |times| else 0)
  {
    hide After, InForce, LastInvalidation, Genesis, Standing, Times, CountedNew, CountedOld;
    var m := After(g, run);
    TablesHoldInForce(g, run, key, level);
    InvalidationsAreLast(g, run, level.actor);
    TablesStayInLockstep(g, run);
    if key in m.approvals { CountedNewTimes(m.approvals[key].provided, m.invalidations, level); }
    if key in m.oldApprovals { CountedOldCount(m.oldApprovals[key].provided, m.invalidations, level); }
  }

  lemma {:induction false} StandingSome(times: seq<nat>, invalidated: Moment)
    ensures 0 < |Standing(times, invalidated)| <==> exists t :: t in times && (invalidated.At? ==> invalidated.time < t)
    decreases |times|
  {
    if times != [] {
      var front := times[..|times| - 1];
      StandingSome(front, invalidated);
      assert times == front + [times[|times| - 1]];
      assert forall t :: t in times <==> t in front || t == times[|times| - 1];
      assert times[|times| - 1] in times;
    }
  }

  /** For any proposal in the current format, duplicates or not: `exec` counts a level exactly when one of
      its approvals in force was followed by no invalidation at the same time or later. */
  lemma ExecCountsApprovalsInForce(g: Tables, run: seq<Step>, key: Key, level: Level)
    requires Genesis(g) && ClockOk(run) && key in After(g, run).approvals
    ensures level in Counted(After(g, run), key) <==>
              exists t :: t in InForce(g, run, key, level) && !InvalidatedSince(g, run, level.actor, t)
  {
    hide After, InForce, LastInvalidation, InvalidatedSince, Genesis, Counted, Standing;
    ExecCountsHistory(g, run, key, level);
    var last := LastInvalidation(g, run, level.actor);
    StandingSome(InForce(g, run, key, level), last);
    forall t: nat ensures InvalidatedSince(g, run, level.actor, t) <==> last.At? && t <= last.time {
      LastIsEnough(g, run, level.actor, t);
    }
    assert level in Counted(After(g, run), key) <==> 0 < multiset(Counted(After(g, run), key))[level];
  }

  /** For a proposal in the old format, `exec` counts exactly the levels with an approval in force whose
      actor never invalidated. */
  lemma ExecCountsOldApprovals(g: Tables, run: seq<Step>, key: Key, level: Level)
    requires Genesis(g) && key in After(g, run).oldApprovals
    ensures level in Counted(After(g, run), key) <==>
              InForce(g, run, key, level) != [] && !InvalidatedSince(g, run, level.actor, 0)
  {
    hide After, InForce, LastInvalidation, InvalidatedSince, Genesis, Counted;
    ExecCountsHistory(g, run, key, level);
    AnyIsLast(g, run, level.actor);
    assert level in Counted(After(g, run), key) <==> 0 < multiset(Counted(After(g, run), key))[level];
  }

  /** No approval carries over to a later proposal of the same name: right after it is proposed, nothing is
      in force and `exec` would present no level at all. */
  lemma ProposalsStartFresh(g: Tables, run: seq<Step>, ctx: Signed, key: Key, requested: seq<Level>, trx: Trx,
        authority: Authority, level: Level)
    requires Genesis(g)
    requires var step := Step(ctx, ProposeAction(key, requested, trx, authority)); Commits(After(g, run), step)
    ensures var run' := run + [Step(ctx, ProposeAction(key, requested, trx, authority))];
            && InForce(g, run', key, level) == []
            && key in After(g, run').approvals
            && Counted(After(g, run'), key) == []
  {
    hide After, Do, Lockstep;
    var step := Step(ctx, ProposeAction(key, requested, trx, authority));
    assert Earlier(run + [step]) == run;
    TablesStayInLockstep(g, run);
    RowsStep(After(g, run), step);
    assert After(g, run + [step]) == Apply(After(g, run), step) by { AfterStep(g, run, step); }
  }

  lemma AfterStep(g: Tables, run: seq<Step>, step: Step)
    ensures After(g, run + [step]) == Apply(After(g, run), step)
  {
    assert Earlier(run + [step]) == run;
  }

  /** Every invalidation happens at time zero or later, whatever the clock does. */
  lemma {:induction false} AnyIsLast(g: Tables, run: seq<Step>, actor: Name)
    ensures InvalidatedSince(g, run, actor, 0) <==> LastInvalidation(g, run, actor).At?
    decreases |run|
  {
    hide After, Commits;
    if run != [] { AnyIsLast(g, Earlier(run), actor); }
  }

  /** With a clock that never goes back, the last invalidation is the only one that matters. */
  lemma {:induction false} LastIsEnough(g: Tables, run: seq<Step>, actor: Name, t: nat)
    requires ClockOk(run)
    ensures var last := LastInvalidation(g, run, actor);
            InvalidatedSince(g, run, actor, t) <==> last.At? && t <= last.time
    ensures var last := LastInvalidation(g, run, actor); last.At? ==> run != [] && last.time <= Latest(run).ctx.now
    decreases |run|
  {
    hide After, Commits;
    if run != [] { LastIsEnough(g, Earlier(run), actor, t); }
  }

  /** While a level was requested at most once, the approvals in force are its latest approval, if that was
      not taken back. */
  lemma {:induction false} LatestIsInForce(g: Tables, run: seq<Step>, key: Key, level: Level)
    requires Genesis(g) && key in After(g, run).approvals && ProposedLevels(g, run, key)[level] <= 1
    ensures InForce(g, run, key, level) == match LatestApproval(g, run, key, level) case Never => [] case At(t) => [t]
    decreases |run|
  {
    hide Do, Levels, Lockstep, Times, LevelsOf;
    AtMostOne(g, run, key, level);
    var m, step := After(g, Earlier(run)), Latest(run);
    TablesStayInLockstep(g, Earlier(run));
    if Commits(m, step) {
      KeyStays(m, step, key);
      if key in m.approvals && !Ends(step, key) && !Begins(step, key) {
        LatestIsInForce(g, Earlier(run), key, level);
        AtMostOne(g, Earlier(run), key, level);
      }
    } else {
      LatestIsInForce(g, Earlier(run), key, level);
    }
  }

  /** A row of the current table is there before a step, or is made by it. */
  lemma KeyStays(m: Tables, step: Step, key: Key)
    requires Lockstep(m) && Commits(m, step) && key in Apply(m, step).approvals
    ensures !Ends(step, key)
    ensures key in m.approvals || Begins(step, key)
  {
    hide Do;
    RowsStep(m, step);
  }

  lemma AtMostOne(g: Tables, run: seq<Step>, key: Key, level: Level)
    requires Genesis(g) && key in After(g, run).approvals && ProposedLevels(g, run, key)[level] <= 1
    ensures |InForce(g, run, key, level)| <= 1
  {
    hide After, InForce, ProposedLevels, Genesis, Levels;
    TablesHoldInForce(g, run, key, level);
    LevelsAreConserved(g, run, key);
    TimesCount(After(g, run).approvals[key].provided, level);
  }

  /** For a proposal in the current format that requested a level at most once, `exec` counts the level
      exactly when it approved at some time, did not unapprove since, and its actor made no invalidation at
      that time or later. */
  lemma ExecCountsLatestApprovals(g: Tables, run: seq<Step>, key: Key, level: Level)
    requires Genesis(g) && ClockOk(run) && key in After(g, run).approvals && ProposedLevels(g, run, key)[level] <= 1
    ensures level in Counted(After(g, run), key) <==>
              var latest := LatestApproval(g, run, key, level);
              latest.At? && !InvalidatedSince(g, run, level.actor, latest.time)
  {
    hide After, InForce, LastInvalidation, InvalidatedSince, LatestApproval, ProposedLevels, Genesis, Counted;
    ExecCountsHistory(g, run, key, level);
    LatestIsInForce(g, run, key, level);
    var latest := LatestApproval(g, run, key, level);
    LastIsEnough(g, run, level.actor, if latest.At? then latest.time else 0);
    assert level in Counted(After(g, run), key) <==> 0 < multiset(Counted(After(g, run), key))[level];
  }

  // ---------------------------------------------------------------------------------------------
  // Requested twice

  const ANN: Level := Level(1, 1)
  const TWICE: Key := Key(1, 1)
  const PLAN: Trx := Trx(1000, [])

  function Sign(now: nat): Signed {
    Signed(now, {ANN})
  }

  const PROPOSE: Action := ProposeAction(TWICE, [ANN, ANN], PLAN, (t: Trx, levels: seq<Level>) => true)
  const APPROVE: Action := ApproveAction(TWICE, ANN, NoHash)
  const UNAPPROVE: Action := UnapproveAction(TWICE, ANN)

  /** A level requested twice, approved twice and unapproved once. */
  const TWICE_RUN: seq<Step> :=
    [Step(Sign(0), PROPOSE), Step(Sign(10), APPROVE), Step(Sign(20), APPROVE), Step(Sign(30), UNAPPROVE)]

  const NOTHING: Tables := Tables(map[], map[], map[], map[])

  function Holding(requested: seq<nat>, provided: seq<nat>): Tables {
    NOTHING.(proposals := map[TWICE := PLAN], approvals := map[TWICE := Ballot(OfAnn(requested), OfAnn(provided))])
  }

  function OfAnn(times: seq<nat>): seq<Approval> {
    seq(|times|, i requires 0 <= i < |times| => Approval(ANN, times[i]))
  }

  lemma TwiceProposed()
    ensures Do(NOTHING, Sign(0), PROPOSE) == Ok(Holding([0, 0], []))
  {
    assert ANN in Sign(0).levels;
    assert Fresh([ANN, ANN]) == OfAnn([0, 0]) && [] == OfAnn([]);
    var r := Do(NOTHING, Sign(0), PROPOSE);
    assert r.value.approvals == Holding([0, 0], []).approvals && r.value.proposals == Holding([0, 0], []).proposals;
  }

  lemma TwiceApproved(requested: seq<nat>, provided: seq<nat>, now: nat)
    requires requested != []
    ensures Do(Holding(requested, provided), Sign(now), APPROVE) == Ok(Holding(requested[1..], provided + [now]))
  {
    FirstIsAnn(requested);
    assert OfAnn(provided + [now]) == OfAnn(provided) + [Approval(ANN, now)];
    assert Do(Holding(requested, provided), Sign(now), APPROVE).value.approvals
      == Holding(requested[1..], provided + [now]).approvals;
  }

  lemma OnceUnapproved(requested: seq<nat>, provided: seq<nat>, now: nat)
    requires provided != []
    ensures Do(Holding(requested, provided), Sign(now), UNAPPROVE) == Ok(Holding(requested + [now], provided[1..]))
  {
    FirstIsAnn(provided);
    assert OfAnn(requested + [now]) == OfAnn(requested) + [Approval(ANN, now)];
    assert Do(Holding(requested, provided), Sign(now), UNAPPROVE).value.approvals
      == Holding(requested + [now], provided[1..]).approvals;
  }

  lemma FirstIsAnn(times: seq<nat>)
    requires times != []
    ensures IndexOf(Levels(OfAnn(times)), ANN) == 0
    ensures RemoveAt(OfAnn(times), 0) == OfAnn(times[1..])
  {
    assert Levels(OfAnn(times))[0] == ANN;
  }

  /** Requesting a level only once matters: here the level took back its latest approval, yet `exec` counts
      it, because what was taken back was the older of two. */
  lemma TwiceRequestedStillCounts()
    ensures Genesis(NOTHING) && ClockOk(TWICE_RUN) && TWICE in After(NOTHING, TWICE_RUN).approvals
    ensures LatestApproval(NOTHING, TWICE_RUN, TWICE, ANN) == Never
    ensures InForce(NOTHING, TWICE_RUN, TWICE, ANN) == [20]
    ensures ANN in Counted(After(NOTHING, TWICE_RUN), TWICE)
  {
    hide Do, Holding, CountedNew;
    var r := TWICE_RUN;
    assert Earlier(r) == r[..3] && Earlier(r[..3]) == r[..2] && Earlier(r[..2]) == r[..1] && Earlier(r[..1]) == [];
    TwiceProposed();
    TwiceApproved([0, 0], [], 10);
    TwiceApproved([0], [10], 20);
    OnceUnapproved([], [10, 20], 30);
    assert [0, 0][1..] == [0] && [0][1..] == [] && [10, 20][1..] == [20];
    assert [] + [10] == [10] && [10] + [20] == [10, 20] && [] + [30] == [30];
    assert After(NOTHING, r[..1]) == Holding([0, 0], []);
    assert InForce(NOTHING, r[..1], TWICE, ANN) == [];
    assert After(NOTHING, r[..2]) == Holding([0], [10]);
    assert InForce(NOTHING, r[..2], TWICE, ANN) == [10];
    assert After(NOTHING, r[..3]) == Holding([], [10, 20]);
    assert InForce(NOTHING, r[..3], TWICE, ANN) == [10, 20];
    assert After(NOTHING, r) == Holding([30], [20]);
    CountsTwenty();
  }

  lemma CountsTwenty()
    ensures TWICE in Holding([30], [20]).approvals && Counted(Holding([30], [20]), TWICE) == [ANN]
  {
    assert OfAnn([20]) == [Approval(ANN, 20)];
  }
}
