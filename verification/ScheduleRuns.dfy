/** The history of producer schedules over whole runs. */
module ScheduleRuns {
  import opened Base
  import opened Histories
  import opened TokenLedger
  import opened Voting
  import opened Staking
  import opened Election
  import opened Chain
  import opened Runs

  /** Whether a step recomputes the schedule in a given state. */
  ghost predicate Recomputes(v: Variant, s: State, step: Step) {
    Commits(v, s, step) && step.action.BlockAction? && UpdateDue(s.sched, step.action.slot)
  }

  ghost function Recompute(s: State, step: Step): Recomputed
    requires step.action.BlockAction?
  {
    UpdateElected(s.sched, s.votes.producers, Index(s.votes.producers), step.action.slot, step.action.accepted)
  }

  /** The slots at which the schedule was recomputed, oldest first. */
  ghost function Recomputations(v: Variant, g: State, run: seq<Step>): seq<uint32>
    decreases |run|
  {
    if run == [] then []
    else
      var past := Recomputations(v, g, Earlier(run));
      if Recomputes(v, Exec(v, g, Earlier(run)), Latest(run)) then past + [Latest(run).action.slot] else past
  }

  /** The schedules the host accepted, oldest first. */
  ghost function Accepted(v: Variant, g: State, run: seq<Step>): seq<seq<ProducerKey>>
    decreases |run|
  {
    if run == [] then []
    else
      var past := Accepted(v, g, Earlier(run));
      var s := Exec(v, g, Earlier(run));
      var step := Latest(run);
      if !Recomputes(v, s, step) then past
      else
        var proposed := Recompute(s, step).proposed;
        if proposed == [] || step.action.accepted < 0 then past else past + [proposed]
  }

  ghost predicate SizesOk(schedules: seq<seq<ProducerKey>>, recorded: nat) {
    && (forall i :: 0 <= i < |schedules| ==> 1 <= |schedules[i]| <= MAX_PRODUCERS)
    && (forall i, j :: 0 <= i < j < |schedules| ==> |schedules[i]| <= |schedules[j]|)
    && recorded == if schedules == [] then 0 else |schedules[|schedules| - 1]|
  }

  /** Accepted schedules never shrink, always have between 1 and 21 producers, and the recorded size is the
      size of the last one. */
  lemma {:induction false} SchedulesNeverShrink(v: Variant, g: State, run: seq<Step>)
    requires g.sched == Sched(0, 0)
    ensures SizesOk(Accepted(v, g, run), Exec(v, g, run).sched.lastSize)
    decreases |run|
  {
    if run != [] {
      SchedulesNeverShrink(v, g, Earlier(run));
      ScheduleStep(v, Exec(v, g, Earlier(run)), Latest(run), Accepted(v, g, Earlier(run)));
    }
  }

  /** No action but a block touches the schedule record. */
  lemma OnlyBlocksSchedule(v: Variant, s: State, step: Step)
    ensures Apply(v, s, step).sched ==
              if Recomputes(v, s, step)
              then Recompute(s, step).sched
              else s.sched
  {
    hide MoveStake, UpdateVotingPower, Transfer, Act, VoteProducer, RegProducer, Unregister, UpdateElected, Index;
  }

  lemma ScheduleStep(v: Variant, s: State, step: Step, past: seq<seq<ProducerKey>>)
    requires SizesOk(past, s.sched.lastSize)
    ensures SizesOk(
              if Recomputes(v, s, step) && Recompute(s, step).proposed != [] && 0 <= step.action.accepted
              then past + [Recompute(s, step).proposed]
              else past,
              Apply(v, s, step).sched.lastSize)
  {
    hide UpdateElected, Index, Commits, Apply;
    OnlyBlocksSchedule(v, s, step);
    if step.action.BlockAction? {
      ProposalSize(s.sched, s.votes.producers, Index(s.votes.producers), step.action.slot, step.action.accepted);
    }
  }

  /** A proposal has at most 21 producers and is no smaller than the last accepted one, and its size is
      recorded exactly when it is accepted. */
  lemma ProposalSize(sched: Sched, ps: map<Name, Producer>, idx: seq<Name>, slot: uint32, accepted: int)
    requires forall p :: p in idx ==> p in ps
    ensures var r := UpdateElected(sched, ps, idx, slot, accepted);
            && |r.proposed| <= MAX_PRODUCERS
            && (r.proposed != [] ==> sched.lastSize <= |r.proposed|)
            && r.sched.lastSize == if r.proposed != [] && 0 <= accepted then |r.proposed| else sched.lastSize
  {
    hide Scan;
    ScanPrefix(ps, idx, MAX_PRODUCERS);
  }

  // ---------------------------------------------------------------------------------------------
  // How often the schedule is recomputed

  /** The slot of the last block in a run; zero before the first. */
  function LastSlot(run: seq<Step>): uint32
    decreases |run|
  {
    if run == [] then 0
    else if Latest(run).action.BlockAction? then Latest(run).action.slot
    else LastSlot(Earlier(run))
  }

  /** Block slots never go back. */
  predicate SlotsOk(run: seq<Step>)
    decreases |run|
  {
    run == [] || (SlotsOk(Earlier(run)) && LastSlot(Earlier(run)) <= LastSlot(run))
  }

  ghost predicate Spaced(slots: seq<uint32>, last: uint32) {
    && (forall i :: 0 <= i < |slots| - 1 ==> 120 < slots[i + 1] as int - slots[i] as int)
    && (forall i :: 0 <= i < |slots| ==> 121 * (i + 1) <= slots[i])
    && last == if slots == [] then 0 else slots[|slots| - 1]
  }

  lemma SpacedAppend(slots: seq<uint32>, sched: Sched, slot: uint32)
    requires Spaced(slots, sched.lastUpdate) && sched.lastUpdate <= slot && UpdateDue(sched, slot)
    ensures Spaced(slots + [slot], slot)
  {
    assert slot - sched.lastUpdate == (slot - sched.lastUpdate) % 0x1_0000_0000;
  }

  /** Any two recomputations are more than 120 slots apart, and the record holds the last one. */
  lemma {:induction false} RecomputationsAreSpaced(v: Variant, g: State, run: seq<Step>)
    requires g.sched == Sched(0, 0) && SlotsOk(run)
    ensures Spaced(Recomputations(v, g, run), Exec(v, g, run).sched.lastUpdate)
    ensures Exec(v, g, run).sched.lastUpdate <= LastSlot(run)
    decreases |run|
  {
    hide Commits, Apply, Spaced, UpdateDue, Index, Scan;
    if run == [] {
      SpacedEmpty();
    } else {
      RecomputationsAreSpaced(v, g, Earlier(run));
      var s := Exec(v, g, Earlier(run));
      OnlyBlocksSchedule(v, s, Latest(run));
      if Recomputes(v, s, Latest(run)) {
        SpacedAppend(Recomputations(v, g, Earlier(run)), s.sched, Latest(run).action.slot);
      }
    }
  }

  /** A block goes through exactly for the system account. It recomputes the schedule exactly when more than 120
      slots have passed since the last recomputation, or since slot zero, and leaves it alone otherwise. */
  lemma RecomputationsAreTimely(v: Variant, g: State, run: seq<Step>, ctx: Context, slot: uint32, accepted: int)
    requires g.sched == Sched(0, 0) && SlotsOk(run) && LastSlot(run) <= slot
    ensures var step := Step(ctx, BlockAction(slot, accepted));
            var s, slots := Exec(v, g, run), Recomputations(v, g, run);
            var last := if slots == [] then 0 else slots[|slots| - 1];
            && (Commits(v, s, step) <==> SYSTEM in ctx.auth)
            && (Recomputes(v, s, step) <==> SYSTEM in ctx.auth && 120 < slot as int - last as int)
            && Apply(v, s, step) ==
                 s.(sched := if Recomputes(v, s, step) then Recompute(s, step).sched else s.sched)
  {
    hide Exec, Recomputations, Index, UpdateElected;
    RecomputationsAreSpaced(v, g, run);
    var s := Exec(v, g, run);
    assert slot - s.sched.lastUpdate == (slot - s.sched.lastUpdate) % 0x1_0000_0000;
  }

  lemma SpacedEmpty()
    ensures Spaced([], 0)
  {
  }

  /** So the number of recomputations is bounded by the slots that have passed. */
  lemma RecomputationsAreRare(v: Variant, g: State, run: seq<Step>)
    requires g.sched == Sched(0, 0) && SlotsOk(run)
    ensures 121 * |Recomputations(v, g, run)| <= LastSlot(run)
  {
    hide Exec, Recomputations;
    RecomputationsAreSpaced(v, g, run);
  }
}
