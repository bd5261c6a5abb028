/** The tallies kept by delta loops always equal a recount over all voters. */
module VotingInvariant {
  import opened Base
  import opened Doubles
  import opened Sums
  import opened Voting

  /** One voter's row: a stake is never negative, a list is strictly sorted, a list implies an account
      type, and a list with stake behind it names only registered producers. */
  ghost predicate VoterOk(v: Votes, account: Name, row: Voter) {
    && 0 <= row.staked
    && StrictlySorted(row.producers)
    && (row.producers != [] ==> account in v.types)
    && (row.staked != 0 ==> forall p :: p in row.producers ==> p in v.producers)
  }

  ghost predicate RollOk(v: Votes) {
    && WeightsOk(v.weights)
    && (forall f :: f in v.types ==> v.types[f] == COMPANY || v.types[f] == GOVERNMENT)
    && forall f :: f in v.voters ==> VoterOk(v, f, v.voters[f])
  }

  ghost predicate Tallied(v: Votes, p: Name)
    requires p in v.producers
  {
    && v.producers[p].company == Wrap64(Recount(v.voters, v.types, p, true))
    && v.producers[p].government == Wrap64(Recount(v.voters, v.types, p, false))
  }

  ghost predicate TalliesOk(v: Votes) {
    forall p :: p in v.producers ==> Tallied(v, p)
  }

  /** The weight is the votes weighted by some pair that was once in force. */
  ghost predicate Weighed(p: Producer) {
    exists w :: WeightsOk(w) && p.weight == Weigh(p.company, p.government, w)
  }

  ghost predicate ProducersOk(v: Votes) {
    forall p :: p in v.producers ==>
      && Weighed(v.producers[p])
      && (v.producers[p].active ==> v.producers[p].key != DEFAULT_KEY)
  }

  ghost predicate VotesInv(v: Votes) {
    RollOk(v) && TalliesOk(v) && ProducersOk(v)
  }

  lemma SortedIsDistinct(names: seq<Name>)
    requires StrictlySorted(names)
    ensures Distinct(names)
  {
  }

  /** A strictly sorted list behind a stake: what both loops together leave in one row. */
  function Shifted(p: Producer, isCompany: bool, out: int, into: int): (int64, int64) {
    if isCompany then (Wrap64(p.company - out + into), p.government)
    else (p.company, Wrap64(p.government - out + into))
  }

  /** One of the two loops, with its guard on the stake. */
  function GuardedLoop(producers: map<Name, Producer>, names: seq<Name>, isCompany: bool, delta: int,
        w: Weights, voting: bool):
    Result<map<Name, Producer>>
  {
    if delta != 0 then AddVotes(producers, names, isCompany, delta, w, voting) else Ok(producers)
  }

  lemma PassEffect(producers: map<Name, Producer>, names: seq<Name>, isCompany: bool, delta: int, w: Weights,
        voting: bool)
    requires StrictlySorted(names)
    ensures var r := GuardedLoop(producers, names, isCompany, delta, w, voting);
            && (r.Ok? <==>
                 (delta != 0 ==> forall q :: q in names ==> q in producers && (voting ==> producers[q].active)))
            && (r.Ok? ==> r.value.Keys == producers.Keys)
            && (r.Ok? ==> forall p :: p in producers ==>
                 r.value[p] ==
                   if p in names && delta != 0 then Touch(producers[p], isCompany, delta, w) else producers[p])
  {
    SortedIsDistinct(names);
    AddVotesEffect(producers, names, isCompany, delta, w, voting);
  }

  /** A row after a pass that takes it by `delta`, where zero stands for not being reached. */
  function Reached(p: Producer, isCompany: bool, delta: int, w: Weights): Producer {
    if delta != 0 then Touch(p, isCompany, delta, w) else p
  }

  /** Two rows of one producer that may differ in tallies and weight only. */
  predicate SameProfile(p: Producer, q: Producer) {
    q == p.(company := q.company, government := q.government, weight := q.weight)
  }

  /** Two passes leave one combined change in one tally, and a weight computed from the final tallies. */
  lemma TwoPasses(p: Producer, isCompany: bool, out: int, into: int, w: Weights)
    ensures var q := Reached(Reached(p, isCompany, -out, w), isCompany, into, w);
            && (q.company, q.government) == Shifted(p, isCompany, out, into)
            && SameProfile(p, q)
            && q.weight == if out != 0 || into != 0 then Weigh(q.company, q.government, w) else p.weight
  {
    hide Wrap64, Weigh;
    WrapAbsorbs((if isCompany then p.company else p.government) - out, into);
  }

  /** The two loops of a vote update together: who is touched, and by how much in total. */
  lemma UpdateEffect(producers: map<Name, Producer>, w: Weights, kind: Name, voting: bool,
                     oldNames: seq<Name>, oldStaked: int, newNames: seq<Name>, newStaked: int, p: Name)
    requires StrictlySorted(oldNames) && StrictlySorted(newNames)
    requires p in producers
    ensures var r := UpdateProducersVotes(producers, w, kind, voting, oldNames, oldStaked, newNames, newStaked);
            r.Ok? ==>
              var out := if p in oldNames then oldStaked else 0;
              var into := if p in newNames then newStaked else 0;
              && p in r.value
              && (r.value[p].company, r.value[p].government) == Shifted(producers[p], kind == COMPANY, out, into)
              && SameProfile(producers[p], r.value[p])
              && r.value[p].weight ==
                   if out != 0 || into != 0 then Weigh(r.value[p].company, r.value[p].government, w)
                   else producers[p].weight
  {
    hide Touch, Shifted, Weigh, AddVotes, StrictlySorted;
    var isCompany := kind == COMPANY;
    PassEffect(producers, oldNames, isCompany, -oldStaked, w, voting);
    var withdrawn := GuardedLoop(producers, oldNames, isCompany, -oldStaked, w, voting);
    if withdrawn.Ok? {
      PassEffect(withdrawn.value, newNames, isCompany, newStaked, w, voting);
      var out := if p in oldNames then oldStaked else 0;
      var into := if p in newNames then newStaked else 0;
      TwoPasses(producers[p], isCompany, out, into, w);
    }
  }

  /** Both loops for one voter who moves to a new row. Without an account type there is no list to run over. */
  function Revote(v: Votes, account: Name, row: Voter, voting: bool): Result<map<Name, Producer>> {
    var before := VoterOf(v, account);
    if account !in v.types then Ok(v.producers)
    else UpdateProducersVotes(v.producers, v.weights, v.types[account], voting,
                              before.producers, before.staked, row.producers, row.staked)
  }

  /** Every listed producer has a row, and is active when voting. */
  predicate Accepts(producers: map<Name, Producer>, names: seq<Name>, voting: bool) {
    forall p :: p in names ==> p in producers && (voting ==> producers[p].active)
  }

  /** The two loops succeed exactly when both lists are acceptable, where a loop without stake asks nothing. */
  lemma UpdateSucceeds(producers: map<Name, Producer>, w: Weights, kind: Name, voting: bool,
                       oldNames: seq<Name>, oldStaked: int, newNames: seq<Name>, newStaked: int)
    requires StrictlySorted(oldNames) && StrictlySorted(newNames)
    ensures var r := UpdateProducersVotes(producers, w, kind, voting, oldNames, oldStaked, newNames, newStaked);
            && (r.Ok? <==>
                 && (oldStaked != 0 ==> Accepts(producers, oldNames, voting))
                 && (newStaked != 0 ==> Accepts(producers, newNames, voting)))
            && (r.Ok? ==> r.value.Keys == producers.Keys)
  {
    hide AddVotes, StrictlySorted, Weigh, Wrap64;
    var isCompany := kind == COMPANY;
    PassEffect(producers, oldNames, isCompany, -oldStaked, w, voting);
    var withdrawn := GuardedLoop(producers, oldNames, isCompany, -oldStaked, w, voting);
    if withdrawn.Ok? { PassEffect(withdrawn.value, newNames, isCompany, newStaked, w, voting); }
  }

  /** One voter moving from one stake and list to another, with both loops run: the roll, the tallies and
      the weights stay right. This is the step behind both voting and staking. */
  lemma RevoteKeepsInv(v: Votes, account: Name, row: Voter, voting: bool)
    requires VotesInv(v)
    requires 0 <= row.staked && StrictlySorted(row.producers) && (row.producers != [] ==> account in v.types)
    ensures var r := Revote(v, account, row, voting);
            r.Ok? ==>
              && r.value.Keys == v.producers.Keys
              && VotesInv(v.(voters := v.voters[account := row], producers := r.value))
  {
    hide Recount, Revote, Weighed, Share;
    var r := Revote(v, account, row, voting);
    if r.Ok? {
      var v' := v.(voters := v.voters[account := row], producers := r.value);
      RevoteKeys(v, account, row, voting);
      forall p | p in v'.producers
        ensures Tallied(v', p) && Weighed(v'.producers[p])
            && (v'.producers[p].active ==> v'.producers[p].key != DEFAULT_KEY)
      {
        RevoteOne(v, account, row, voting, p);
      }
    }
  }

  lemma RevoteKeys(v: Votes, account: Name, row: Voter, voting: bool)
    requires RollOk(v) && StrictlySorted(row.producers) && (row.producers != [] ==> account in v.types)
    ensures var r := Revote(v, account, row, voting);
            r.Ok? ==>
              && r.value.Keys == v.producers.Keys
              && (row.staked != 0 ==> forall q :: q in row.producers ==> q in v.producers)
  {
    hide Weigh, AddVotes, StrictlySorted;
    if account in v.types {
      OldRowOk(v, account);
      var before := VoterOf(v, account);
      var isCompany := v.types[account] == COMPANY;
      PassEffect(v.producers, before.producers, isCompany, -before.staked, v.weights, voting);
      var withdrawn := GuardedLoop(v.producers, before.producers, isCompany, -before.staked, v.weights, voting);
      if withdrawn.Ok? {
        PassEffect(withdrawn.value, row.producers, isCompany, row.staked, v.weights, voting);
      }
    }
  }

  lemma OldRowOk(v: Votes, account: Name)
    requires RollOk(v)
    ensures VoterOk(v, account, VoterOf(v, account))
  {
  }

  lemma RevoteOne(v: Votes, account: Name, row: Voter, voting: bool, p: Name)
    requires VotesInv(v) && p in v.producers
    requires Revote(v, account, row, voting).Ok? && p in Revote(v, account, row, voting).value
    requires 0 <= row.staked && StrictlySorted(row.producers) && (row.producers != [] ==> account in v.types)
    ensures var producers := Revote(v, account, row, voting).value;
            && Tallied(v.(voters := v.voters[account := row], producers := producers), p)
            && Weighed(producers[p]) && (producers[p].active ==> producers[p].key != DEFAULT_KEY)
  {
    hide Recount, UpdateProducersVotes, Weigh, StrictlySorted, Wrap64;
    var before := VoterOf(v, account);
    RecountPut(v.voters, v.types, account, row, p, true);
    RecountPut(v.voters, v.types, account, row, p, false);
    if account in v.types {
      OldRowOk(v, account);
      UpdateEffect(v.producers, v.weights, v.types[account], voting, before.producers, before.staked, row.producers,
        row.staked, p);
      var out := if p in before.producers then before.staked else 0;
      var into := if p in row.producers then row.staked else 0;
      WrapAbsorbs(Recount(v.voters, v.types, p, true), into - out);
      WrapAbsorbs(Recount(v.voters, v.types, p, false), into - out);
    }
  }

  // ---------------------------------------------------------------------------------------------
  // Every action keeps the invariant

  /** Voting changes no stake, and leaves every tally equal to the recount. */
  lemma VoteProducerKeeps(v: Votes, ctx: Context, voter: Name, names: seq<Name>)
    requires VotesInv(v)
    ensures var r := VoteProducer(v, ctx, voter, names);
            r.Ok? ==> VotesInv(r.value) && Stakes(r.value.voters) == Stakes(v.voters)
  {
    hide UpdateProducersVotes, TalliesOk, ProducersOk;
    if VoteProducer(v, ctx, voter, names).Ok? {
      var row := v.voters[voter];
      RevoteKeepsInv(v, voter, row.(producers := names), true);
    }
  }

  /** Staking moves the voter's stake by exactly the delta, and aborts on the stake exactly when the exact
      result is negative or does not fit in 64 bits. */
  lemma UpdateVotingPowerKeeps(v: Votes, account: Name, delta: int64)
    requires VotesInv(v)
    ensures var r := UpdateVotingPower(v, account, delta);
            var exact := VoterOf(v, account).staked + delta;
            && (r == Abort(NegativeStake) <==> !(0 <= exact < TWO63))
            && (r.Abort? ==> r.error in {NegativeStake, RowMissing, NotRegistered})
            && (r.Ok? ==> VotesInv(r.value) && Stakes(r.value.voters) == Stakes(v.voters)[account := exact])
  {
    hide UpdateProducersVotes, VotesInv, StrictlySorted, Wrap64;
    var row := VoterOf(v, account);
    OldRowSound(v, account);
    var staked := Wrap64(row.staked + delta);
    StakeFits(row.staked, delta);
    if 0 <= staked {
      if account in v.types {
        ListErrors(v.producers, v.weights, v.types[account], false, row.producers, row.staked, staked);
      }
      RevoteKeepsInv(v, account, row.(staked := staked), false);
    }
  }

  lemma OldRowSound(v: Votes, account: Name)
    requires VotesInv(v)
    ensures var row := VoterOf(v, account);
            0 <= row.staked && StrictlySorted(row.producers) && (row.producers != [] ==> account in v.types)
  {
    OldRowOk(v, account);
  }

  /** A non-negative stake and a 64-bit delta: the register shows the exact stake, or a negative one. */
  lemma StakeFits(staked: int64, delta: int64)
    requires 0 <= staked
    ensures Wrap64(staked + delta) < 0 <==> !(0 <= staked + delta < TWO63)
    ensures 0 <= Wrap64(staked + delta) ==> Wrap64(staked + delta) == staked + delta
  {
  }

  /** With an empty list the loops have nothing to do, and they abort only for a producer's row. */
  lemma ListErrors(producers: map<Name, Producer>, w: Weights, kind: Name, voting: bool, names: seq<Name>,
        before: int, after: int)
    ensures var r := UpdateProducersVotes(producers, w, kind, voting, names, before, names, after);
            && (names == [] ==> r == Ok(producers))
            && (r.Abort? ==> r.error in {RowMissing, NotRegistered})
  {
    hide Touch;
    LoopErrors(producers, names, kind == COMPANY, -before, w, voting);
    var r := GuardedLoop(producers, names, kind == COMPANY, -before, w, voting);
    if r.Ok? { LoopErrors(r.value, names, kind == COMPANY, after, w, voting); }
  }

  lemma {:induction false} LoopErrors(producers: map<Name, Producer>, names: seq<Name>, isCompany: bool,
        delta: int, w: Weights, voting: bool)
    ensures var r := AddVotes(producers, names, isCompany, delta, w, voting);
            r.Abort? ==> r.error == RowMissing || r.error == NotRegistered
    decreases |names|
  {
    if names != [] && names[0] in producers {
      var touched := Touch(producers[names[0]], isCompany, delta, w);
      LoopErrors(producers[names[0] := touched], names[1..], isCompany, delta, w, voting);
    }
  }

  /** A new producer starts at zero votes, and that is what the recount gives: only voters without stake
      can have listed a name that had no row. */
  lemma UnknownProducerHasNoVotes(v: Votes, p: Name)
    requires RollOk(v) && p !in v.producers
    ensures Recount(v.voters, v.types, p, true) == 0 && Recount(v.voters, v.types, p, false) == 0
  {
    SumZero(Shares(v.voters, v.types, p, true));
    SumZero(Shares(v.voters, v.types, p, false));
  }

  lemma RegProducerKeeps(v: Votes, ctx: Context, producer: Name, key: nat, url: string, location: nat)
    requires VotesInv(v)
    ensures var r := RegProducer(v, ctx, producer, key, url, location);
            r.Ok? ==> VotesInv(r.value) && r.value.voters == v.voters
  {
    hide Recount, Weigh, StrictlySorted;
    if producer !in v.producers {
      UnknownProducerHasNoVotes(v, producer);
    }
    ZeroWeighs(v.weights);
  }

  lemma ZeroWeighs(w: Weights)
    ensures Weigh(0, 0, w) == 0
  {
    ToDoubleExact(0);
  }

  /** An account without a type has an empty list, so giving it a type moves no tally. */
  lemma NewTypeMovesNoTally(v: Votes, account: Name, kind: Name, p: Name, isCompany: bool)
    requires RollOk(v) && account !in v.types
    ensures Recount(v.voters, v.types[account := kind], p, isCompany) == Recount(v.voters, v.types, p, isCompany)
  {
    hide StrictlySorted;
    assert Shares(v.voters, v.types[account := kind], p, isCompany) == Shares(v.voters, v.types, p, isCompany);
  }

  lemma SetAcntTypeKeeps(v: Votes, ctx: Context, account: Name, kind: Name)
    requires VotesInv(v)
    ensures var r := SetAcntType(v, ctx, account, kind);
            r.Ok? ==> VotesInv(r.value) && r.value.voters == v.voters
  {
    hide Recount, Weighed, StrictlySorted;
    var r := SetAcntType(v, ctx, account, kind);
    if r.Ok? {
      forall p | p in v.producers ensures Tallied(r.value, p) {
        NewTypeMovesNoTally(v, account, kind, p, true);
        NewTypeMovesNoTally(v, account, kind, p, false);
      }
    }
  }

  lemma UnregisterKeeps(v: Votes, ctx: Context, signer: Name, producer: Name)
    requires VotesInv(v)
    ensures var r := Unregister(v, ctx, signer, producer);
            r.Ok? ==> VotesInv(r.value) && r.value.voters == v.voters
  {
    hide Recount, Weigh, StrictlySorted;
  }

  lemma SetVWeightKeeps(v: Votes, ctx: Context, company: nat, government: nat)
    requires VotesInv(v)
    ensures var r := SetVWeight(v, ctx, company, government);
            r.Ok? ==> VotesInv(r.value) && r.value.voters == v.voters
  {
    hide Recount, Weigh, StrictlySorted;
  }
}
