/** Voters, producers and the tallies that are kept up to date by adding and subtracting stakes. */
module Voting {
  import opened Base
  import opened Doubles
  import opened Sums

  datatype Voter = Voter(producers: seq<Name>, staked: int64)

  /** `weight` is the producer's total_vote_weight, a double with an integer value. A key of zero is the
      default public key, and a claim time of zero stands for none. */
  datatype Producer = Producer(company: int64, government: int64, weight: int, key: nat, active: bool,
                               url: string, location: nat, lastClaim: nat)

  datatype Weights = Weights(company: int, government: int)

  datatype Votes = Votes(
    voters: map<Name, Voter>,
    types: map<Name, Name>,
    producers: map<Name, Producer>,
    weights: Weights)

  const DEFAULT_KEY: nat := 0

  /** A producer's url is shorter than this, in bytes. */
  const MAX_URL: nat := 512

  // ---------------------------------------------------------------------------------------------
  // The actions

  /** The weighted sum in 64-bit arithmetic: both products and their sum may wrap. */
  function WeightedSum(company: int, government: int, w: Weights): int64 {
    Wrap64(Wrap64(government * w.government) + Wrap64(company * w.company))
  }

  /** The weight as it is stored: the sum converted to a double. */
  function Weigh(company: int, government: int, w: Weights): int {
    ToDouble(WeightedSum(company, government, w))
  }

  /** One producer row after one pass of a vote loop. */
  function Touch(p: Producer, isCompany: bool, delta: int, w: Weights): Producer {
    var company := if isCompany then Wrap64(p.company + delta) else p.company;
    var government := if isCompany then p.government else Wrap64(p.government + delta);
    p.(company := company, government := government, weight := Weigh(company, government, w))
  }

  /** A vote loop: adds `delta` to every listed producer, in list order. */
  function AddVotes(producers: map<Name, Producer>, names: seq<Name>, isCompany: bool, delta: int, w: Weights,
        voting: bool):
    Result<map<Name, Producer>>
    decreases |names|
  {
    if names == [] then Ok(producers)
    else if names[0] !in producers then Abort(RowMissing)
    else if voting && !producers[names[0]].active then Abort(NotRegistered)
    else
      var touched := Touch(producers[names[0]], isCompany, delta, w);
      AddVotes(producers[names[0] := touched], names[1..], isCompany, delta, w, voting)
  }

  function UpdateProducersVotes(producers: map<Name, Producer>, w: Weights, kind: Name, voting: bool,
                                oldNames: seq<Name>, oldStaked: int, newNames: seq<Name>, newStaked: int):
    Result<map<Name, Producer>>
  {
    var withdrawn :-
      if oldStaked != 0 then AddVotes(producers, oldNames, kind == COMPANY, -oldStaked, w, voting) else Ok(producers);
    if newStaked != 0 then AddVotes(withdrawn, newNames, kind == COMPANY, newStaked, w, voting) else Ok(withdrawn)
  }

  predicate StrictlySorted(names: seq<Name>) {
    forall i, j :: 0 <= i < j < |names| ==> names[i] < names[j]
  }

  function VoteProducer(v: Votes, ctx: Context, voter: Name, names: seq<Name>): Result<Votes> {
    var maximum := 30;
    :- Check(voter in ctx.auth, MissingAuth);
    :- Check(|names| <= maximum, TooManyProducers);
    :- Check(StrictlySorted(names), UnsortedProducers);
    :- Check(voter in v.voters, NoStake);
    :- Check(voter in v.types, NoAccountType);
    var row := v.voters[voter];
    var producers :- UpdateProducersVotes(v.producers, v.weights, v.types[voter], true, row.producers, row.staked,
      names, row.staked);
    Ok(v.(voters := v.voters[voter := row.(producers := names)], producers := producers))
  }

  /** The stake and the list recorded for an account; a missing row counts as nothing staked. */
  function VoterOf(v: Votes, account: Name): Voter {
    if account in v.voters then v.voters[account] else Voter([], 0)
  }

  function UpdateVotingPower(v: Votes, account: Name, delta: int64): Result<Votes> {
    var row := VoterOf(v, account);
    var staked := Wrap64(row.staked + delta);
    :- Check(0 <= staked, NegativeStake);
    var producers :-
      if row.producers != [] && account in v.types then
        UpdateProducersVotes(v.producers, v.weights, v.types[account], false, row.producers, row.staked,
          row.producers, staked)
      else Ok(v.producers);
    Ok(v.(voters := v.voters[account := row.(staked := staked)], producers := producers))
  }

  function RegProducer(v: Votes, ctx: Context, producer: Name, key: nat, url: string, location: nat): Result<Votes> {
    var blank := Producer(0, 0, 0, key, true, url, location, 0);
    :- Check(|url| < MAX_URL, UrlTooLong);
    :- Check(key != DEFAULT_KEY, DefaultKey);
    :- Check(producer in ctx.auth, MissingAuth);
    var found := if producer in v.producers then v.producers[producer] else blank;
    var claim := if found.lastClaim == 0 then ctx.now else found.lastClaim;
    Ok(v.(producers := v.producers[producer :=
      found.(key := key, active := true, url := url, location := location, lastClaim := claim)]))
  }

  function Deactivate(p: Producer): Producer {
    p.(key := DEFAULT_KEY, active := false)
  }

  /** `unregprod` asks for the producer's signature, `rmvproducer` for the system account's. */
  function Unregister(v: Votes, ctx: Context, signer: Name, producer: Name): Result<Votes> {
    var signed := signer in ctx.auth;
    :- Check(signed, MissingAuth);
    :- Check(producer in v.producers, RowMissing);
    Ok(v.(producers := v.producers[producer := Deactivate(v.producers[producer])]))
  }

  predicate WeightsOk(w: Weights) {
    100 <= w.company <= 1000 && 100 <= w.government <= 1000
  }

  function SetVWeight(v: Votes, ctx: Context, company: nat, government: nat): Result<Votes> {
    var w := Weights(company, government);
    :- Check(SYSTEM in ctx.auth, MissingAuth);
    :- Check(WeightsOk(w), WeightRange);
    Ok(v.(weights := w))
  }

  function SetAcntType(v: Votes, ctx: Context, account: Name, kind: Name): Result<Votes> {
    var known := kind == COMPANY || kind == GOVERNMENT;
    :- Check(ADMIN in ctx.auth, MissingAuth);
    :- Check(account in ctx.accounts, NoSuchAccount);
    :- Check(account !in v.types, TypeAlreadySet);
    :- Check(known, UnknownType);
    Ok(v.(types := v.types[account := kind]))
  }

  // ---------------------------------------------------------------------------------------------
  // The recount

  /** What one voter contributes to one of a producer's two tallies. */
  function Share(v: Voter, account: Name, types: map<Name, Name>, p: Name, isCompany: bool): int {
    if p in v.producers && account in types && (types[account] == COMPANY) == isCompany then v.staked else 0
  }

  function Shares(voters: map<Name, Voter>, types: map<Name, Name>, p: Name, isCompany: bool): map<Name, int> {
    map f | f in voters :: Share(voters[f], f, types, p, isCompany)
  }

  /** The tally a full recount over all voters would give. */
  ghost function Recount(voters: map<Name, Voter>, types: map<Name, Name>, p: Name, isCompany: bool): int {
    Sum(Shares(voters, types, p, isCompany))
  }

  function Stakes(voters: map<Name, Voter>): map<Name, int> {
    map f | f in voters :: voters[f].staked
  }

  /** One voter's row replaced: the recount moves by the difference of that voter's contributions. */
  lemma RecountPut(voters: map<Name, Voter>, types: map<Name, Name>, account: Name, row: Voter, p: Name,
        isCompany: bool)
    ensures Recount(voters[account := row], types, p, isCompany)
         == Recount(voters, types, p, isCompany)
            - (if account in voters then Share(voters[account], account, types, p, isCompany) else 0)
            + Share(row, account, types, p, isCompany)
  {
    var shares := Shares(voters, types, p, isCompany);
    assert Shares(voters[account := row], types, p, isCompany)
      == shares[account := Share(row, account, types, p, isCompany)];
    SumPut(shares, account, Share(row, account, types, p, isCompany));
  }

  /** Company and government votes for one producer never exceed what all voters stake together. */
  lemma RecountBound(voters: map<Name, Voter>, types: map<Name, Name>, p: Name)
    requires forall f :: f in voters ==> 0 <= voters[f].staked
    ensures 0 <= Recount(voters, types, p, true) && 0 <= Recount(voters, types, p, false)
    ensures Recount(voters, types, p, true) + Recount(voters, types, p, false) <= Sum(Stakes(voters))
  {
    SumPairBound(Shares(voters, types, p, true), Shares(voters, types, p, false), Stakes(voters));
    SumAtLeast(Shares(voters, types, p, true), p);
    SumAtLeast(Shares(voters, types, p, false), p);
  }

  // ---------------------------------------------------------------------------------------------
  // What the vote loops do

  predicate Distinct(names: seq<Name>) {
    forall i, j :: 0 <= i < j < |names| ==> names[i] != names[j]
  }

  /** Over a list without repetitions a vote loop succeeds exactly when every listed producer has a row
      (and is active, when voting), and it touches every listed producer once and nobody else. */
  lemma {:induction false} AddVotesEffect(producers: map<Name, Producer>, names: seq<Name>, isCompany: bool,
        delta: int, w: Weights, voting: bool)
    requires Distinct(names)
    ensures var r := AddVotes(producers, names, isCompany, delta, w, voting);
            && (r.Ok? <==> forall p :: p in names ==> p in producers && (voting ==> producers[p].active))
            && (r.Ok? ==>
                 r.value == map p | p in producers ::
                   if p in names then Touch(producers[p], isCompany, delta, w) else producers[p])
    decreases |names|
  {
    hide Touch;
    if names != [] && names[0] in producers && (voting ==> producers[names[0]].active) {
      var rest := names[1..];
      assert names == [names[0]] + rest;
      var touched := producers[names[0] := Touch(producers[names[0]], isCompany, delta, w)];
      AddVotesEffect(touched, rest, isCompany, delta, w, voting);
    }
  }
}
