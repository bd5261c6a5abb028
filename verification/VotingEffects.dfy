/** Each action on votes: exactly when it goes through, and what it leaves of every row. */
module VotingEffects {
  import opened Base
  import opened Voting
  import opened VotingInvariant

  /** What a producer's tallies gain when a voter of some type moves from one stake and list to another. */
  function Gain(p: Name, before: Voter, after: Voter): int {
    (if p in after.producers then after.staked else 0) - (if p in before.producers then before.staked else 0)
  }

  /** Every producer's tally of the account's type gained what the account moved, the other tally stayed, and
      nothing else of the rows changed but weights. */
  ghost predicate Regained(v: Votes, v': Votes, account: Name) {
    && v'.producers.Keys == v.producers.Keys
    && forall p :: p in v.producers ==>
         Took(v, account, v.producers[p], v'.producers[p], Gain(p, VoterOf(v, account), VoterOf(v', account)))
  }

  predicate Took(v: Votes, account: Name, p: Producer, q: Producer, gain: int) {
    && SameProfile(p, q)
    && q.company == Wrap64(p.company + if KindIs(v, account, COMPANY) then gain else 0)
    && q.government == Wrap64(p.government + if KindIs(v, account, GOVERNMENT) then gain else 0)
  }

  predicate KindIs(v: Votes, account: Name, kind: Name) {
    account in v.types && v.types[account] == kind
  }

  /** One voter's row is replaced and no other. */
  ghost predicate OneRow(v: Votes, v': Votes, account: Name, row: Voter) {
    && account in v'.voters && v'.voters[account] == row
    && v'.voters.Keys == v.voters.Keys + {account}
    && (forall f :: f in v.voters && f != account ==> v'.voters[f] == v.voters[f])
    && v'.types == v.types && v'.weights == v.weights
  }

  lemma RevoteRegains(v: Votes, account: Name, row: Voter, voting: bool)
    requires VotesInv(v) && StrictlySorted(row.producers) && (row.producers != [] ==> account in v.types)
    ensures var r := Revote(v, account, row, voting);
            r.Ok? ==> Regained(v, v.(voters := v.voters[account := row], producers := r.value), account)
  {
    hide UpdateProducersVotes, StrictlySorted, Wrap64, Weigh, TalliesOk, ProducersOk;
    OldRowOk(v, account);
    var r := Revote(v, account, row, voting);
    if r.Ok? {
      RevoteKeys(v, account, row, voting);
      forall p | p in v.producers
        ensures Took(v, account, v.producers[p], r.value[p], Gain(p, VoterOf(v, account), row))
      {
        OneRegains(v, account, row, voting, p);
      }
    }
  }

  lemma OneRegains(v: Votes, account: Name, row: Voter, voting: bool, p: Name)
    requires RollOk(v) && StrictlySorted(row.producers) && p in v.producers
    requires row.producers != [] ==> account in v.types
    requires Revote(v, account, row, voting).Ok?
    ensures var producers := Revote(v, account, row, voting).value;
            p in producers && Took(v, account, v.producers[p], producers[p], Gain(p, VoterOf(v, account), row))
  {
    hide UpdateProducersVotes, StrictlySorted, Weigh;
    OldRowOk(v, account);
    var before := VoterOf(v, account);
    if account in v.types {
      UpdateEffect(v.producers, v.weights, v.types[account], voting,
                   before.producers, before.staked, row.producers, row.staked, p);
    }
  }

  /** A vote goes through exactly when the voter signs, names at most thirty producers in strictly increasing
      order, has staked and has a type; and, with stake behind it, when every producer on the new list and on the
      old one is registered and active. Afterwards the list is the one voted for, stakes are as before, and each
      tally of the voter's type has moved by the stake for a producer that entered or left the list. */
  lemma VoteEffect(v: Votes, ctx: Context, voter: Name, names: seq<Name>)
    requires VotesInv(v)
    ensures var r := VoteProducer(v, ctx, voter, names);
            var row := VoterOf(v, voter);
            && (r.Ok? <==>
                 && voter in ctx.auth && |names| <= 30 && StrictlySorted(names)
                 && voter in v.voters && voter in v.types
                 && (row.staked != 0 ==>
                      && Accepts(v.producers, row.producers, true)
                      && Accepts(v.producers, names, true)))
            && (r.Ok? ==> OneRow(v, r.value, voter, Voter(names, row.staked)) && Regained(v, r.value, voter))
  {
    hide UpdateProducersVotes, StrictlySorted, TalliesOk, ProducersOk, Accepts, Regained;
    OldRowOk(v, voter);
    var row := VoterOf(v, voter);
    if voter in v.voters && voter in v.types && StrictlySorted(names) {
      UpdateSucceeds(v.producers, v.weights, v.types[voter], true, row.producers, row.staked, names, row.staked);
      RevoteRegains(v, voter, row.(producers := names), true);
    }
  }

  /** The old list matters too: a voter with stake whose list holds a producer that has since been deactivated
      cannot vote at all, not even to remove it. */
  lemma DeactivatedProducerBlocksVote(v: Votes, ctx: Context, voter: Name, names: seq<Name>, p: Name)
    requires VotesInv(v) && p in v.producers && !v.producers[p].active
    requires p in VoterOf(v, voter).producers && VoterOf(v, voter).staked != 0
    ensures VoteProducer(v, ctx, voter, names).Abort?
  {
    hide VoteProducer, VotesInv;
    VoteEffect(v, ctx, voter, names);
  }

  /** A change of stake goes through exactly when the exact stake is neither negative nor beyond 64 bits and every
      producer on the list has a row, active or not. It moves the account's stake and the tallies behind it. */
  lemma PowerEffect(v: Votes, account: Name, delta: int64)
    requires VotesInv(v) && delta != 0
    ensures var r := UpdateVotingPower(v, account, delta);
            var row := VoterOf(v, account);
            && (r.Ok? <==>
                 && 0 <= row.staked + delta < TWO63
                 && Accepts(v.producers, row.producers, false))
            && (r.Ok? ==>
                 && OneRow(v, r.value, account, Voter(row.producers, row.staked + delta))
                 && Regained(v, r.value, account))
  {
    hide UpdateProducersVotes, StrictlySorted, TalliesOk, ProducersOk, Regained, Wrap64;
    OldRowOk(v, account);
    var row := VoterOf(v, account);
    var staked := Wrap64(row.staked + delta);
    StakeFits(row.staked, delta);
    if account in v.types {
      UpdateSucceeds(v.producers, v.weights, v.types[account], false, row.producers, row.staked, row.producers, staked);
    }
    if 0 <= staked {
      RevoteRegains(v, account, row.(staked := staked), false);
      if account in v.types {
        ListErrors(v.producers, v.weights, v.types[account], false, row.producers, row.staked, staked);
      }
    }
  }

  /** One producer's row is replaced and no other; voters, types and weights stay. */
  ghost predicate OneProducer(v: Votes, v': Votes, producer: Name, row: Producer) {
    && producer in v'.producers && v'.producers[producer] == row
    && v'.producers.Keys == v.producers.Keys + {producer}
    && (forall p :: p in v.producers && p != producer ==> v'.producers[p] == v.producers[p])
    && v'.voters == v.voters && v'.types == v.types && v'.weights == v.weights
  }

  /** Registering goes through exactly for a short url, a key that is not the default and the producer's own
      signature. The producer is then active under that key, with its votes as they were, or none if it is new. */
  lemma RegisterEffect(v: Votes, ctx: Context, producer: Name, key: nat, url: string, location: nat)
    ensures var r := RegProducer(v, ctx, producer, key, url, location);
            && (r.Ok? <==> |url| < 512 && key != DEFAULT_KEY && producer in ctx.auth)
            && (r.Ok? ==>
                 var row := r.value.producers[producer];
                 && OneProducer(v, r.value, producer, row)
                 && row.active && row.key == key && row.url == url && row.location == location
                 && if producer in v.producers then
                      var old' := v.producers[producer];
                      && (row.company, row.government, row.weight) == (old'.company, old'.government, old'.weight)
                      && row.lastClaim == if old'.lastClaim == 0 then ctx.now else old'.lastClaim
                    else row.company == row.government == row.weight == 0 && row.lastClaim == ctx.now)
  {
  }

  /** Deactivating goes through exactly with the signature asked for, on a row that exists. The producer is then
      inactive under the default key, with its votes as they were. */
  lemma UnregisterEffect(v: Votes, ctx: Context, signer: Name, producer: Name)
    ensures var r := Unregister(v, ctx, signer, producer);
            && (r.Ok? <==> signer in ctx.auth && producer in v.producers)
            && (r.Ok? ==>
                 var row, old' := r.value.producers[producer], v.producers[producer];
                 && OneProducer(v, r.value, producer, row)
                 && !row.active && row.key == DEFAULT_KEY
                 && (row.company, row.government, row.weight) == (old'.company, old'.government, old'.weight)
                 && (row.url, row.location, row.lastClaim) == (old'.url, old'.location, old'.lastClaim))
  {
  }

  /** Setting the weights goes through exactly for the system account and two values between 100 and 1000. */
  lemma SetVWeightEffect(v: Votes, ctx: Context, company: nat, government: nat)
    ensures var r := SetVWeight(v, ctx, company, government);
            && (r.Ok? <==> SYSTEM in ctx.auth && 100 <= company <= 1000 && 100 <= government <= 1000)
            && (r.Ok? ==>
                 && r.value.weights.company == company && r.value.weights.government == government
                 && (r.value.voters, r.value.types, r.value.producers) == (v.voters, v.types, v.producers))
  {
  }

  /** Setting a type goes through exactly for the administrator, for an existing account without a type, and for
      one of the two types. */
  lemma SetAcntTypeEffect(v: Votes, ctx: Context, account: Name, kind: Name)
    ensures var r := SetAcntType(v, ctx, account, kind);
            && (r.Ok? <==>
                 ADMIN in ctx.auth && account in ctx.accounts && account !in v.types && kind in {COMPANY, GOVERNMENT})
            && (r.Ok? ==>
                 && KindIs(r.value, account, kind) && r.value.types.Keys == v.types.Keys + {account}
                 && (forall f :: f in v.types ==> r.value.types[f] == v.types[f])
                 && (r.value.voters, r.value.producers, r.value.weights) == (v.voters, v.producers, v.weights))
  {
  }
}
