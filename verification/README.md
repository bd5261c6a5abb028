# Verified model of the EBOS contracts

This project models three contracts that share one chain-level ledger, and a fourth that stands alone:

- **eosio.token**: tokens, supplies and balances;
- **eosio.system**: delegated stake, per-account totals, pending refunds with their scheduled transactions, votes and
  producer tallies, and the election of block producers. It moves tokens through eosio.token;
- **eosio.msig**: proposals, approvals in two table formats, and invalidations.

Every action is one atomic step. A check that fires aborts the step and leaves every table as it was.

## How it is laid out

Each contract appears twice. Pure functions on table values say what an action produces (`TokenLedger`, `Staking`,
`Voting`, `Election`, `Chain`, `Multisig`): the next state, or the check that fired. Classes update the tables in place, with
the loops and the order of writes of the source (`TokenContract`, `SystemContract`, `MultisigContract`). Every method is
proved equal to its function, down to which check fires first, and rolls back when it aborts. `Dispatch` of each class is
proved to be exactly the step that the theorems about runs speak of.

The theorems are about the functions. For each action: exactly when it goes through and what it leaves of every row
(`TokenLedger`, `StakingEffects`, `VotingEffects`, `ChainEffects`, `MultisigActions`), and what it keeps
(`StakingInvariant`, `VotingInvariant`, `ChainInvariant`). For any sequence of actions by anyone: `Runs`, `TallyRuns`,
`TimingRuns`, `ScheduleRuns`, `RoundTrip`, `LedgerRuns`, `MultisigRuns`; and that the tables are what the history of
committed actions says (`LedgerRuns`, `ChainHistory`, `MultisigHistory`). `Sums` holds what is needed about sums over
tables, `Doubles` the conversion of an integer to a double, and `Histories` what is common to all runs. A run is a
sequence of signed actions; aborted ones count as steps that change nothing. Histories (shortfall, last undelegation,
approvals in force, accepted schedules) are functions of the run, not fields of the state.

## The refund update does not do what it is meant to

`delegate_bandwidth.cpp:158-160` clears the refund amount and negates it afterwards. When a self-delegation exceeds the
pending refund, the part to be paid from the liquid balance comes out as zero, so that part is delegated without any token
moving. The code is modelled as written (`AsWritten`), and the version with lines 159 and 160 exchanged beside it
(`Swapped`).

- `Runs.Conservation` is the exact law for both: delegated + pending + gifts = balance of eosio.stake + shortfall.
- `Runs.ShortfallStep` says when the shortfall grows and by how much: on a committed self-delegation that exceeds a pending
  refund, by the part that exceeds it, and on no other step that eosio.stake did not sign.
- `Runs.NoShortfall` says it for whole runs: there is no shortfall if and only if no step was such a self-delegation.
- `Runs.Solvency` says when everything owed is held: if and only if the shortfall does not exceed what eosio.stake was given
  beside the stake. With the lines exchanged that is always so.
- `ShortfallRun.RunFallsShort` is a run of four actions by one account after which seven tokens are owed, five are held, and
  the matured refund is refused. The same run with the lines exchanged pays out.

Results that need the tokens to be there take the condition of `Runs.Solvency`, named `Covered`, as their hypothesis.

## A deactivated producer locks the votes for it

`voting.cpp:127` asks of every producer on the old list, too, that it is active. A voter with stake whose list holds a
producer that was deactivated since cannot change or empty the list until the producer registers again
(`VotingEffects.DeactivatedProducerBlocksVote`). Unstaking does not ask, so the stake itself is never locked in
(`RoundTrip.WayOutIsOpen`).

## Assumptions about the environment

- `init` names the core symbol once. Runs start right after it (`Runs.Genesis`); `LedgerRuns.InitStartsRuns` shows that it
  leaves what they need of the ledger.
- eosio.stake signs nothing itself (`NeverSigned`), because `delegate_bandwidth.cpp:137` skips payment for it. Only the
  statements about the sign of the shortfall use this; conservation counts eosio.stake's own moves instead.
- `+=` and `-=` on assets abort exactly when the exact result leaves ±(2^62 − 1), and `multi_index::modify` and `emplace`
  abort on a missing row and on an existing one. The library that defines them is not part of this model.
- The by-votes index presents every row once, by key and then by owner.
- Block times and block slots never go back, where a theorem says `ClockOk` or `SlotsOk`.
- The inline transfers are authorised as the contracts ask. Signatures, existing accounts, well-formed symbol codes, the
  host's answer to a proposed schedule and its verdict on a multisig transaction are inputs of a step, unconstrained.

Voter stakes, tallies and weights are 64-bit: every unchecked operation on them wraps explicitly (`Base.Wrap64`), and the
absence of wrapping is a theorem with a condition. A producer's weight is the double of that 64-bit sum (`Doubles.ToDouble`).

## Model

| member | source | states |
|---|---|---|
| Base.Wrap64 | contracts/eosio.system/src/voting.cpp:130 | an unchecked 64-bit operation keeps every exact result that fits |
| Base.WrapCongruent | contracts/eosio.system/src/voting.cpp:138 | the wrapped value is the only 64-bit value that differs from the exact one by a multiple of 2^64 |
| Base.WrapAbsorbs | contracts/eosio.system/src/voting.cpp:129-153 | in a chain of wrapping additions only the final wrap shows |
| TokenContract.Token.SubBalance | contracts/eosio.token/src/eosio.token.cpp:113-122 | debits one balance row in place, or aborts on the missing row, the overdraft, the symbol or the range, and changes nothing |
| TokenContract.Token.AddBalance | contracts/eosio.token/src/eosio.token.cpp:124-137 | credits one balance row in place, creating it when missing |
| TokenContract.Token.Create | contracts/eosio.token/src/eosio.token.cpp:10-29 | adds a stat row with supply zero, with the checks in the source's order |
| TokenContract.Token.Issue | contracts/eosio.token/src/eosio.token.cpp:32-61 | raises the supply, credits the issuer and forwards to the recipient as one step; a refused forward undoes all of it |
| TokenContract.Token.Retire | contracts/eosio.token/src/eosio.token.cpp:63-85 | lowers the supply first and debits after; a refused debit undoes the supply |
| TokenContract.Token.Transfer | contracts/eosio.token/src/eosio.token.cpp:87-111 | debits and credits as one step, with all eight checks in order |
| TokenContract.Token.Open | contracts/eosio.token/src/eosio.token.cpp:139-156 | creates an empty row only if there is none and the symbol matches |
| TokenContract.Token.Close | contracts/eosio.token/src/eosio.token.cpp:158-166 | erases a row only at balance zero |
| TokenContract.Token.Dispatch | contracts/eosio.token/src/eosio.token.cpp:170 | the object's step is the step of the ledger theorems |
| TokenLedger.SubBalanceEffect | contracts/eosio.token/src/eosio.token.cpp:113-122 | succeeds if and only if the balance suffices; takes exactly the quantity out of one balance and out of the token's total |
| TokenLedger.AddBalanceEffect | contracts/eosio.token/src/eosio.token.cpp:124-137 | cannot abort while the token's total stays in range; adds exactly the quantity to one balance |
| TokenLedger.TransferEffect | contracts/eosio.token/src/eosio.token.cpp:87-111 | succeeds if and only if the listed conditions hold, keeps the ledger consistent, moves the quantity and touches no other balance; the range check never fires |
| TokenLedger.MintEffect | contracts/eosio.token/src/eosio.token.cpp:50-54 | raising the supply and crediting the issuer keeps balances and supply in agreement and cannot abort |
| TokenLedger.BurnEffect | contracts/eosio.token/src/eosio.token.cpp:80-84 | although the supply is lowered unchecked, it succeeds if and only if the issuer holds the quantity, so the supply never goes negative |
| TokenLedger.IssueEffect | contracts/eosio.token/src/eosio.token.cpp:32-61 | issuing goes through if and only if the token exists with that symbol, its issuer signed, the quantity is valid, positive and within cap less supply, the memo fits, and the recipient exists or is the issuer; that supply and the recipient's balance alone rise; no range check fires |
| TokenLedger.RetireEffect | contracts/eosio.token/src/eosio.token.cpp:63-85 | retiring goes through if and only if the token exists with that symbol, its issuer signed and holds the valid positive quantity, and the memo fits; that supply and the issuer's balance alone fall; no range check fires |
| TokenLedger.CreateEffect | contracts/eosio.token/src/eosio.token.cpp:10-29 | creating goes through if and only if the token contract signed, the cap is valid and positive and the code is free; the new token has that cap and issuer, no supply and no holdings, and nothing else changes |
| TokenLedger.OpenEffect | contracts/eosio.token/src/eosio.token.cpp:139-156 | goes through if and only if the payer signed and the symbol is that of a token; the row is there afterwards, no other row comes or goes, no balance and no total moves |
| TokenLedger.CloseEffect | contracts/eosio.token/src/eosio.token.cpp:158-166 | goes through if and only if the owner signed and has a row at zero; that row alone is gone afterwards, no balance and no total moves |
| TokenLedger.ActEffect | contracts/eosio.token/src/eosio.token.cpp:10-166 | every action keeps the ledger consistent, never changes a token's symbol, cap or issuer, and moves exactly the stated amounts of every balance and every supply |
| TokenLedger.BalanceWithinSupply | contracts/eosio.token/src/eosio.token.cpp:113-137 | each balance lies between zero and the supply, the supply within its cap |
| LedgerRuns.LedgerStaysConsistent | contracts/eosio.token/src/eosio.token.cpp:10-166 | from the empty ledger, after any actions: balances add up to the supply for every token, bounds hold, every row has its token's precision |
| LedgerRuns.LedgerIsHistory | contracts/eosio.token/src/eosio.token.cpp:10-166 | every balance is what its owner received less what it gave away, and every supply what was issued less what was retired, over the committed actions |
| LedgerRuns.InitStartsRuns | contracts/eosio.system/src/eosio.system.cpp:164-172 | after any token history, `init` goes through if and only if the system account signed and the token has that very symbol and a positive total; it leaves a consistent ledger with the core token |
| SystemContract.System.UpdateDelband | contracts/eosio.system/src/delegate_bandwidth.cpp:93-112 | writes, checks and possibly erases the delegation row |
| SystemContract.System.UpdateTotals | contracts/eosio.system/src/delegate_bandwidth.cpp:115-134 | writes, checks and possibly erases the total, and sets the CPU limit to it |
| SystemContract.System.UpdateRefund | contracts/eosio.system/src/delegate_bandwidth.cpp:137-195 | updates, creates or erases the pending refund, reschedules or cancels its transaction, and returns what is left to pay, in the written order of lines 159 and 160 |
| SystemContract.System.MoveStake | contracts/eosio.system/src/delegate_bandwidth.cpp:87-193 | the three table updates in sequence, on the row, total and limit of the receiver, with the receiver as delegator when stake is transferred |
| SystemContract.System.AddVotes | contracts/eosio.system/src/voting.cpp:124-141 | the loop over a list, against a recursive definition, aborting on the first missing or inactive producer |
| SystemContract.System.UpdateProducersVotes | contracts/eosio.system/src/voting.cpp:121-161 | both loops with their guards on the stake |
| SystemContract.System.UpdateVotingPower | contracts/eosio.system/src/delegate_bandwidth.cpp:207-236 | writes the wrapped stake, checks its sign, and reruns the loops when there is a list and a type |
| SystemContract.System.Changebw | contracts/eosio.system/src/delegate_bandwidth.cpp:82-205 | the whole stake change including the inline transfer |
| SystemContract.System.Delegatebw | contracts/eosio.system/src/delegate_bandwidth.cpp:238-248 | the action, with full rollback when any part aborts |
| SystemContract.System.Undelegatebw | contracts/eosio.system/src/delegate_bandwidth.cpp:255-264 | the action, with full rollback when any part aborts |
| SystemContract.System.PayRefund | contracts/eosio.system/src/delegate_bandwidth.cpp:271-285 | pays and erases a matured refund, or changes nothing |
| SystemContract.System.RunDeferred | contracts/eosio.system/src/delegate_bandwidth.cpp:185-190 | the host runs a due scheduled refund once |
| SystemContract.System.NewAccount | contracts/eosio.system/src/eosio.system.cpp:132-139 | creates the resource row at zero and sets the limit to zero |
| SystemContract.System.SetAlimits | contracts/eosio.system/src/eosio.system.cpp:79-87 | sets a limit only for accounts without a resource row |
| SystemContract.System.CheckSorted | contracts/eosio.system/src/voting.cpp:98-100 | comparing neighbours decides whether the whole list is strictly increasing |
| SystemContract.System.VoteProducer | contracts/eosio.system/src/voting.cpp:95-119 | replaces the list and reruns both loops as one step |
| SystemContract.System.RegProducer | contracts/eosio.system/src/voting.cpp:26-55 | creates a row at zero votes or reactivates one with its votes kept, with the checks in order and the claim time set when there was none |
| SystemContract.System.Unregister | contracts/eosio.system/src/voting.cpp:57-64 | deactivates a row and clears its key (also `rmvproducer`, signed by the system account) |
| SystemContract.System.SetVWeight | contracts/eosio.system/src/eosio.system.cpp:182-188 | replaces the pair of weights, touching no producer |
| SystemContract.System.SetAcntType | contracts/eosio.system/src/eosio.system.cpp:197-210 | sets an account's type once |
| SystemContract.System.TopProducers | contracts/eosio.system/src/voting.cpp:69-76 | the scanning loop yields the longest eligible front of the index, cut at 21 |
| SystemContract.System.UpdateElectedProducers | contracts/eosio.system/src/voting.cpp:66-93 | stamps the slot, proposes unless empty or shrunk, records the size if accepted |
| SystemContract.System.OnBlock | contracts/eosio.system/src/producer_pay.cpp:8-21 | recomputes when the unsigned slot difference exceeds 120 |
| SystemContract.System.Dispatch | contracts/eosio.system/src/eosio.system.cpp:233-246 | the object's step is exactly the step of the run theorems |
| StakingInvariant.UpdateDelbandEffect | contracts/eosio.system/src/delegate_bandwidth.cpp:93-112 | one row moves by the delta, and so do its row sum, its column sum and the grand total, and no other sum |
| StakingInvariant.UpdateTotalsEffect | contracts/eosio.system/src/delegate_bandwidth.cpp:115-134 | after the delegation check the negative-total check cannot fire; totals equal column sums and limits equal totals again |
| StakingInvariant.UpdateRefundEffect | contracts/eosio.system/src/delegate_bandwidth.cpp:137-195 | pending refunds and the amount to pay account for every unit of the delta, except the dropped excess as written |
| StakingInvariant.MoveStakeEffect | contracts/eosio.system/src/delegate_bandwidth.cpp:82-195 | all three tables together: invariant kept, sums moved, and what is delegated or pending grows by what is paid plus what is dropped |
| StakingEffects.MoveStakeCommits | contracts/eosio.system/src/delegate_bandwidth.cpp:87-180 | moving stake goes through if and only if enough is there to withdraw and the existing rows and the pending refund stay in the asset range |
| StakingEffects.MoveStakeRows | contracts/eosio.system/src/delegate_bandwidth.cpp:87-134 | the delegation of the delegator to the receiver, the total of the receiver and the limit of the receiver move, and no other row of the three tables |
| StakingEffects.MoveStakeQueue | contracts/eosio.system/src/delegate_bandwidth.cpp:137-204 | the pending refund, its time and its schedule afterwards, for every kind of change, and exactly what the signer is charged; nobody else waits differently |
| VotingInvariant.TwoPasses | contracts/eosio.system/src/voting.cpp:124-160 | both passes over one row leave one combined change and a weight of the final tallies |
| Voting.AddVotesEffect | contracts/eosio.system/src/voting.cpp:124-141 | over a list without repetitions the loop succeeds if and only if every listed producer has a row (and is active when voting), and touches each exactly once and nobody else |
| Voting.RecountPut | contracts/eosio.system/src/voting.cpp:114-118 | replacing one voter's row moves the recount by the difference of that voter's shares |
| Voting.RecountBound | contracts/eosio.system/src/voting.cpp:129-153 | company and government votes of a producer together never exceed all stakes |
| VotingInvariant.UpdateEffect | contracts/eosio.system/src/voting.cpp:121-161 | for each producer: the net change of its tally, and whether it is weighed anew |
| VotingInvariant.RevoteKeepsInv | contracts/eosio.system/src/voting.cpp:121-161 | a voter moving from any stake and list to any other keeps every tally equal to the recount |
| VotingInvariant.VoteProducerKeeps | contracts/eosio.system/src/voting.cpp:95-119 | voting keeps the voting invariant and changes no stake |
| VotingEffects.VoteEffect | contracts/eosio.system/src/voting.cpp:95-161 | a vote goes through if and only if the voter signed, the list has at most 30 names in strict order, row and type exist, and with stake behind it both lists are registered and active; the list becomes the one voted for, stakes and other voters stay, and each tally of the voter's type moves by the stake for a producer that entered or left |
| VotingEffects.DeactivatedProducerBlocksVote | contracts/eosio.system/src/voting.cpp:124-127 | a voter with stake behind a deactivated producer cannot change its list |
| VotingInvariant.UpdateVotingPowerKeeps | contracts/eosio.system/src/delegate_bandwidth.cpp:207-236 | staking keeps the voting invariant; it is refused for a negative stake if and only if the exact stake is negative or does not fit in 64 bits |
| VotingEffects.PowerEffect | contracts/eosio.system/src/delegate_bandwidth.cpp:207-236 | a change of stake is accepted if and only if the exact stake fits and every listed producer has a row; it moves that stake and the tallies behind it, keeps the list and touches no other voter |
| VotingInvariant.UnknownProducerHasNoVotes | contracts/eosio.system/src/voting.cpp:43-53 | a name without a row recounts to zero even if listed by voters without stake |
| VotingInvariant.RegProducerKeeps | contracts/eosio.system/src/voting.cpp:26-55 | starting a row at zero votes agrees with the recount |
| VotingEffects.RegisterEffect | contracts/eosio.system/src/voting.cpp:26-55 | goes through if and only if the url is short, the key is not the default and the producer signed; the producer is active under that key, with its votes kept or none if new, and no other row changes |
| VotingInvariant.SetAcntTypeKeeps | contracts/eosio.system/src/eosio.system.cpp:197-210 | giving an account a type moves no tally |
| VotingEffects.SetAcntTypeEffect | contracts/eosio.system/src/eosio.system.cpp:197-210 | goes through if and only if the administrator signed for an existing account without a type and one of the two types; that account alone has that type afterwards |
| VotingInvariant.UnregisterKeeps | contracts/eosio.system/src/eosio.system.cpp:89-97 | deactivating keeps tallies and weight, and leaves the default key only on inactive rows |
| VotingEffects.UnregisterEffect | contracts/eosio.system/src/voting.cpp:57-64 | goes through if and only if the signature is there and the row exists; that producer alone is inactive under the default key, with its votes kept |
| VotingInvariant.SetVWeightKeeps | contracts/eosio.system/src/eosio.system.cpp:182-188 | new weights leave every recorded weight a weighing by some allowed pair |
| VotingEffects.SetVWeightEffect | contracts/eosio.system/src/eosio.system.cpp:182-188 | goes through if and only if the system account signed and both values lie in 100..1000; each weight is the one given |
| ChainInvariant.ChangebwEffect | contracts/eosio.system/src/delegate_bandwidth.cpp:82-205 | keeps all invariants, shifts cover by exactly the unpaid part, and never trips the negative-total check |
| ChainInvariant.PaymentEffect | contracts/eosio.system/src/delegate_bandwidth.cpp:195-202 | the inline transfer brings the staking account exactly what was left to pay, so the uncovered amount grows by the unpaid part alone |
| ChainInvariant.PayRefundEffect | contracts/eosio.system/src/delegate_bandwidth.cpp:271-285 | a signed and matured refund keeps all invariants and the cover, and moves that amount and nothing else |
| ChainInvariant.RunDeferredEffect | contracts/eosio.system/src/delegate_bandwidth.cpp:185-190 | a scheduled refund keeps all invariants and the cover whether or not it pays |
| ChainInvariant.DoEffect | contracts/eosio.system/src/eosio.system.cpp:233-246 | every action keeps every invariant and moves the uncovered amount by its unpaid part less its gift |
| ChainEffects.DelegateCommits | contracts/eosio.system/src/delegate_bandwidth.cpp:82-248 | delegating goes through if and only if the listed conditions hold; then the row of the receiver under the delegator moves by the quantity, with the receiver's total and limit, the delegator's stake and tallies, the refund queue and the payment, and nothing else |
| ChainEffects.UndelegateCommits | contracts/eosio.system/src/delegate_bandwidth.cpp:82-264 | undelegating goes through if and only if the delegator signed for a positive core amount that the rows can give; it moves the same tables the other way and no token |
| ChainEffects.RefundCommits | contracts/eosio.system/src/delegate_bandwidth.cpp:271-285 | a refund is paid if and only if its owner signed and exists, it is pending and three days old, and the staking account holds it; the row goes, the amount moves, and nothing else changes |
| ChainEffects.DeferredCommits | contracts/eosio.system/src/delegate_bandwidth.cpp:185-190 | the host runs a scheduled refund if and only if it is due; it pays if it is ready and otherwise only the entry goes |
| ChainEffects.NewAccountEffect | contracts/eosio.system/src/eosio.system.cpp:132-139 | an account without a resource row gets an empty one and a limit of zero; no other row or limit changes |
| ChainEffects.SetAlimitsEffect | contracts/eosio.system/src/eosio.system.cpp:79-87 | the system account alone sets a limit, and only without a resource row; the limit is the one given |
| ChainEffects.DeactivateCommits | contracts/eosio.system/src/eosio.system.cpp:89-97 | a producer is deactivated by itself or by the system account only |
| ChainEffects.EachToItsOwn | contracts/eosio.system/src/eosio.system.cpp:233-246 | each kind of action writes only the tables of its own concern |
| ChainHistory.DelegationsAreHistory | contracts/eosio.system/src/delegate_bandwidth.cpp:82-264 | in every reachable state a delegation is what was delegated from one account to the other less what was taken back |
| ChainHistory.VotesAreHistory | contracts/eosio.system/src/voting.cpp:26-119 | in every reachable state a list is the one last voted for, a type the one given, the weights those last set, and a producer is active exactly under the key it last registered with |
| Runs.Conservation | contracts/eosio.system/src/delegate_bandwidth.cpp:82-202 | in every reachable state all invariants hold, and delegated + pending + gifts = balance of eosio.stake + shortfall |
| Runs.ShortfallStep | contracts/eosio.system/src/delegate_bandwidth.cpp:156-164 | exactly when and by how much the shortfall grows |
| Runs.ShortfallSign | contracts/eosio.system/src/delegate_bandwidth.cpp:158-160 | without signatures of eosio.stake, shortfall and gifts are never negative, and with lines 159 and 160 exchanged the shortfall is always zero |
| Runs.NoShortfall | contracts/eosio.system/src/delegate_bandwidth.cpp:156-164 | over a run without signatures of eosio.stake there is no shortfall if and only if no step is a committed self-delegation of more than is pending while something is pending |
| Runs.Solvency | contracts/eosio.system/src/delegate_bandwidth.cpp:82-202 | everything owed is held if and only if the shortfall does not exceed the gifts; no shortfall, or the exchanged lines, suffice |
| Runs.MaturedRefundsPay | contracts/eosio.system/src/delegate_bandwidth.cpp:271-285 | while covered, every matured refund goes through, its owner is not eosio.stake, and its amount is positive and paid in full |
| Runs.CachesAreSums | contracts/eosio.system/src/delegate_bandwidth.cpp:87-134 | stakes are row sums, totals are column sums, and limits equal totals in every reachable state |
| Runs.ListsAreBacked | contracts/eosio.system/src/voting.cpp:102-118 | lists are sorted, belong to typed accounts, and with stake behind them name only registered producers |
| Runs.NegativeChecksNeverFire | contracts/eosio.system/src/delegate_bandwidth.cpp:129-228 | while covered, no amount in the asset range is refused for a negative total or stake |
| ShortfallRun.RunFallsShort | contracts/eosio.system/src/delegate_bandwidth.cpp:158-160 | a concrete run with shortfall two and a refused refund as written, and the same run covered with the lines exchanged |
| TallyRuns.TalliesAreRecounts | contracts/eosio.system/src/voting.cpp:95-161 | in every reachable state each tally is the recount as a 64-bit register shows it |
| TallyRuns.StakesWithinSupply | contracts/eosio.system/src/delegate_bandwidth.cpp:204-228 | while covered, all stakes together never exceed the supply of the core token |
| TallyRuns.TalliesAreExact | contracts/eosio.system/src/voting.cpp:129-153 | while covered no counter wraps: tallies are the exact recounts and stay within the supply |
| TallyRuns.WeighIsExact | contracts/eosio.system/src/voting.cpp:138 | up to a stated number of votes the weighted sum does not wrap and lies between 100 and 1000 times the votes |
| TallyRuns.WeightBoundIsTight | contracts/eosio.system/src/voting.cpp:138 | below one turn of the register a weight reads as negative if and only if the exact sum passes 63 bits; under the largest pair, if and only if the votes pass the stated number |
| TallyRuns.WeightIsStamped | contracts/eosio.system/src/voting.cpp:137-158 | every weight is the votes weighted by the pair in force when the producer was last touched |
| TallyRuns.WeightsAreExact | contracts/eosio.system/src/voting.cpp:137-158 | while covered and under a weighable cap, every weight is the double of the exact sum: bracketed by 100 and 1000 times the votes across all weight changes, equal to the sum up to 2^53, never off by more than one part in 2^53, and positive exactly with votes |
| TallyRuns.RoundingOnlyTies | contracts/eosio.system/src/voting.cpp:69-76 | under the same conditions a candidate that was left out outweighs an elected producer only if their weights are one and the same double, and then by two parts in 2^53 at most |
| Doubles.ToDoubleMonotone | contracts/eosio.system/include/eosio.system/eosio.system.hpp:149 | converting to a double never reverses an order |
| Doubles.ToDoubleClose | contracts/eosio.system/include/eosio.system/eosio.system.hpp:149 | the conversion keeps the sign and moves a number by one part in 2^53 at most |
| Doubles.ToDoubleExact | contracts/eosio.system/include/eosio.system/eosio.system.hpp:149 | integers of up to 53 bits are converted exactly |
| Doubles.ToDoubleFits | contracts/eosio.system/include/eosio.system/eosio.system.hpp:149 | the result has 53 significant bits |
| TallyRuns.CapsStay | contracts/eosio.token/src/eosio.token.cpp:24-52 | no run changes a token's cap, symbol or issuer |
| TallyRuns.ElectionIsRight | contracts/eosio.system/src/voting.cpp:66-76 | under the same conditions the scan elects the one list that meets the specification |
| TallyRuns.ProposalIsElected | contracts/eosio.system/src/voting.cpp:66-92 | under the same conditions a schedule is proposed if and only if there is a candidate and no fewer are elected than recorded; its owners are the specified election, in order, each with its own key |
| TallyRuns.NoDefaultKeyProposed | contracts/eosio.system/src/voting.cpp:75 | no proposed schedule holds a default key or an inactive producer |
| Election.IndexUnique | contracts/eosio.system/include/eosio.system/eosio.system.hpp:191-193 | a table has one index order only |
| Election.ElectedSize | contracts/eosio.system/src/voting.cpp:71-76 | the specification elects all candidates up to 21 |
| Election.ElectedUnique | contracts/eosio.system/src/voting.cpp:71-76 | the specification has one solution only |
| Election.ScanPrefix | contracts/eosio.system/src/voting.cpp:74-76 | the scan takes a front of eligible rows and stops for one of three reasons |
| Election.ProposalEffect | contracts/eosio.system/src/voting.cpp:66-92 | in any state whatever: the proposal is the eligible front of the index, each producer with its own key, and it is made if and only if the front is not empty and not smaller than recorded; the slot is stamped |
| Election.ScanIsElection | contracts/eosio.system/src/voting.cpp:66-76 | on any table whatever: the scan meets the specification if and only if no ineligible row stands before a candidate that is due |
| Election.NonNegativeNeverBlocks | contracts/eosio.system/include/eosio.system/eosio.system.hpp:162-164 | with non-negative weights, eligible rows are exactly those with a negative key, and nothing blocks |
| TimingRuns.PaidOnlyAfterDelay | contracts/eosio.system/src/delegate_bandwidth.cpp:271-285 | a refund paid by the owner's action or by the scheduled transaction is paid at least three days after the owner's latest undelegation, cut to whole seconds |
| TimingRuns.RefundsAreTimed | contracts/eosio.system/src/delegate_bandwidth.cpp:149-193 | a pending refund carries the second of the latest undelegation, and a schedule entry beside it is never due too early |
| TimingRuns.DueMeansMature | contracts/eosio.system/src/delegate_bandwidth.cpp:185-190 | a due scheduled refund that finds its row passes the time check |
| TimingRuns.DueRefundPays | contracts/eosio.system/src/delegate_bandwidth.cpp:271-285 | while covered, it also pays in full |
| ScheduleRuns.SchedulesNeverShrink | contracts/eosio.system/src/voting.cpp:78-92 | accepted schedules have 1 to 21 producers, never shrink, and the recorded size is the last one's |
| ScheduleRuns.ProposalSize | contracts/eosio.system/src/voting.cpp:78-92 | a proposal has at most 21 producers and no fewer than the last accepted one, and its size is recorded exactly when it is accepted |
| ScheduleRuns.RecomputationsAreSpaced | contracts/eosio.system/src/producer_pay.cpp:17-20 | any two recomputations lie more than 120 slots apart |
| ScheduleRuns.RecomputationsAreTimely | contracts/eosio.system/src/producer_pay.cpp:8-21 | a block goes through if and only if the system account signed, and recomputes if and only if more than 120 slots have passed since the last recomputation |
| ScheduleRuns.RecomputationsAreRare | contracts/eosio.system/src/producer_pay.cpp:17-20 | so their number times 121 is at most the latest slot |
| RoundTrip.VotesRestored | contracts/eosio.system/src/delegate_bandwidth.cpp:207-236 | withdrawn stake can always be put back on the voting side, and every voter's row and every tally returns |
| RoundTrip.StakeRestored | contracts/eosio.system/src/delegate_bandwidth.cpp:82-202 | the staking tables return, nothing is paid, and the way back is open if and only if the two rows fit the asset range |
| RoundTrip.UndelegateThenDelegate | contracts/eosio.system/src/delegate_bandwidth.cpp:82-269 | from any state satisfying the invariants the round trip restores delegations, totals, limits, pending amounts, balances, stakes and tallies |
| RoundTrip.WayBackIsOpen | contracts/eosio.system/src/delegate_bandwidth.cpp:238-264 | while covered, the second half of the round trip cannot be refused |
| RoundTrip.WayOutIsOpen | contracts/eosio.system/src/delegate_bandwidth.cpp:255-264 | stake is never locked in: while covered, undelegating goes through if and only if the delegator signs for a positive core amount of no more than is delegated; then that amount is queued and no token moves |
| RoundTrip.StakeLeaves | contracts/eosio.system/src/delegate_bandwidth.cpp:87-193 | stake that is there can leave all three staking tables, and lands in the refund queue with its transaction scheduled |
| RoundTrip.VotesLeave | contracts/eosio.system/src/voting.cpp:121-161 | no missing or inactive producer can refuse a withdrawal of stake |
| MultisigContract.Msig.Propose | contracts/eosio.msig/src/eosio.msig.cpp:13-59 | creates both rows as one step, with the checks in order |
| MultisigContract.Msig.Approve | contracts/eosio.msig/src/eosio.msig.cpp:61-94 | moves one entry from requested to provided in the table that has the row |
| MultisigContract.Msig.Unapprove | contracts/eosio.msig/src/eosio.msig.cpp:96-118 | moves the first entry of the level back |
| MultisigContract.Msig.Cancel | contracts/eosio.msig/src/eosio.msig.cpp:120-142 | erases the proposal and its approvals; others only after expiration |
| MultisigContract.Msig.Count | contracts/eosio.msig/src/eosio.msig.cpp:156-175 | the loops that collect the levels to present |
| MultisigContract.Msig.Exec | contracts/eosio.msig/src/eosio.msig.cpp:144-189 | erases the rows and sends exactly the stored transaction under its identifier, or changes nothing and sends nothing |
| MultisigContract.Msig.Invalidate | contracts/eosio.msig/src/eosio.msig.cpp:191-205 | records the time of an actor's invalidation |
| MultisigContract.Msig.Dispatch | contracts/eosio.msig/src/eosio.msig.cpp:209 | the object's step is the step of the run theorems |
| Multisig.DeferredIdInjective | contracts/eosio.msig/src/eosio.msig.cpp:185 | distinct proposals are sent under distinct identifiers |
| Multisig.ExecExcludesForeignCancel | contracts/eosio.msig/src/eosio.msig.cpp:126-152 | executing and cancelling by another are never both possible at one time |
| MultisigRuns.TablesStayInLockstep | contracts/eosio.msig/src/eosio.msig.cpp:46-188 | a proposal exists if and only if exactly one approval table has its row |
| MultisigRuns.EachInstanceEndsOnce | contracts/eosio.msig/src/eosio.msig.cpp:120-189 | at every moment, proposals of one name were begun as often as ended, plus one if it exists |
| MultisigRuns.LevelsAreConserved | contracts/eosio.msig/src/eosio.msig.cpp:72-117 | requested and provided levels together are the proposed ones until the end |
| MultisigHistory.TablesHoldInForce | contracts/eosio.msig/src/eosio.msig.cpp:78-116 | the provided lists hold exactly the approvals in force, with their times in order |
| MultisigHistory.InvalidationsAreLast | contracts/eosio.msig/src/eosio.msig.cpp:191-205 | the table holds each actor's last invalidation |
| MultisigHistory.ExecCountsHistory | contracts/eosio.msig/src/eosio.msig.cpp:154-177 | how often `exec` presents each level, in both formats, from the history alone |
| MultisigHistory.ExecCountsApprovalsInForce | contracts/eosio.msig/src/eosio.msig.cpp:160-165 | current format, duplicates or not: a level counts if and only if some approval in force has no invalidation at its time or later |
| MultisigHistory.ExecCountsLatestApprovals | contracts/eosio.msig/src/eosio.msig.cpp:160-165 | requested at most once: a level counts if and only if its latest approval was neither taken back nor invalidated since |
| MultisigHistory.ExecCountsOldApprovals | contracts/eosio.msig/src/eosio.msig.cpp:170-175 | old format: a level counts if and only if it has an approval in force and its actor never invalidated |
| MultisigHistory.ProposalsStartFresh | contracts/eosio.msig/src/eosio.msig.cpp:51-58 | no approval carries over to a later proposal of the same name |
| MultisigActions.ProposalsAreHistory | contracts/eosio.msig/src/eosio.msig.cpp:46-188 | the open proposals, their transactions and their formats are those of the history |
| MultisigActions.ProposeCommits | contracts/eosio.msig/src/eosio.msig.cpp:13-59 | goes through if and only if the proposer signed, the transaction has not expired, none is open under the name, and the host finds the requested levels sufficient |
| MultisigActions.ApproveCommits | contracts/eosio.msig/src/eosio.msig.cpp:61-94 | goes through if and only if the level signed, a proposal is open, a given hash is that of the proposed transaction, and the level was proposed more often than it has approvals in force |
| MultisigActions.UnapproveCommits | contracts/eosio.msig/src/eosio.msig.cpp:96-118 | goes through if and only if the level signed and has an approval in force |
| MultisigActions.CancelCommits | contracts/eosio.msig/src/eosio.msig.cpp:120-142 | goes through if and only if the canceller signed, a proposal is open, and the canceller proposed it or its transaction has expired |
| MultisigActions.InvalidateCommits | contracts/eosio.msig/src/eosio.msig.cpp:191-192 | goes through if and only if the account signed |
| MultisigActions.ExecCommits | contracts/eosio.msig/src/eosio.msig.cpp:144-189 | goes through if and only if the executer signed, a proposal is open and not expired, and the host authorises the transaction as it was proposed by a list in which each level occurs as often as the history of approvals and invalidations says, in either format |
| MultisigHistory.TwiceRequestedStillCounts | contracts/eosio.msig/src/eosio.msig.cpp:102-107 | a level requested twice can take back its latest approval and still be counted |

## Left out

- eosio.bios, transorderdebt, `setupgrade`, `setpriv`, `setparams`, `setgrtdcpu`, `setabi`, `setcode`, `buyram`, `buyrambytes`, `claimrewards`, `awlset`, `setacntfee`: thin wrappers over the host, plain sets, or single guards.
- `dlgtcpu` and `undlgtcpu`: they call the modelled actions with a zero net quantity.
- `newaccount`: its name-suffix rule depends on a library function that is not part of this model; its fee is an ordinary transfer, covered as a token step of its own.
- Negative zero: an active producer without votes has the key minus zero in the source and zero here; the two compare as equal.
- The roll-over of 32-bit seconds in 2106: request times and expirations are unbounded.
- Resource payers, notifications, packing, and the unused `normal_votes` and `unpaid_blocks`. The texts of memos and urls matter by their length only.
- Hashes: an approval's hash argument stands for the transaction it was computed from.
- Voting for a name without a row while stake is behind it: the source reads through an end iterator before `modify` aborts; the model aborts on the missing row.
- Scheduled transactions beyond their due time: the host's right to drop or delay them is not modelled, only that a due one may run once.
- "A pending refund always has a scheduled transaction" is not claimed: delegating to someone else cancels the transaction and keeps the row, as lines 185-193 say.
- Creating old-format approval rows: no action does; runs start with any set of them.
