/** The token ledger from its empty start: what any sequence of token actions keeps, and what `init` relies on. */
module LedgerRuns {
  import opened Base
  import opened Histories
  import opened TokenLedger

  datatype TokenStep = TokenStep(ctx: Context, action: TokenAction)

  /** An action that aborts leaves the ledger as it was. */
  function After(run: seq<TokenStep>): Ledger
    decreases |run|
  {
    if run == [] then Ledger(map[], map[])
    else
      var l := After(Earlier(run));
      var step := Latest(run);
      match Act(l, step.ctx, step.action)
      case Ok(l') => l'
      case Abort(_) => l
  }

  /** From the empty ledger, whatever is done, every token's balances add up to its supply, every balance
      lies between zero and the supply, every supply within its cap, and every row has its token's symbol. */
  lemma {:induction false} LedgerStaysConsistent(run: seq<TokenStep>, owner: Name, code: nat)
    ensures var l := After(run);
            && LedgerInv(l)
            && 0 <= BalanceOf(l, owner, code)
            && (code in l.stats ==>
                 && Holdings(l, code) == l.stats[code].supply.amount
                 && BalanceOf(l, owner, code) <= l.stats[code].supply.amount
                 && l.stats[code].supply.amount <= l.stats[code].maxSupply.amount <= MAX_AMOUNT)
            && ((owner, code) in l.accounts ==>
                 && code in l.stats
                 && l.accounts[(owner, code)].symbol == l.stats[code].supply.symbol)
    decreases |run|
  {
    hide Act, Holdings;
    if run != [] {
      LedgerStaysConsistent(Earlier(run), owner, code);
      ActEffect(After(Earlier(run)), Latest(run).ctx, Latest(run).action);
    }
    BalanceWithinSupply(After(run), owner, code);
  }

  /** What an owner gained in one token over a run: received less given away. */
  function Gained(run: seq<TokenStep>, owner: Name, code: nat): int
    decreases |run|
  {
    if run == [] then 0
    else
      var l, step := After(Earlier(run)), Latest(run);
      var gain := if Act(l, step.ctx, step.action).Ok? then Moved(l, step.action, owner, code) else 0;
      Gained(Earlier(run), owner, code) + gain
  }

  /** What was issued of one token over a run, less what was retired. */
  function Outstanding(run: seq<TokenStep>, code: nat): int
    decreases |run|
  {
    if run == [] then 0
    else
      var l, step := After(Earlier(run)), Latest(run);
      var minted := if Act(l, step.ctx, step.action).Ok? then Minted(step.action, code) else 0;
      Outstanding(Earlier(run), code) + minted
  }

  /** Every balance is what its owner gained, and every supply is what was issued and not retired. */
  lemma {:induction false} LedgerIsHistory(run: seq<TokenStep>, owner: Name, code: nat)
    ensures BalanceOf(After(run), owner, code) == Gained(run, owner, code)
    ensures SupplyOf(After(run), code) == Outstanding(run, code)
    decreases |run|
  {
    hide Act, LedgerInv;
    if run != [] {
      LedgerIsHistory(Earlier(run), owner, code);
      LedgerStaysConsistent(Earlier(run), owner, code);
      ActEffect(After(Earlier(run)), Latest(run).ctx, Latest(run).action);
    }
  }

  /** `init` names the core symbol: the token must exist with that very symbol and have a supply. */
  function Init(l: Ledger, ctx: Context, core: Symbol): Result<Symbol> {
    var signed := SYSTEM in ctx.auth;
    :- Check(signed, MissingAuth);
    :- Check(core.code in l.stats, NoSuchToken);
    :- Check(l.stats[core.code].supply.symbol == core, SymbolMismatch);
    :- Check(0 < l.stats[core.code].supply.amount, NotPositive);
    Ok(core)
  }

  /** After any token history, `init` goes through exactly for the system account and an existing token with
      that very symbol and a positive supply. It leaves what the chain's runs start from: a consistent ledger in
      which the core token exists with the core symbol. */
  lemma InitStartsRuns(run: seq<TokenStep>, ctx: Context, core: Symbol)
    ensures var l := After(run);
            && (Init(l, ctx, core).Ok? <==>
                 && SYSTEM in ctx.auth && 0 < Holdings(l, core.code)
                 && core.code in l.stats && l.stats[core.code].maxSupply.symbol == core)
            && (Init(l, ctx, core).Ok? ==>
                 && LedgerInv(l) && core.code in l.stats && l.stats[core.code].supply.symbol == core
                 && Init(l, ctx, core).value == core)
  {
    hide After, Holdings;
    LedgerStaysConsistent(run, 0, core.code);
  }
}
