/** eosio.token as functions on its two tables: the balance ledger that staking rests on. */
module TokenLedger {
  import opened Base
  import opened Sums

  datatype Symbol = Symbol(code: nat, precision: nat)

  /** An amount of a token. Nothing validates an amount that arrives as action data. */
  datatype Asset = Asset(amount: int64, symbol: Symbol)

  datatype Stat = Stat(supply: Asset, maxSupply: Asset, issuer: Name)

  /** The longest memo, in bytes. */
  const MAX_MEMO: nat := 256

  datatype Ledger = Ledger(stats: map<nat, Stat>, accounts: map<(Name, nat), Asset>)

  predicate ValidAsset(ctx: Context, q: Asset) {
    InRange(q.amount) && q.symbol.code in ctx.codes
  }

  function Plus(a: Asset, b: Asset): Result<Asset> {
    if a.symbol != b.symbol then Abort(SymbolMismatch)
    else
      var amount :- CheckedAmount(a.amount + b.amount);
      Ok(Asset(amount, a.symbol))
  }

  function Minus(a: Asset, b: Asset): Result<Asset> {
    if a.symbol != b.symbol then Abort(SymbolMismatch)
    else
      var amount :- CheckedAmount(a.amount - b.amount);
      Ok(Asset(amount, a.symbol))
  }

  // ---------------------------------------------------------------------------------------------
  // The actions

  function SubBalance(l: Ledger, owner: Name, q: Asset): Result<Ledger> {
    var k := (owner, q.symbol.code);
    :- Check(k in l.accounts, NoBalance);
    :- Check(l.accounts[k].amount >= q.amount, Overdrawn);
    var balance :- Minus(l.accounts[k], q);
    Ok(l.(accounts := l.accounts[k := balance]))
  }

  function AddBalance(l: Ledger, owner: Name, q: Asset): Result<Ledger> {
    var k := (owner, q.symbol.code);
    if k !in l.accounts then Ok(l.(accounts := l.accounts[k := q]))
    else
      var balance :- Plus(l.accounts[k], q);
      Ok(l.(accounts := l.accounts[k := balance]))
  }

  /** The ledger with the supply of one token changed and every balance as before. */
  function WithSupply(l: Ledger, code: nat, supply: Asset): Ledger
    requires code in l.stats
  {
    l.(stats := l.stats[code := l.stats[code].(supply := supply)])
  }

  /** The part of `issue` that raises the supply and credits the issuer. */
  function Mint(l: Ledger, q: Asset): Result<Ledger>
    requires q.symbol.code in l.stats
  {
    var st := l.stats[q.symbol.code];
    var supply :- Plus(st.supply, q);
    AddBalance(WithSupply(l, q.symbol.code, supply), st.issuer, q)
  }

  /** The part of `retire` that lowers the supply and then debits the issuer. */
  function Burn(l: Ledger, q: Asset): Result<Ledger>
    requires q.symbol.code in l.stats
  {
    var st := l.stats[q.symbol.code];
    var supply :- Minus(st.supply, q);
    SubBalance(WithSupply(l, q.symbol.code, supply), st.issuer, q)
  }

  function Create(l: Ledger, ctx: Context, issuer: Name, maximum: Asset): Result<Ledger> {
    var code := maximum.symbol.code;
    :- Check(TOKEN in ctx.auth, MissingAuth);
    :- Check(code in ctx.codes, InvalidSymbol);
    :- Check(ValidAsset(ctx, maximum), InvalidQuantity);
    :- Check(maximum.amount > 0, NotPositive);
    :- Check(code !in l.stats, TokenExists);
    Ok(l.(stats := l.stats[code := Stat(Asset(0, maximum.symbol), maximum, issuer)]))
  }

  function Issue(l: Ledger, ctx: Context, to: Name, q: Asset, memo: string): Result<Ledger> {
    var code := q.symbol.code;
    :- Check(code in ctx.codes, InvalidSymbol);
    :- Check(|memo| <= MAX_MEMO, MemoTooLong);
    :- Check(code in l.stats, NoSuchToken);
    var st := l.stats[code];
    :- Check(st.issuer in ctx.auth, MissingAuth);
    :- Check(ValidAsset(ctx, q), InvalidQuantity);
    :- Check(q.amount > 0, NotPositive);
    :- Check(q.symbol == st.supply.symbol, SymbolMismatch);
    :- Check(q.amount <= st.maxSupply.amount - st.supply.amount, SupplyExceeded);
    var credited :- Mint(l, q);
    if to == st.issuer then Ok(credited)
    else Transfer(credited, ctx.(auth := {st.issuer}), st.issuer, to, q, memo)
  }

  function Retire(l: Ledger, ctx: Context, q: Asset, memo: string): Result<Ledger> {
    var code := q.symbol.code;
    :- Check(code in ctx.codes, InvalidSymbol);
    :- Check(|memo| <= MAX_MEMO, MemoTooLong);
    :- Check(code in l.stats, NoSuchToken);
    var st := l.stats[code];
    :- Check(st.issuer in ctx.auth, MissingAuth);
    :- Check(ValidAsset(ctx, q), InvalidQuantity);
    :- Check(q.amount > 0, NotPositive);
    :- Check(q.symbol == st.supply.symbol, SymbolMismatch);
    Burn(l, q)
  }

  function Transfer(l: Ledger, ctx: Context, from: Name, to: Name, q: Asset, memo: string): Result<Ledger> {
    var code := q.symbol.code;
    :- Check(from != to, SelfTransfer);
    :- Check(from in ctx.auth, MissingAuth);
    :- Check(to in ctx.accounts, NoSuchAccount);
    :- Check(code in l.stats, NoSuchToken);
    :- Check(ValidAsset(ctx, q), InvalidQuantity);
    :- Check(q.amount > 0, NotPositive);
    :- Check(q.symbol == l.stats[code].supply.symbol, SymbolMismatch);
    :- Check(|memo| <= MAX_MEMO, MemoTooLong);
    var debited :- SubBalance(l, from, q);
    AddBalance(debited, to, q)
  }

  function Open(l: Ledger, ctx: Context, owner: Name, symbol: Symbol, ramPayer: Name): Result<Ledger> {
    var k := (owner, symbol.code);
    :- Check(ramPayer in ctx.auth, MissingAuth);
    :- Check(symbol.code in l.stats, NoSuchToken);
    :- Check(l.stats[symbol.code].supply.symbol == symbol, SymbolMismatch);
    if k in l.accounts then Ok(l) else Ok(l.(accounts := l.accounts[k := Asset(0, symbol)]))
  }

  function Close(l: Ledger, ctx: Context, owner: Name, symbol: Symbol): Result<Ledger> {
    var k := (owner, symbol.code);
    :- Check(owner in ctx.auth, MissingAuth);
    :- Check(k in l.accounts, NoBalance);
    :- Check(l.accounts[k].amount == 0, BalanceNotZero);
    Ok(l.(accounts := l.accounts - {k}))
  }

  datatype TokenAction =
    | CreateAction(issuer: Name, maximum: Asset)
    | IssueAction(to: Name, quantity: Asset, memo: string)
    | RetireAction(quantity: Asset, memo: string)
    | TransferAction(from: Name, recipient: Name, quantity: Asset, memo: string)
    | OpenAction(owner: Name, symbol: Symbol, ramPayer: Name)
    | CloseAction(owner: Name, symbol: Symbol)

  function Act(l: Ledger, ctx: Context, a: TokenAction): Result<Ledger> {
    match a
    case CreateAction(issuer, maximum) => Create(l, ctx, issuer, maximum)
    case IssueAction(to, q, memo) => Issue(l, ctx, to, q, memo)
    case RetireAction(q, memo) => Retire(l, ctx, q, memo)
    case TransferAction(from, to, q, memo) => Transfer(l, ctx, from, to, q, memo)
    case OpenAction(owner, symbol, payer) => Open(l, ctx, owner, symbol, payer)
    case CloseAction(owner, symbol) => Close(l, ctx, owner, symbol)
  }

  // ---------------------------------------------------------------------------------------------
  // The ledger invariant

  function OfCode(code: nat): ((Name, nat)) -> bool {
    (k: (Name, nat)) => k.1 == code
  }

  function Amounts(accounts: map<(Name, nat), Asset>): map<(Name, nat), int> {
    map k | k in accounts :: accounts[k].amount
  }

  /** What all holders of a token own together. */
  ghost function Holdings(l: Ledger, code: nat): int {
    SumWhere(Amounts(l.accounts), OfCode(code))
  }

  function BalanceOf(l: Ledger, owner: Name, code: nat): int {
    if (owner, code) in l.accounts then l.accounts[(owner, code)].amount else 0
  }

  ghost predicate StatOk(code: nat, st: Stat) {
    && st.supply.symbol == st.maxSupply.symbol
    && st.supply.symbol.code == code
    && 0 <= st.supply.amount <= st.maxSupply.amount <= MAX_AMOUNT
  }

  ghost predicate RowsOk(l: Ledger) {
    && (forall code :: code in l.stats ==> StatOk(code, l.stats[code]))
    && (forall k :: k in l.accounts ==>
         && k.1 in l.stats
         && l.accounts[k].symbol == l.stats[k.1].supply.symbol
         && 0 <= l.accounts[k].amount)
  }

  /** Every row is well formed, and for every token the balances add up to the supply. */
  ghost predicate LedgerInv(l: Ledger) {
    && RowsOk(l)
    && forall code :: code in l.stats ==> Holdings(l, code) == l.stats[code].supply.amount
  }

  /** A created token stays, with its symbol, cap and issuer; only its supply changes. */
  ghost predicate KeepsTokens(stats: map<nat, Stat>, stats': map<nat, Stat>) {
    && stats.Keys <= stats'.Keys
    && forall code :: code in stats ==>
         && stats'[code].supply.symbol == stats[code].supply.symbol
         && stats'[code].maxSupply == stats[code].maxSupply
         && stats'[code].issuer == stats[code].issuer
  }

  function SupplyOf(l: Ledger, code: nat): int {
    if code in l.stats then l.stats[code].supply.amount else 0
  }

  /** The supply of one token differs by `d`, and no other supply differs. */
  ghost predicate Grows(l: Ledger, l': Ledger, code: nat, d: int) {
    forall c: nat :: SupplyOf(l', c) == SupplyOf(l, c) + if c == code then d else 0
  }

  /** The balance of one owner in one token differs by `d`, and no other balance differs. */
  ghost predicate Adds(l: Ledger, l': Ledger, owner: Name, code: nat, d: int) {
    forall o: Name, c: nat :: BalanceOf(l', o, c) == BalanceOf(l, o, c) + if o == owner && c == code then d else 0
  }

  /** One balance row written: only its own token's holdings move. */
  lemma HoldingsPut(l: Ledger, k: (Name, nat), a: Asset, code: nat)
    ensures Holdings(l.(accounts := l.accounts[k := a]), code)
         == Holdings(l, code) + if k.1 == code then a.amount - BalanceOf(l, k.0, k.1) else 0
  {
    assert Amounts(l.accounts[k := a]) == Amounts(l.accounts)[k := a.amount];
    SumWherePut(Amounts(l.accounts), k, a.amount, OfCode(code));
  }

  lemma HoldingsOnlyAccounts(l: Ledger, l': Ledger, code: nat)
    requires l.accounts == l'.accounts
    ensures Holdings(l, code) == Holdings(l', code)
  {
  }

  lemma HoldingsDrop(l: Ledger, k: (Name, nat), code: nat)
    ensures Holdings(l.(accounts := l.accounts - {k}), code)
         == Holdings(l, code) - if k.1 == code then BalanceOf(l, k.0, k.1) else 0
  {
    assert Amounts(l.accounts - {k}) == Amounts(l.accounts) - {k};
    SumWhereDrop(Amounts(l.accounts), k, OfCode(code));
  }

  /** Balances are never negative and never exceed what all holders own together. */
  lemma BalanceWithinHoldings(l: Ledger, owner: Name, code: nat)
    requires RowsOk(l)
    ensures 0 <= BalanceOf(l, owner, code) <= Holdings(l, code)
  {
    SumWhereBounds(Amounts(l.accounts), OfCode(code), (owner, code));
  }

  /** A token nobody has created has no balance rows. */
  lemma NoStatNoHoldings(l: Ledger, code: nat)
    requires RowsOk(l) && code !in l.stats
    ensures Holdings(l, code) == 0
  {
    assert Slice(Amounts(l.accounts), OfCode(code)) == map[];
  }

  /** Debiting takes exactly the quantity out of the holdings, and aborts only for lack of balance. */
  lemma SubBalanceEffect(l: Ledger, owner: Name, q: Asset)
    requires RowsOk(l) && q.symbol.code in l.stats && q.symbol == l.stats[q.symbol.code].supply.symbol
    requires 0 < q.amount && InRange(q.amount) && Holdings(l, q.symbol.code) <= MAX_AMOUNT
    ensures SubBalance(l, owner, q).Ok? <==> q.amount <= BalanceOf(l, owner, q.symbol.code)
    ensures SubBalance(l, owner, q).Ok? ==>
              var l' := SubBalance(l, owner, q).value;
              && RowsOk(l') && l'.stats == l.stats
              && Adds(l, l', owner, q.symbol.code, 0 - q.amount)
              && forall code :: Holdings(l', code) == Holdings(l, code) - if code == q.symbol.code then q.amount else 0
    ensures SubBalance(l, owner, q).Abort? ==> SubBalance(l, owner, q).error in {NoBalance, Overdrawn}
  {
    hide Holdings;
    var code := q.symbol.code;
    BalanceWithinHoldings(l, owner, code);
    if q.amount <= BalanceOf(l, owner, code) {
      var row := Asset(l.accounts[(owner, code)].amount - q.amount, q.symbol);
      forall c { HoldingsPut(l, (owner, code), row, c); }
    }
  }

  /** Crediting never aborts while the token's holdings stay within the asset range. */
  lemma AddBalanceEffect(l: Ledger, owner: Name, q: Asset)
    requires RowsOk(l) && q.symbol.code in l.stats && q.symbol == l.stats[q.symbol.code].supply.symbol
    requires 0 < q.amount && Holdings(l, q.symbol.code) + q.amount <= MAX_AMOUNT
    ensures AddBalance(l, owner, q).Ok?
    ensures var l' := AddBalance(l, owner, q).value;
            && RowsOk(l') && l'.stats == l.stats
            && Adds(l, l', owner, q.symbol.code, q.amount)
            && forall code :: Holdings(l', code) == Holdings(l, code) + if code == q.symbol.code then q.amount else 0
  {
    hide Holdings;
    var code := q.symbol.code;
    BalanceWithinHoldings(l, owner, code);
    var row := Asset(BalanceOf(l, owner, code) + q.amount, q.symbol);
    forall c { HoldingsPut(l, (owner, code), row, c); }
  }

  /** The checks of a transfer; the range check of asset arithmetic is not among them. */
  predicate TransferError(e: Error) {
    e in {SelfTransfer, MissingAuth, NoSuchAccount, NoSuchToken, InvalidQuantity, NotPositive, SymbolMismatch,
          MemoTooLong, NoBalance, Overdrawn}
  }

  /** A transfer keeps the ledger consistent, moves exactly the quantity, touches no other balance, and
      the only balance check that can fire is the payer's: the range check on the credit cannot. */
  lemma TransferEffect(l: Ledger, ctx: Context, from: Name, to: Name, q: Asset, memo: string)
    requires LedgerInv(l)
    ensures var r := Transfer(l, ctx, from, to, q, memo);
            && (r.Ok? <==>
                 && from != to && from in ctx.auth && to in ctx.accounts
                 && q.symbol.code in l.stats && ValidAsset(ctx, q) && 0 < q.amount
                 && q.symbol == l.stats[q.symbol.code].supply.symbol && |memo| <= 256
                 && q.amount <= BalanceOf(l, from, q.symbol.code))
            && (r.Abort? ==> TransferError(r.error))
            && (r.Ok? ==>
                 && LedgerInv(r.value) && r.value.stats == l.stats
                 && MovesAsStated(l, r.value, TransferAction(from, to, q, memo)))
  {
    hide Holdings, SubBalance, AddBalance;
    var code := q.symbol.code;
    if && from != to && from in ctx.auth && to in ctx.accounts && code in l.stats && ValidAsset(ctx, q)
       && 0 < q.amount && q.symbol == l.stats[code].supply.symbol && |memo| <= MAX_MEMO
    {
      SubBalanceEffect(l, from, q);
      if SubBalance(l, from, q).Ok? {
        AddBalanceEffect(SubBalance(l, from, q).value, to, q);
      }
    }
  }

  lemma WithSupplyFrame(l: Ledger, code: nat, supply: Asset)
    requires RowsOk(l) && code in l.stats && supply.symbol == l.stats[code].supply.symbol
    requires 0 <= supply.amount <= l.stats[code].maxSupply.amount
    ensures var l' := WithSupply(l, code, supply);
            && RowsOk(l') && KeepsTokens(l.stats, l'.stats)
            && l'.stats.Keys == l.stats.Keys && Grows(l, l', code, supply.amount - l.stats[code].supply.amount)
            && (forall c :: Holdings(l', c) == Holdings(l, c))
            && forall o: Name, c: nat :: BalanceOf(l', o, c) == BalanceOf(l, o, c)
  {
    hide Holdings;
    var l' := WithSupply(l, code, supply);
    forall c { HoldingsOnlyAccounts(l, l', c); }
  }

  /** Supply and holdings that moved by the same quantity still agree. */
  lemma MintEffect(l: Ledger, q: Asset)
    requires LedgerInv(l) && q.symbol.code in l.stats && q.symbol == l.stats[q.symbol.code].supply.symbol
    requires 0 < q.amount <= l.stats[q.symbol.code].maxSupply.amount - l.stats[q.symbol.code].supply.amount
    ensures Mint(l, q).Ok?
    ensures var l' := Mint(l, q).value;
            && LedgerInv(l') && KeepsTokens(l.stats, l'.stats)
            && l'.stats.Keys == l.stats.Keys && Grows(l, l', q.symbol.code, q.amount)
            && Adds(l, l', l.stats[q.symbol.code].issuer, q.symbol.code, q.amount)
  {
    hide Holdings, RowsOk, AddBalance;
    StatBounds(l, q.symbol.code);
    var st := l.stats[q.symbol.code];
    var supply := Asset(st.supply.amount + q.amount, q.symbol);
    WithSupplyFrame(l, q.symbol.code, supply);
    AddBalanceEffect(WithSupply(l, q.symbol.code, supply), st.issuer, q);
  }

  /** The supply goes down before the balance is looked at. Because the issuer never holds more than the
      supply, a quantity above the supply always aborts on the balance. */
  lemma BurnEffect(l: Ledger, q: Asset)
    requires LedgerInv(l) && q.symbol.code in l.stats && q.symbol == l.stats[q.symbol.code].supply.symbol
    requires 0 < q.amount && InRange(q.amount)
    ensures Burn(l, q).Ok? <==> q.amount <= BalanceOf(l, l.stats[q.symbol.code].issuer, q.symbol.code)
    ensures Burn(l, q).Abort? ==> Burn(l, q).error in {NoBalance, Overdrawn}
    ensures Burn(l, q).Ok? ==>
              var l' := Burn(l, q).value;
              && LedgerInv(l') && KeepsTokens(l.stats, l'.stats)
              && l'.stats.Keys == l.stats.Keys && Grows(l, l', q.symbol.code, 0 - q.amount)
              && Adds(l, l', l.stats[q.symbol.code].issuer, q.symbol.code, 0 - q.amount)
  {
    hide Holdings, RowsOk;
    StatBounds(l, q.symbol.code);
    var st := l.stats[q.symbol.code];
    BalanceWithinHoldings(l, st.issuer, q.symbol.code);
    if q.amount <= BalanceOf(l, st.issuer, q.symbol.code) {
      var supply := Asset(st.supply.amount - q.amount, q.symbol);
      WithSupplyFrame(l, q.symbol.code, supply);
      SubBalanceEffect(WithSupply(l, q.symbol.code, supply), st.issuer, q);
    }
  }

  /** What `issue` and `retire` ask of a quantity before they touch a table: a created token with that very
      symbol, the signature of its issuer, a valid positive quantity, and a memo that fits. */
  ghost predicate Authorised(l: Ledger, ctx: Context, q: Asset, memo: string) {
    && q.symbol.code in ctx.codes && q.symbol.code in l.stats
    && q.symbol == l.stats[q.symbol.code].supply.symbol
    && l.stats[q.symbol.code].issuer in ctx.auth
    && 0 < q.amount < 0x4000_0000_0000_0000 && |memo| <= 256
  }

  /** Issuing goes through exactly for the token's issuer, within the cap, to an existing account or to the
      issuer. It raises that supply and the recipient's balance and nothing else; no range check fires. */
  lemma IssueEffect(l: Ledger, ctx: Context, to: Name, q: Asset, memo: string)
    requires LedgerInv(l)
    ensures var r := Issue(l, ctx, to, q, memo);
            && (r.Ok? <==>
                 && Authorised(l, ctx, q, memo)
                 && q.amount <= l.stats[q.symbol.code].maxSupply.amount - l.stats[q.symbol.code].supply.amount
                 && (to == l.stats[q.symbol.code].issuer || to in ctx.accounts))
            && (r.Abort? ==> r.error != AssetRange)
            && (r.Ok? ==>
                 && LedgerInv(r.value) && KeepsTokens(l.stats, r.value.stats)
                 && r.value.stats.Keys == l.stats.Keys && Grows(l, r.value, q.symbol.code, q.amount)
                 && MovesAsStated(l, r.value, IssueAction(to, q, memo)))
  {
    hide Holdings, RowsOk, Mint, Transfer;
    var code := q.symbol.code;
    if && code in ctx.codes && code in l.stats && l.stats[code].issuer in ctx.auth && ValidAsset(ctx, q) && 0 < q.amount
       && q.symbol == l.stats[code].supply.symbol
       && q.amount <= l.stats[code].maxSupply.amount - l.stats[code].supply.amount
    {
      MintEffect(l, q);
      BalanceWithinSupply(l, l.stats[code].issuer, code);
      TransferEffect(Mint(l, q).value, ctx.(auth := {l.stats[code].issuer}), l.stats[code].issuer, to, q, memo);
    }
  }

  lemma StatBounds(l: Ledger, code: nat)
    requires RowsOk(l) && code in l.stats
    ensures StatOk(code, l.stats[code])
  {
  }

  /** Retiring goes through exactly for the token's issuer, out of the issuer's own balance. It lowers that
      supply and that balance and nothing else; no range check fires. */
  lemma RetireEffect(l: Ledger, ctx: Context, q: Asset, memo: string)
    requires LedgerInv(l)
    ensures var r := Retire(l, ctx, q, memo);
            && (r.Ok? <==>
                 && Authorised(l, ctx, q, memo)
                 && q.amount <= BalanceOf(l, l.stats[q.symbol.code].issuer, q.symbol.code))
            && (r.Abort? ==> r.error != AssetRange)
            && (r.Ok? ==>
                 && LedgerInv(r.value) && KeepsTokens(l.stats, r.value.stats)
                 && r.value.stats.Keys == l.stats.Keys && Grows(l, r.value, q.symbol.code, 0 - q.amount)
                 && MovesAsStated(l, r.value, RetireAction(q, memo)))
  {
    hide Holdings, RowsOk, Burn;
    var code := q.symbol.code;
    if && code in ctx.codes && code in l.stats && l.stats[code].issuer in ctx.auth && ValidAsset(ctx, q) && 0 < q.amount
       && q.symbol == l.stats[code].supply.symbol
    {
      BurnEffect(l, q);
    }
  }

  /** How much a committed action adds to the balance of `owner` in the token `code`. */
  function Moved(l: Ledger, a: TokenAction, owner: Name, code: nat): int {
    match a
    case IssueAction(to, q, _) => if code == q.symbol.code && owner == to then q.amount else 0
    case RetireAction(q, _) =>
      if code == q.symbol.code && code in l.stats && owner == l.stats[code].issuer then 0 - q.amount as int else 0
    case TransferAction(from, to, q, _) =>
      if code != q.symbol.code then 0
      else if owner == from then 0 - q.amount as int
      else if owner == to then q.amount
      else 0
    case _ => 0
  }

  /** How much a committed action adds to the supply of the token `code`. */
  function Minted(a: TokenAction, code: nat): int {
    match a
    case IssueAction(_, q, _) => if code == q.symbol.code then q.amount else 0
    case RetireAction(q, _) => if code == q.symbol.code then 0 - q.amount as int else 0
    case _ => 0
  }

  ghost predicate MintsAsStated(l: Ledger, l': Ledger, a: TokenAction) {
    forall code: nat :: SupplyOf(l', code) == SupplyOf(l, code) + Minted(a, code)
  }

  ghost predicate MovesAsStated(l: Ledger, l': Ledger, a: TokenAction) {
    forall o: Name, code: nat :: BalanceOf(l', o, code) == BalanceOf(l, o, code) + Moved(l, a, o, code)
  }

  /** Every token action keeps the ledger consistent, moves exactly the stated amounts, and never runs
      into the range check of asset arithmetic. */
  lemma ActEffect(l: Ledger, ctx: Context, a: TokenAction)
    requires LedgerInv(l)
    ensures var r := Act(l, ctx, a);
            && (r.Abort? ==> r.error != AssetRange)
            && (r.Ok? ==>
                 && LedgerInv(r.value) && KeepsTokens(l.stats, r.value.stats)
                 && MovesAsStated(l, r.value, a) && MintsAsStated(l, r.value, a))
  {
    hide Holdings, LedgerInv, Issue, Retire, Transfer, Create, Open, Close;
    match a
    case CreateAction(issuer, maximum) => CreateEffect(l, ctx, issuer, maximum);
    case IssueAction(to, q, memo) => IssueEffect(l, ctx, to, q, memo);
    case RetireAction(q, memo) => RetireEffect(l, ctx, q, memo);
    case TransferAction(from, to, q, memo) => TransferEffect(l, ctx, from, to, q, memo);
    case OpenAction(owner, symbol, payer) => OpenEffect(l, ctx, owner, symbol, payer);
    case CloseAction(owner, symbol) => CloseEffect(l, ctx, owner, symbol);
  }

  /** Opening goes through exactly for an existing token with that very symbol. Afterwards the row is there;
      no balance and no total moves. */
  lemma OpenEffect(l: Ledger, ctx: Context, owner: Name, symbol: Symbol, payer: Name)
    requires LedgerInv(l)
    ensures var r := Open(l, ctx, owner, symbol, payer);
            && (r.Ok? <==>
                 payer in ctx.auth && symbol.code in l.stats && l.stats[symbol.code].supply.symbol == symbol)
            && (r.Abort? ==> r.error != AssetRange)
            && (r.Ok? ==>
                 && LedgerInv(r.value) && r.value.stats == l.stats
                 && r.value.accounts.Keys == l.accounts.Keys + {(owner, symbol.code)}
                 && MovesAsStated(l, r.value, OpenAction(owner, symbol, payer)))
  {
    hide Holdings;
    forall c: nat ensures Holdings(l.(accounts := l.accounts[(owner, symbol.code) := Asset(0, symbol)]), c)
         == Holdings(l, c) + if symbol.code == c then -BalanceOf(l, owner, symbol.code) else 0
    {
      HoldingsPut(l, (owner, symbol.code), Asset(0, symbol), c);
    }
  }

  /** Closing goes through exactly for the owner of a row at balance zero. Afterwards the row is gone; no
      balance and no total moves. */
  lemma CloseEffect(l: Ledger, ctx: Context, owner: Name, symbol: Symbol)
    requires LedgerInv(l)
    ensures var r := Close(l, ctx, owner, symbol);
            && (r.Ok? <==>
                 && owner in ctx.auth && (owner, symbol.code) in l.accounts
                 && BalanceOf(l, owner, symbol.code) == 0)
            && (r.Abort? ==> r.error != AssetRange)
            && (r.Ok? ==>
                 && LedgerInv(r.value) && r.value.stats == l.stats
                 && r.value.accounts.Keys == l.accounts.Keys - {(owner, symbol.code)}
                 && MovesAsStated(l, r.value, CloseAction(owner, symbol)))
  {
    hide Holdings;
    forall c: nat ensures Holdings(l.(accounts := l.accounts - {(owner, symbol.code)}), c)
         == Holdings(l, c) - if symbol.code == c then BalanceOf(l, owner, symbol.code) else 0
    {
      HoldingsDrop(l, (owner, symbol.code), c);
    }
  }

  /** Creating goes through exactly for the token contract itself, for a valid positive cap and a code without
      a token. The new token has that cap and issuer and no supply; no other token and no balance changes. */
  lemma CreateEffect(l: Ledger, ctx: Context, issuer: Name, maximum: Asset)
    requires LedgerInv(l)
    ensures var r := Create(l, ctx, issuer, maximum);
            var code := maximum.symbol.code;
            && (r.Ok? <==>
                 && TOKEN in ctx.auth && code in ctx.codes && code !in l.stats
                 && 0 < maximum.amount < 0x4000_0000_0000_0000)
            && (r.Abort? ==> r.error != AssetRange)
            && (r.Ok? ==>
                 && LedgerInv(r.value) && KeepsTokens(l.stats, r.value.stats) && r.value.accounts == l.accounts
                 && r.value.stats.Keys == l.stats.Keys + {code}
                 && r.value.stats[code].maxSupply == maximum && r.value.stats[code].issuer == issuer
                 && r.value.stats[code].supply.symbol == maximum.symbol
                 && Grows(l, r.value, code, 0))
  {
    hide Holdings;
    if Create(l, ctx, issuer, maximum).Ok? {
      NoStatNoHoldings(l, maximum.symbol.code);
      forall c { HoldingsOnlyAccounts(l, Create(l, ctx, issuer, maximum).value, c); }
    }
  }

  /** A holder's balance lies between zero and the supply, and the supply within its cap. */
  lemma BalanceWithinSupply(l: Ledger, owner: Name, code: nat)
    requires LedgerInv(l)
    ensures 0 <= BalanceOf(l, owner, code)
    ensures code in l.stats ==>
            BalanceOf(l, owner, code) <= l.stats[code].supply.amount
            <= l.stats[code].maxSupply.amount <= MAX_AMOUNT
    ensures code !in l.stats ==> BalanceOf(l, owner, code) == 0
  {
    BalanceWithinHoldings(l, owner, code);
  }
}
