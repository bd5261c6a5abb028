/** The token contract as an object that updates its tables in place. */
module TokenContract {
  import opened Base
  import opened TokenLedger

  class Token {
    var stats: map<nat, Stat>
    var accounts: map<(Name, nat), Asset>

    constructor ()
      ensures View() == Ledger(map[], map[])
    {
      stats, accounts := map[], map[];
    }

    function View(): Ledger
      reads this
    {
      Ledger(stats, accounts)
    }

    method SubBalance(owner: Name, value: Asset) returns (r: Outcome)
      modifies this`accounts
      ensures Settles(old(View()), r, View(), TokenLedger.SubBalance(old(View()), owner, value))
    {
      var k := (owner, value.symbol.code);
      if k !in accounts { return Aborted(NoBalance); }
      if accounts[k].amount < value.amount { return Aborted(Overdrawn); }
      var balance := Minus(accounts[k], value);
      if balance.Abort? { return Aborted(balance.error); }
      accounts := accounts[k := balance.value];
      return Committed;
    }

    method AddBalance(owner: Name, value: Asset) returns (r: Outcome)
      modifies this`accounts
      ensures Settles(old(View()), r, View(), TokenLedger.AddBalance(old(View()), owner, value))
    {
      var k := (owner, value.symbol.code);
      if k !in accounts {
        accounts := accounts[k := value];
      } else {
        var balance := Plus(accounts[k], value);
        if balance.Abort? { return Aborted(balance.error); }
        accounts := accounts[k := balance.value];
      }
      return Committed;
    }

    method Create(ctx: Context, issuer: Name, maximum: Asset) returns (r: Outcome)
      modifies this
      ensures Settles(old(View()), r, View(), TokenLedger.Create(old(View()), ctx, issuer, maximum))
    {
      var code := maximum.symbol.code;
      if TOKEN !in ctx.auth { return Aborted(MissingAuth); }
      if code !in ctx.codes { return Aborted(InvalidSymbol); }
      if !ValidAsset(ctx, maximum) { return Aborted(InvalidQuantity); }
      if maximum.amount <= 0 { return Aborted(NotPositive); }
      if code in stats { return Aborted(TokenExists); }
      stats := stats[code := Stat(Asset(0, maximum.symbol), maximum, issuer)];
      return Committed;
    }

    method Issue(ctx: Context, to: Name, quantity: Asset, memo: string) returns (r: Outcome)
      modifies this
      ensures Settles(old(View()), r, View(), TokenLedger.Issue(old(View()), ctx, to, quantity, memo))
    {
      var code := quantity.symbol.code;
      if code !in ctx.codes { return Aborted(InvalidSymbol); }
      if MAX_MEMO < |memo| { return Aborted(MemoTooLong); }
      if code !in stats { return Aborted(NoSuchToken); }
      var st := stats[code];
      if st.issuer !in ctx.auth { return Aborted(MissingAuth); }
      if !ValidAsset(ctx, quantity) { return Aborted(InvalidQuantity); }
      if quantity.amount <= 0 { return Aborted(NotPositive); }
      if quantity.symbol != st.supply.symbol { return Aborted(SymbolMismatch); }
      if st.maxSupply.amount as int - st.supply.amount as int < quantity.amount { return Aborted(SupplyExceeded); }
      var saved := (stats, accounts);
      var supply := Plus(st.supply, quantity);
      if supply.Abort? { return Aborted(supply.error); }
      stats := stats[code := st.(supply := supply.value)];
      r := AddBalance(st.issuer, quantity);
      if r.Committed? && to != st.issuer {
        r := Transfer(ctx.(auth := {st.issuer}), st.issuer, to, quantity, memo);
      }
      if r.Aborted? { stats, accounts := saved.0, saved.1; }
    }

    method Retire(ctx: Context, quantity: Asset, memo: string) returns (r: Outcome)
      modifies this
      ensures Settles(old(View()), r, View(), TokenLedger.Retire(old(View()), ctx, quantity, memo))
    {
      var code := quantity.symbol.code;
      if code !in ctx.codes { return Aborted(InvalidSymbol); }
      if MAX_MEMO < |memo| { return Aborted(MemoTooLong); }
      if code !in stats { return Aborted(NoSuchToken); }
      var st := stats[code];
      if st.issuer !in ctx.auth { return Aborted(MissingAuth); }
      if !ValidAsset(ctx, quantity) { return Aborted(InvalidQuantity); }
      if quantity.amount <= 0 { return Aborted(NotPositive); }
      if quantity.symbol != st.supply.symbol { return Aborted(SymbolMismatch); }
      var saved := stats;
      var supply := Minus(st.supply, quantity);
      if supply.Abort? { return Aborted(supply.error); }
      stats := stats[code := st.(supply := supply.value)];
      r := SubBalance(st.issuer, quantity);
      if r.Aborted? { stats := saved; }
    }

    method Transfer(ctx: Context, from: Name, to: Name, quantity: Asset, memo: string) returns (r: Outcome)
      modifies this`accounts
      ensures Settles(old(View()), r, View(), TokenLedger.Transfer(old(View()), ctx, from, to, quantity, memo))
    {
      var code := quantity.symbol.code;
      if from == to { return Aborted(SelfTransfer); }
      if from !in ctx.auth { return Aborted(MissingAuth); }
      if to !in ctx.accounts { return Aborted(NoSuchAccount); }
      if code !in stats { return Aborted(NoSuchToken); }
      if !ValidAsset(ctx, quantity) { return Aborted(InvalidQuantity); }
      if quantity.amount <= 0 { return Aborted(NotPositive); }
      if quantity.symbol != stats[code].supply.symbol { return Aborted(SymbolMismatch); }
      if MAX_MEMO < |memo| { return Aborted(MemoTooLong); }
      var saved := accounts;
      r := SubBalance(from, quantity);
      if r.Committed? {
        r := AddBalance(to, quantity);
      }
      if r.Aborted? { accounts := saved; }
    }

    method Open(ctx: Context, owner: Name, symbol: Symbol, ramPayer: Name) returns (r: Outcome)
      modifies this`accounts
      ensures Settles(old(View()), r, View(), TokenLedger.Open(old(View()), ctx, owner, symbol, ramPayer))
    {
      if ramPayer !in ctx.auth { return Aborted(MissingAuth); }
      if symbol.code !in stats { return Aborted(NoSuchToken); }
      if stats[symbol.code].supply.symbol != symbol { return Aborted(SymbolMismatch); }
      if (owner, symbol.code) !in accounts {
        accounts := accounts[(owner, symbol.code) := Asset(0, symbol)];
      }
      return Committed;
    }

    method Close(ctx: Context, owner: Name, symbol: Symbol) returns (r: Outcome)
      modifies this`accounts
      ensures Settles(old(View()), r, View(), TokenLedger.Close(old(View()), ctx, owner, symbol))
    {
      var k := (owner, symbol.code);
      if owner !in ctx.auth { return Aborted(MissingAuth); }
      if k !in accounts { return Aborted(NoBalance); }
      if accounts[k].amount != 0 { return Aborted(BalanceNotZero); }
      accounts := accounts - {k};
      return Committed;
    }

    /** The contract's dispatcher: every action, by name. */
    method Dispatch(ctx: Context, a: TokenAction) returns (r: Outcome)
      modifies this
      ensures Settles(old(View()), r, View(), Act(old(View()), ctx, a))
    {
      match a
      case CreateAction(issuer, maximum) => r := Create(ctx, issuer, maximum);
      case IssueAction(to, quantity, memo) => r := Issue(ctx, to, quantity, memo);
      case RetireAction(quantity, memo) => r := Retire(ctx, quantity, memo);
      case TransferAction(from, to, quantity, memo) => r := Transfer(ctx, from, to, quantity, memo);
      case OpenAction(owner, symbol, ramPayer) => r := Open(ctx, owner, symbol, ramPayer);
      case CloseAction(owner, symbol) => r := Close(ctx, owner, symbol);
    }
  }
}
