/** eosio.token: the contract object, its tables updated in place. */
module TokenContract {
  import opened Base
  import L = Ledger

  class Token {
    var stats: map<L.Code, L.Stat>
    var balances: map<(Name, L.Code), L.Asset>

    function View(): L.Ledger
      reads this
    {
      L.Ledger(stats, balances)
    }

    constructor ()
      ensures View() == L.Ledger(map[], map[])
    {
      stats, balances := map[], map[];
    }

    /** The host puts the tables back when an action aborts. */
    method Restore(l: L.Ledger)
      modifies this
      ensures View() == l
    {
      stats, balances := l.stats, l.balances;
    }

    method Create(auth: set<Name>, issuer: Name, maxSupply: L.Asset) returns (ok: bool)
      modifies this
      ensures Committed(ok, old(View()), View(), L.Create(old(View()), auth, issuer, maxSupply))
    {
      var sym := maxSupply.symbol;
      if EOSIO_TOKEN !in auth || !L.ValidSymbol(sym) || !L.ValidAsset(maxSupply) || maxSupply.amount <= 0
         || sym.code in stats {
        return false;
      }
      stats := stats[sym.code := L.Stat(L.Asset(0, sym), maxSupply, issuer)];
      return true;
    }

    method SubBalance(owner: Name, value: L.Asset) returns (ok: bool)
      modifies this`balances
      ensures Committed(ok, old(View()), View(), L.SubBalance(old(View()), owner, value))
    {
      var row := (owner, value.symbol.code);
      if row !in balances || balances[row].amount < value.amount { return false; }
      var left := L.Minus(balances[row], value);
      if left.None? { return false; }
      balances := balances[row := left.value];
      return true;
    }

    method AddBalance(owner: Name, value: L.Asset) returns (ok: bool)
      modifies this`balances
      ensures Committed(ok, old(View()), View(), L.AddBalance(old(View()), owner, value))
    {
      var row := (owner, value.symbol.code);
      if row !in balances {
        balances := balances[row := value];
      } else {
        var total := L.Plus(balances[row], value);
        if total.None? { return false; }
        balances := balances[row := total.value];
      }
      return true;
    }

    method Issue(auth: set<Name>, to: Name, quantity: L.Asset, memo: string) returns (ok: bool)
      modifies this
      ensures Committed(ok, old(View()), View(), L.Issue(old(View()), auth, to, quantity, memo))
    {
      var code := quantity.symbol.code;
      if !L.ValidSymbol(quantity.symbol) || |memo| > 256 || code !in stats { return false; }
      var st := stats[code];
      if to != st.issuer || st.issuer !in auth || !L.ValidAsset(quantity) || quantity.amount <= 0
         || quantity.symbol != st.supply.symbol || quantity.amount > st.maxSupply.amount - st.supply.amount {
        return false;
      }
      var supply := L.Plus(st.supply, quantity);
      if supply.None? { return false; }
      var before := View();
      stats := stats[code := st.(supply := supply.value)];
      ok := AddBalance(st.issuer, quantity);
      if !ok { Restore(before); }
    }

    method Retire(auth: set<Name>, quantity: L.Asset, memo: string) returns (ok: bool)
      modifies this
      ensures Committed(ok, old(View()), View(), L.Retire(old(View()), auth, quantity, memo))
    {
      var code := quantity.symbol.code;
      if !L.ValidSymbol(quantity.symbol) || |memo| > 256 || code !in stats { return false; }
      var st := stats[code];
      if st.issuer !in auth || !L.ValidAsset(quantity) || quantity.amount <= 0 || quantity.symbol != st.supply.symbol {
        return false;
      }
      var supply := L.Minus(st.supply, quantity);
      if supply.None? { return false; }
      var before := View();
      stats := stats[code := st.(supply := supply.value)];
      ok := SubBalance(st.issuer, quantity);
      if !ok { Restore(before); }
    }

    method Transfer(accounts: set<Name>, auth: set<Name>, from: Name, to: Name, quantity: L.Asset, memo: string)
      returns (ok: bool)
      modifies this
      ensures Committed(ok, old(View()), View(), L.Transfer(old(View()), accounts, auth, from, to, quantity, memo))
    {
      var code := quantity.symbol.code;
      if from == to || from !in auth || to !in accounts || code !in stats { return false; }
      var st := stats[code];
      if !L.ValidAsset(quantity) || quantity.amount <= 0 || quantity.symbol != st.supply.symbol || |memo| > 256 {
        return false;
      }
      var before := View();
      ok := SubBalance(from, quantity);
      if ok { ok := AddBalance(to, quantity); }
      if !ok { Restore(before); }
    }

    method Open(accounts: set<Name>, auth: set<Name>, owner: Name, symbol: L.Symbol, payer: Name) returns (ok: bool)
      modifies this
      ensures Committed(ok, old(View()), View(), L.Open(old(View()), accounts, auth, owner, symbol, payer))
    {
      if payer !in auth || owner !in accounts || symbol.code !in stats || stats[symbol.code].supply.symbol != symbol {
        return false;
      }
      if (owner, symbol.code) !in balances {
        balances := balances[(owner, symbol.code) := L.Asset(0, symbol)];
      }
      return true;
    }

    method Close(auth: set<Name>, owner: Name, symbol: L.Symbol) returns (ok: bool)
      modifies this
      ensures Committed(ok, old(View()), View(), L.Close(old(View()), auth, owner, symbol))
    {
      var row := (owner, symbol.code);
      if owner !in auth || row !in balances || balances[row].amount != 0 { return false; }
      balances := balances - {row};
      return true;
    }
  }
}
