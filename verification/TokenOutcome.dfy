/** When symbols and rows are created and removed, and what the table holds afterwards. */
module TokenOutcome {
  import opened Base
  import opened Ledger

  /** One to seven capital letters and at most 18 decimals. */
  ghost predicate WellFormedSymbol(s: Symbol)
  {
    && 1 <= |s.code| <= 7 && s.precision <= 18
    && forall i :: 0 <= i < |s.code| ==> s.code[i] in "ABCDEFGHIJKLMNOPQRSTUVWXYZ"
  }

  lemma ValidMeansWellFormed(s: Symbol)
    ensures ValidSymbol(s) <==> WellFormedSymbol(s)
  {
    forall i | 0 <= i < |s.code| ensures 'A' <= s.code[i] <= 'Z' <==> s.code[i] in "ABCDEFGHIJKLMNOPQRSTUVWXYZ" {
      Capital(s.code[i]);
    }
  }

  lemma Capital(c: char)
    ensures 'A' <= c <= 'Z' <==> c in "ABCDEFGHIJKLMNOPQRSTUVWXYZ"
  {
    var letters := "ABCDEFGHIJKLMNOPQRSTUVWXYZ";
    assert forall i :: 0 <= i < 26 ==> letters[i] as int == 'A' as int + i;
    if 'A' <= c <= 'Z' { assert letters[c as int - 'A' as int] == c; }
  }

  /** A symbol is created once, by the token contract, with the issuer and the positive 62-bit maximum given. */
  lemma CreateOutcome(l: Ledger, auth: set<Name>, issuer: Name, maxSupply: Asset)
    ensures Create(l, auth, issuer, maxSupply).Some? <==>
            && EOSIO_TOKEN in auth && WellFormedSymbol(maxSupply.symbol)
            && 0 < maxSupply.amount < 0x4000_0000_0000_0000 && maxSupply.symbol.code !in l.stats
    ensures Create(l, auth, issuer, maxSupply).Some? ==>
            var l', code := Create(l, auth, issuer, maxSupply).value, maxSupply.symbol.code;
            && l'.stats.Keys == l.stats.Keys + {code} && l'.balances == l.balances
            && l'.stats[code].issuer == issuer && l'.stats[code].maxSupply == maxSupply
            && l'.stats[code].supply == Asset(0, maxSupply.symbol)
            && (forall other :: other in l.stats ==> l'.stats[other] == l.stats[other])
  {
    ValidMeansWellFormed(maxSupply.symbol);
  }

  /** Open leaves a row of the exact symbol, empty if it is new; nothing else changes. */
  lemma OpenOutcome(l: Ledger, accounts: set<Name>, auth: set<Name>, owner: Name, symbol: Symbol, payer: Name)
    ensures Open(l, accounts, auth, owner, symbol, payer).Some? <==>
            && payer in auth && owner in accounts
            && symbol.code in l.stats && l.stats[symbol.code].supply.symbol == symbol
    ensures Open(l, accounts, auth, owner, symbol, payer).Some? ==>
            var l', row := Open(l, accounts, auth, owner, symbol, payer).value, (owner, symbol.code);
            && l'.stats == l.stats && l'.balances.Keys == l.balances.Keys + {row}
            && (row !in l.balances ==> l'.balances[row] == Asset(0, symbol))
            && (forall other :: other in l.balances ==> l'.balances[other] == l.balances[other])
  {
  }

  /** Close removes an empty row of its owner and nothing else. */
  lemma CloseOutcome(l: Ledger, auth: set<Name>, owner: Name, symbol: Symbol)
    ensures Close(l, auth, owner, symbol).Some? <==>
            owner in auth && (owner, symbol.code) in l.balances && l.balances[(owner, symbol.code)].amount == 0
    ensures Close(l, auth, owner, symbol).Some? ==>
            var l', row := Close(l, auth, owner, symbol).value, (owner, symbol.code);
            && l'.stats == l.stats && l'.balances.Keys == l.balances.Keys - {row}
            && (forall other :: other in l'.balances ==> l'.balances[other] == l.balances[other])
  {
  }

  /** A row opened fresh can be closed again at once, and the ledger is as before. */
  lemma OpenThenClose(l: Ledger, accounts: set<Name>, auth: set<Name>, owner: Name, symbol: Symbol, payer: Name)
    requires Open(l, accounts, auth, owner, symbol, payer).Some? && (owner, symbol.code) !in l.balances
    ensures Close(Open(l, accounts, auth, owner, symbol, payer).value, {owner}, owner, symbol) == Some(l)
  {
    var row := (owner, symbol.code);
    assert l.balances[row := Asset(0, symbol)] - {row} == l.balances;
  }
}
