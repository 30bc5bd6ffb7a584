/** The token ledger: what each action of the token contract does to the stat and account tables. */
module Ledger {
  import opened Base
  import opened Sums

  type Code = string

  datatype Symbol = Symbol(code: Code, precision: nat)
  datatype Asset = Asset(amount: int, symbol: Symbol)
  datatype Stat = Stat(supply: Asset, maxSupply: Asset, issuer: Name)

  /** One stat row per symbol code; one account row per owner and symbol code. */
  datatype Ledger = Ledger(stats: map<Code, Stat>, balances: map<(Name, Code), Asset>)

  const MAX_AMOUNT: int := 0x3fff_ffff_ffff_ffff   // 2^62 - 1
  const CORE: Symbol := Symbol("LIBRE", 0)

  predicate ValidSymbol(s: Symbol)
  {
    && 0 < |s.code| <= 7
    && s.precision <= 18
    && forall i :: 0 <= i < |s.code| ==> 'A' <= s.code[i] <= 'Z'
  }

  predicate ValidAsset(a: Asset)
  {
    -MAX_AMOUNT <= a.amount <= MAX_AMOUNT && ValidSymbol(a.symbol)
  }

  /** The asset type's own `+=`: aborts on a symbol mismatch or a result outside 62 bits. */
  function Plus(a: Asset, b: Asset): Option<Asset>
  {
    if a.symbol != b.symbol then None else
    :- Check(-MAX_AMOUNT <= a.amount + b.amount <= MAX_AMOUNT);
    Some(a.(amount := a.amount + b.amount))
  }

  function Minus(a: Asset, b: Asset): Option<Asset>
  {
    Plus(a, b.(amount := -b.amount))
  }

  function SubBalance(l: Ledger, owner: Name, value: Asset): Option<Ledger>
  {
    var row := (owner, value.symbol.code);
    :- Check(row in l.balances);
    :- Check(l.balances[row].amount >= value.amount);
    var left :- Minus(l.balances[row], value);
    Some(l.(balances := l.balances[row := left]))
  }

  function AddBalance(l: Ledger, owner: Name, value: Asset): Option<Ledger>
  {
    var row := (owner, value.symbol.code);
    if row !in l.balances then Some(l.(balances := l.balances[row := value])) else
    var total :- Plus(l.balances[row], value);
    Some(l.(balances := l.balances[row := total]))
  }

  function Create(l: Ledger, auth: set<Name>, issuer: Name, maxSupply: Asset): Option<Ledger>
  {
    if EOSIO_TOKEN !in auth then None else
    :- Check(ValidSymbol(maxSupply.symbol) && ValidAsset(maxSupply) && maxSupply.amount > 0);
    :- Check(maxSupply.symbol.code !in l.stats);
    Some(l.(stats := l.stats[maxSupply.symbol.code := Stat(Asset(0, maxSupply.symbol), maxSupply, issuer)]))
  }

  function Issue(l: Ledger, auth: set<Name>, to: Name, quantity: Asset, memo: string): Option<Ledger>
  {
    var code := quantity.symbol.code;
    :- Check(ValidSymbol(quantity.symbol) && |memo| <= 256);
    :- Check(code in l.stats);
    var st := l.stats[code];
    :- Check(to == st.issuer && st.issuer in auth);
    :- Check(ValidAsset(quantity) && quantity.amount > 0);
    :- Check(quantity.symbol == st.supply.symbol);
    :- Check(quantity.amount <= st.maxSupply.amount - st.supply.amount);
    var supply :- Plus(st.supply, quantity);
    AddBalance(l.(stats := l.stats[code := st.(supply := supply)]), st.issuer, quantity)
  }

  function Retire(l: Ledger, auth: set<Name>, quantity: Asset, memo: string): Option<Ledger>
  {
    var code := quantity.symbol.code;
    :- Check(ValidSymbol(quantity.symbol) && |memo| <= 256);
    :- Check(code in l.stats);
    var st := l.stats[code];
    :- Check(st.issuer in auth);
    :- Check(ValidAsset(quantity) && quantity.amount > 0);
    :- Check(quantity.symbol == st.supply.symbol);
    var supply :- Minus(st.supply, quantity);
    SubBalance(l.(stats := l.stats[code := st.(supply := supply)]), st.issuer, quantity)
  }

  function Transfer(l: Ledger, accounts: set<Name>, auth: set<Name>,
                    from: Name, to: Name, quantity: Asset, memo: string): Option<Ledger>
  {
    if from == to then None else
    :- Check(from in auth && to in accounts);
    :- Check(quantity.symbol.code in l.stats);
    :- Check(ValidAsset(quantity) && quantity.amount > 0);
    :- Check(quantity.symbol == l.stats[quantity.symbol.code].supply.symbol && |memo| <= 256);
    var debited :- SubBalance(l, from, quantity);
    AddBalance(debited, to, quantity)
  }

  function Open(l: Ledger, accounts: set<Name>, auth: set<Name>, owner: Name, symbol: Symbol, payer: Name): Option<Ledger>
  {
    if !(payer in auth && owner in accounts) then None else
    :- Check(symbol.code in l.stats && l.stats[symbol.code].supply.symbol == symbol);
    var row := (owner, symbol.code);
    Some(if row in l.balances then l else l.(balances := l.balances[row := Asset(0, symbol)]))
  }

  function Close(l: Ledger, auth: set<Name>, owner: Name, symbol: Symbol): Option<Ledger>
  {
    var row := (owner, symbol.code);
    :- Check(owner in auth && row in l.balances && l.balances[row].amount == 0);
    Some(l.(balances := l.balances - {row}))
  }

  datatype Action =
    | DoCreate(issuer: Name, maxSupply: Asset)
    | DoIssue(to: Name, quantity: Asset, memo: string)
    | DoRetire(quantity: Asset, memo: string)
    | DoTransfer(from: Name, to: Name, quantity: Asset, memo: string)
    | DoOpen(owner: Name, symbol: Symbol, payer: Name)
    | DoClose(owner: Name, symbol: Symbol)

  function Step(l: Ledger, accounts: set<Name>, auth: set<Name>, a: Action): Option<Ledger>
  {
    match a
    case DoCreate(issuer, maxSupply) => Create(l, auth, issuer, maxSupply)
    case DoIssue(to, quantity, memo) => Issue(l, auth, to, quantity, memo)
    case DoRetire(quantity, memo) => Retire(l, auth, quantity, memo)
    case DoTransfer(from, to, quantity, memo) => Transfer(l, accounts, auth, from, to, quantity, memo)
    case DoOpen(owner, symbol, payer) => Open(l, accounts, auth, owner, symbol, payer)
    case DoClose(owner, symbol) => Close(l, auth, owner, symbol)
  }

  // ---------------------------------------------------------------- conservation

  /** All account rows of one symbol code. */
  ghost function Held(l: Ledger, code: Code): map<(Name, Code), int>
  {
    map row | row in l.balances && row.1 == code :: l.balances[row].amount
  }

  function Balance(l: Ledger, owner: Name, code: Code): int
  {
    if (owner, code) in l.balances then l.balances[(owner, code)].amount else 0
  }

  ghost predicate StatSound(code: Code, st: Stat)
  {
    && st.supply.symbol == st.maxSupply.symbol
    && st.supply.symbol.code == code
    && 0 <= st.supply.amount <= st.maxSupply.amount < 0x4000_0000_0000_0000
  }

  ghost predicate RowSound(l: Ledger, row: (Name, Code))
    requires row in l.balances
  {
    && row.1 in l.stats
    && l.balances[row].symbol == l.stats[row.1].supply.symbol
    && l.balances[row].amount >= 0
  }

  /** Supply is the sum of the balances, within bounds, and every row carries the stat's precision. */
  ghost predicate Sound(l: Ledger)
  {
    && (forall code :: code in l.stats ==> StatSound(code, l.stats[code]))
    && (forall code :: code in l.stats ==> l.stats[code].supply.amount == Sum(Held(l, code)))
    && (forall row :: row in l.balances ==> RowSound(l, row))
  }

  lemma HeldAfter(l: Ledger, l': Ledger, row: (Name, Code), value: Asset, code: Code)
    requires l'.balances == l.balances[row := value]
    ensures Sum(Held(l', code)) ==
            Sum(Held(l, code)) + if code == row.1 then value.amount - Balance(l, row.0, row.1) else 0
  {
    if code == row.1 {
      assert Held(l', code) == Held(l, code)[row := value.amount];
      SumUpdate(Held(l, code), row, value.amount);
    } else {
      assert Held(l', code) == Held(l, code);
    }
  }

  lemma BalanceWithinSupply(l: Ledger, owner: Name, code: Code)
    requires Sound(l) && code in l.stats
    ensures 0 <= Balance(l, owner, code) <= l.stats[code].supply.amount
  {
    SumNonNegative(Held(l, code));
    if (owner, code) in l.balances {
      assert RowSound(l, (owner, code));
      SumAtLeastRow(Held(l, code), (owner, code));
    }
  }

  lemma TwoBalancesWithinSupply(l: Ledger, a: Name, b: Name, code: Code)
    requires Sound(l) && code in l.stats && a != b
    ensures Balance(l, a, code) + Balance(l, b, code) <= l.stats[code].supply.amount
  {
    BalanceWithinSupply(l, a, code);
    BalanceWithinSupply(l, b, code);
    if (a, code) in l.balances && (b, code) in l.balances {
      SumAtLeastTwoRows(Held(l, code), (a, code), (b, code));
    }
  }

  /** The ledger after `q` units enter circulation in the owner's row; a negative `q` takes them out. */
  function Minted(l: Ledger, owner: Name, q: Asset): Ledger
    requires q.symbol.code in l.stats
  {
    var code := q.symbol.code;
    Ledger(l.stats[code := l.stats[code].(supply := Asset(l.stats[code].supply.amount + q.amount, q.symbol))],
           l.balances[(owner, code) := Asset(Balance(l, owner, code) + q.amount, q.symbol)])
  }

  /** The ledger after `q` moves from one row to another. */
  function Moved(l: Ledger, from: Name, to: Name, q: Asset): Ledger
  {
    var code := q.symbol.code;
    l.(balances := l.balances[(from, code) := Asset(Balance(l, from, code) - q.amount, q.symbol)]
                             [(to, code) := Asset(Balance(l, to, code) + q.amount, q.symbol)])
  }

  predicate Tradable(l: Ledger, q: Asset, memo: string)
  {
    && ValidAsset(q) && q.amount > 0 && |memo| <= 256
    && q.symbol.code in l.stats && l.stats[q.symbol.code].supply.symbol == q.symbol
  }

  predicate CanIssue(l: Ledger, auth: set<Name>, to: Name, q: Asset, memo: string)
  {
    && Tradable(l, q, memo)
    && l.stats[q.symbol.code].issuer == to && to in auth
    && l.stats[q.symbol.code].supply.amount + q.amount <= l.stats[q.symbol.code].maxSupply.amount
  }

  predicate CanRetire(l: Ledger, auth: set<Name>, q: Asset, memo: string)
  {
    && Tradable(l, q, memo)
    && l.stats[q.symbol.code].issuer in auth
    && q.amount <= Balance(l, l.stats[q.symbol.code].issuer, q.symbol.code)
  }

  predicate CanTransfer(l: Ledger, accounts: set<Name>, auth: set<Name>, from: Name, to: Name, q: Asset, memo: string)
  {
    && Tradable(l, q, memo)
    && from != to && from in auth && to in accounts
    && q.amount <= Balance(l, from, q.symbol.code)
  }

  lemma AddBalanceOutcome(l: Ledger, owner: Name, q: Asset)
    requires (owner, q.symbol.code) in l.balances ==> l.balances[(owner, q.symbol.code)].symbol == q.symbol
    requires 0 <= Balance(l, owner, q.symbol.code) + q.amount <= MAX_AMOUNT
    ensures AddBalance(l, owner, q) ==
            Some(l.(balances := l.balances[(owner, q.symbol.code) :=
                                             Asset(Balance(l, owner, q.symbol.code) + q.amount, q.symbol)]))
  {
  }

  lemma SubBalanceOutcome(l: Ledger, owner: Name, q: Asset)
    requires (owner, q.symbol.code) in l.balances ==> l.balances[(owner, q.symbol.code)].symbol == q.symbol
    requires 0 <= Balance(l, owner, q.symbol.code) <= MAX_AMOUNT && q.amount > 0
    ensures SubBalance(l, owner, q) ==
            if q.amount <= Balance(l, owner, q.symbol.code)
            then Some(l.(balances := l.balances[(owner, q.symbol.code) :=
                                                  Asset(Balance(l, owner, q.symbol.code) - q.amount, q.symbol)]))
            else None
  {
  }

  lemma RowFacts(l: Ledger, owner: Name, q: Asset)
    requires Sound(l) && q.symbol.code in l.stats && l.stats[q.symbol.code].supply.symbol == q.symbol
    ensures (owner, q.symbol.code) in l.balances ==> l.balances[(owner, q.symbol.code)].symbol == q.symbol
    ensures 0 <= Balance(l, owner, q.symbol.code) <= l.stats[q.symbol.code].supply.amount
    ensures 0 <= l.stats[q.symbol.code].supply.amount <= l.stats[q.symbol.code].maxSupply.amount <= MAX_AMOUNT
  {
    BalanceWithinSupply(l, owner, q.symbol.code);
    assert StatSound(q.symbol.code, l.stats[q.symbol.code]);
    if (owner, q.symbol.code) in l.balances { assert RowSound(l, (owner, q.symbol.code)); }
  }

  lemma IssueCommits(l: Ledger, auth: set<Name>, to: Name, q: Asset, memo: string)
    requires CanIssue(l, auth, to, q, memo)
    requires (to, q.symbol.code) in l.balances ==> l.balances[(to, q.symbol.code)].symbol == q.symbol
    requires 0 <= Balance(l, to, q.symbol.code) <= l.stats[q.symbol.code].supply.amount
    requires l.stats[q.symbol.code].maxSupply.amount <= MAX_AMOUNT
    ensures Issue(l, auth, to, q, memo) == Some(Minted(l, to, q))
  {
    var st := l.stats[q.symbol.code];
    var supply := Asset(st.supply.amount + q.amount, q.symbol);
    assert Plus(st.supply, q) == Some(supply);
    var mid := l.(stats := l.stats[q.symbol.code := st.(supply := supply)]);
    AddBalanceOutcome(mid, to, q);
    assert Issue(l, auth, to, q, memo) == AddBalance(mid, to, q);
  }

  /** Issue aborts only through its own checks: neither of its additions can overflow. */
  lemma IssueOutcome(l: Ledger, auth: set<Name>, to: Name, q: Asset, memo: string)
    requires Sound(l)
    ensures Issue(l, auth, to, q, memo) == if CanIssue(l, auth, to, q, memo) then Some(Minted(l, to, q)) else None
  {
    if CanIssue(l, auth, to, q, memo) {
      RowFacts(l, to, q);
      IssueCommits(l, auth, to, q, memo);
    }
  }

  /** The supply subtraction in retire has no check of its own, yet nothing it commits is negative. */
  lemma RetireOutcome(l: Ledger, auth: set<Name>, q: Asset, memo: string)
    requires Sound(l)
    ensures Retire(l, auth, q, memo) ==
            if CanRetire(l, auth, q, memo)
            then Some(Minted(l, l.stats[q.symbol.code].issuer, q.(amount := -q.amount)))
            else None
    ensures CanRetire(l, auth, q, memo) ==> q.amount <= l.stats[q.symbol.code].supply.amount
  {
    if Tradable(l, q, memo) { TradableRetire(l, auth, q, memo); }
  }

  lemma TradableRetire(l: Ledger, auth: set<Name>, q: Asset, memo: string)
    requires Sound(l) && Tradable(l, q, memo)
    ensures Retire(l, auth, q, memo) ==
            if CanRetire(l, auth, q, memo)
            then Some(Minted(l, l.stats[q.symbol.code].issuer, q.(amount := -q.amount)))
            else None
    ensures CanRetire(l, auth, q, memo) ==> q.amount <= l.stats[q.symbol.code].supply.amount
  {
    var st := l.stats[q.symbol.code];
    RowFacts(l, st.issuer, q);
    var supply := Asset(st.supply.amount - q.amount, q.symbol);
    assert Minus(st.supply, q) == Some(supply);
    var mid := l.(stats := l.stats[q.symbol.code := st.(supply := supply)]);
    SubBalanceOutcome(mid, st.issuer, q);
    assert st.issuer in auth ==> Retire(l, auth, q, memo) == SubBalance(mid, st.issuer, q);
  }

  /** A transfer moves exactly the quantity between two rows and touches nothing else. */
  lemma TransferOutcome(l: Ledger, accounts: set<Name>, auth: set<Name>, from: Name, to: Name, q: Asset, memo: string)
    requires Sound(l)
    ensures Transfer(l, accounts, auth, from, to, q, memo) ==
            if CanTransfer(l, accounts, auth, from, to, q, memo) then Some(Moved(l, from, to, q)) else None
  {
    if Tradable(l, q, memo) && from != to {
      RowFacts(l, from, q);
      RowFacts(l, to, q);
      TwoBalancesWithinSupply(l, from, to, q.symbol.code);
      SubBalanceOutcome(l, from, q);
      if q.amount <= Balance(l, from, q.symbol.code) {
        AddBalanceOutcome(SubBalance(l, from, q).value, to, q);
      }
    }
  }

  lemma MintedSound(l: Ledger, owner: Name, q: Asset)
    requires Sound(l) && q.symbol.code in l.stats && l.stats[q.symbol.code].supply.symbol == q.symbol
    requires 0 <= Balance(l, owner, q.symbol.code) + q.amount
    requires 0 <= l.stats[q.symbol.code].supply.amount + q.amount <= l.stats[q.symbol.code].maxSupply.amount
    ensures Sound(Minted(l, owner, q))
  {
    var l' := Minted(l, owner, q);
    var row := (owner, q.symbol.code);
    forall c | c in l'.stats
      ensures StatSound(c, l'.stats[c]) && l'.stats[c].supply.amount == Sum(Held(l', c))
    {
      assert StatSound(c, l.stats[c]);
      HeldAfter(l, l', row, l'.balances[row], c);
    }
    forall r | r in l'.balances ensures RowSound(l', r) {
      if r != row { assert RowSound(l, r); }
    }
  }

  lemma MovedSound(l: Ledger, from: Name, to: Name, q: Asset)
    requires Sound(l) && from != to
    requires q.symbol.code in l.stats && q.symbol == l.stats[q.symbol.code].supply.symbol
    requires 0 <= q.amount <= Balance(l, from, q.symbol.code)
    ensures Sound(Moved(l, from, to, q))
  {
    var code := q.symbol.code;
    BalanceWithinSupply(l, to, code);
    var l' := Moved(l, from, to, q);
    var mid := l.(balances := l.balances[(from, code) := Asset(Balance(l, from, code) - q.amount, q.symbol)]);
    forall c | c in l'.stats ensures l'.stats[c].supply.amount == Sum(Held(l', c)) {
      HeldAfter(l, mid, (from, code), mid.balances[(from, code)], c);
      HeldAfter(mid, l', (to, code), l'.balances[(to, code)], c);
    }
    forall r | r in l'.balances ensures RowSound(l', r) {
      if r != (from, code) && r != (to, code) { assert RowSound(l, r); }
    }
  }

  lemma OpenSound(l: Ledger, l': Ledger, owner: Name, symbol: Symbol)
    requires Sound(l) && symbol.code in l.stats && l.stats[symbol.code].supply.symbol == symbol
    requires (owner, symbol.code) !in l.balances
    requires l' == l.(balances := l.balances[(owner, symbol.code) := Asset(0, symbol)])
    ensures Sound(l')
  {
    forall c | c in l'.stats ensures l'.stats[c].supply.amount == Sum(Held(l', c)) {
      HeldAfter(l, l', (owner, symbol.code), Asset(0, symbol), c);
    }
    forall r | r in l'.balances ensures RowSound(l', r) {
      if r in l.balances { assert RowSound(l, r); }
    }
  }

  lemma CloseSound(l: Ledger, l': Ledger, row: (Name, Code))
    requires Sound(l) && row in l.balances && l.balances[row].amount == 0
    requires l' == l.(balances := l.balances - {row})
    ensures Sound(l')
  {
    forall c | c in l'.stats ensures l'.stats[c].supply.amount == Sum(Held(l', c)) {
      if c == row.1 {
        assert Held(l', c) == Held(l, c) - {row};
        SumRemove(Held(l, c), row);
      } else {
        assert Held(l', c) == Held(l, c);
      }
    }
    forall r | r in l'.balances ensures RowSound(l', r) {
      assert RowSound(l, r);
    }
  }

  lemma CreateSound(l: Ledger, l': Ledger, code: Code, st: Stat)
    requires Sound(l) && code !in l.stats && StatSound(code, st) && st.supply.amount == 0
    requires l' == l.(stats := l.stats[code := st])
    ensures Sound(l')
  {
    forall r | r in l'.balances ensures RowSound(l', r) {
      assert RowSound(l, r);
    }
    forall c | c in l'.stats
      ensures StatSound(c, l'.stats[c]) && l'.stats[c].supply.amount == Sum(Held(l', c))
    {
      assert Held(l', c) == Held(l, c);
      if c == code {
        assert forall r :: r in l.balances ==> RowSound(l, r);
        assert Held(l, c) == map[];
      } else {
        assert StatSound(c, l.stats[c]);
      }
    }
  }

  /** Conservation: no action of the token contract breaks supply = sum of balances or its bounds. */
  lemma StepKeepsSound(l: Ledger, accounts: set<Name>, auth: set<Name>, a: Action)
    requires Sound(l)
    ensures Step(l, accounts, auth, a).Some? ==> Sound(Step(l, accounts, auth, a).value)
  {
    var r := Step(l, accounts, auth, a);
    if r == None { return; }
    match a
    case DoCreate(issuer, m) =>
      CreateSound(l, r.value, m.symbol.code, Stat(Asset(0, m.symbol), m, issuer));
    case DoIssue(to, q, memo) =>
      IssueOutcome(l, auth, to, q, memo);
      RowFacts(l, to, q);
      MintedSound(l, to, q);
    case DoRetire(q, memo) =>
      RetireOutcome(l, auth, q, memo);
      RowFacts(l, l.stats[q.symbol.code].issuer, q);
      MintedSound(l, l.stats[q.symbol.code].issuer, q.(amount := -q.amount));
    case DoTransfer(from, to, q, memo) =>
      TransferOutcome(l, accounts, auth, from, to, q, memo);
      MovedSound(l, from, to, q);
    case DoOpen(owner, symbol, payer) =>
      if r.value != l { OpenSound(l, r.value, owner, symbol); }
    case DoClose(owner, symbol) =>
      CloseSound(l, r.value, (owner, symbol.code));
  }

  /** Only the owner's own authority can lower a balance. */
  lemma BalanceFallsOnlyWithAuthority(l: Ledger, accounts: set<Name>, auth: set<Name>, a: Action, owner: Name, code: Code)
    requires Sound(l) && owner !in auth && Step(l, accounts, auth, a).Some?
    ensures Balance(Step(l, accounts, auth, a).value, owner, code) >= Balance(l, owner, code)
  {
    match a
    case DoIssue(to, q, memo) => IssueOutcome(l, auth, to, q, memo);
    case DoRetire(q, memo) => RetireOutcome(l, auth, q, memo);
    case DoTransfer(from, to, q, memo) => TransferOutcome(l, accounts, auth, from, to, q, memo);
    case _ =>
  }
}
