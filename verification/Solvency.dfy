/** The pay account always covers every outstanding payment, so an honest claim is never overdrawn. */
module Solvency {
  import opened Base
  import opened Sums
  import opened State
  import opened ProducerPay
  import opened Machine
  import L = Ledger
  import Standing

  const LIBRE: string := L.CORE.code

  ghost predicate CoreFixed(l: L.Ledger)
  {
    LIBRE in l.stats && l.stats[LIBRE].supply.symbol == L.CORE
  }

  ghost predicate Solvent(c: Chain)
  {
    && L.Sound(c.ledger)
    && (forall n :: n in c.payments ==> c.payments[n] >= 0)
    && Sum(c.payments) <= L.Balance(c.ledger, BPAY, LIBRE)
    && (c.payments != map[] ==> CoreFixed(c.ledger))
  }

  /** What one issue-and-transfer pair of the payout loop does to the ledger, when it commits. */
  lemma FundingOutcome(l: L.Ledger, accounts: set<Name>, tokens: int)
    requires L.Sound(l)
    ensures
      var minted := L.Issue(l, {EOSIO}, EOSIO, Core(tokens), "");
      var r := if minted.None? then None
               else L.Transfer(minted.value, accounts, {EOSIO}, EOSIO, BPAY, Core(tokens), "");
      && (r.Some? <==> L.CanIssue(l, {EOSIO}, EOSIO, Core(tokens), "") && BPAY in accounts)
      && (r.Some? ==> tokens > 0 && r.value == L.Moved(L.Minted(l, EOSIO, Core(tokens)), EOSIO, BPAY, Core(tokens)))
      && (r.Some? ==> L.Sound(r.value) && CoreFixed(r.value))
      && (r.Some? ==> L.Balance(r.value, BPAY, LIBRE) == L.Balance(l, BPAY, LIBRE) + tokens)
  {
    L.IssueOutcome(l, {EOSIO}, EOSIO, Core(tokens), "");
    if L.CanIssue(l, {EOSIO}, EOSIO, Core(tokens), "") {
      var minted := L.Minted(l, EOSIO, Core(tokens));
      L.RowFacts(l, EOSIO, Core(tokens));
      L.MintedSound(l, EOSIO, Core(tokens));
      L.TransferOutcome(minted, accounts, {EOSIO}, EOSIO, BPAY, Core(tokens), "");
      if BPAY in accounts {
        L.MovedSound(minted, EOSIO, BPAY, Core(tokens));
      }
    }
  }

  lemma CreditKeepsSolvent(c: Chain, l: L.Ledger, n: Name, tokens: int, now: nat)
    requires Solvent(c) && n in c.producers && tokens >= 0
    requires L.Sound(l) && CoreFixed(l) && L.Balance(l, BPAY, LIBRE) == L.Balance(c.ledger, BPAY, LIBRE) + tokens
    ensures Solvent(Credited(c.(ledger := l), n, tokens, now))
  {
    SumUpdate(c.payments, n, OwedTo(c.payments, n) + tokens);
    CreditMoves(c.(ledger := l), n, tokens, now);
  }

  lemma CreditMoves(c: Chain, n: Name, tokens: int, now: nat)
    requires n in c.producers
    ensures Credited(c, n, tokens, now).ledger == c.ledger
    ensures Credited(c, n, tokens, now).payments == c.payments[n := OwedTo(c.payments, n) + tokens]
  {
  }

  lemma PayOneKeepsSolvent(c: Chain, n: Name, now: nat)
    requires Solvent(c) && n in c.producers && PayOne(c, n, now).Some?
    ensures Solvent(PayOne(c, n, now).value)
  {
    var p := c.producers[n];
    if p.unpaidBlocks != 0 {
      var tokens := NewTokens(PayPerBlock(c.global), p.unpaidBlocks);
      FundingOutcome(c.ledger, c.accounts, tokens);
      CreditKeepsSolvent(c, PayOne(c, n, now).value.ledger, n, tokens, now);
    }
  }

  lemma {:induction false} PayAllKeepsSolvent(c: Chain, names: seq<Name>, now: nat)
    requires Solvent(c) && forall n :: n in names ==> n in c.producers
    requires PayAll(c, names, now).Some?
    ensures Solvent(PayAll(c, names, now).value)
  {
    if names != [] {
      PayAllKeepsSolvent(c, names[..|names| - 1], now);
      PayOneKeepsSolvent(PayAll(c, names[..|names| - 1], now).value, names[|names| - 1], now);
    }
  }

  lemma UpdRewardsKeepsSolvent(c: Chain, now: nat)
    requires Solvent(c) && UpdRewards(c, now).Some?
    ensures Solvent(UpdRewards(c, now).value)
  {
    PayAllKeepsSolvent(c, ProducerOrder(c.producers), now);
    SameMoneySolvent(PayAll(c, ProducerOrder(c.producers), now).value, UpdRewards(c, now).value);
  }

  lemma CountBlockKeepsMoney(c: Chain, slot: nat, producer: Name, now: nat)
    ensures CountBlock(c, slot, producer, now).ledger == c.ledger
    ensures CountBlock(c, slot, producer, now).payments == c.payments
  {
  }

  lemma SettledKeepsSolvent(c: Chain, slot: nat, producer: Name, now: nat)
    requires Solvent(c) && Settled(c, slot, producer, now).Some?
    ensures Solvent(Settled(c, slot, producer, now).value)
  {
    var counted := CountBlock(c, slot, producer, now);
    CountBlockKeepsMoney(c, slot, producer, now);
    SameMoneySolvent(c, counted);
    if now - counted.global.lastUpdatedReward > HOUR {
      UpdRewardsKeepsSolvent(counted, now);
    }
  }

  lemma ClaimTransfer(c: Chain, owner: Name)
    requires Solvent(c) && owner in c.payments && c.payments[owner] != 0
    ensures L.Transfer(c.ledger, c.accounts, {BPAY, owner}, BPAY, owner, Core(c.payments[owner]), "") ==
            if owner != BPAY && owner in c.accounts
            then Some(L.Moved(c.ledger, BPAY, owner, Core(c.payments[owner])))
            else None
    ensures L.CORE.code in c.ledger.stats && c.payments[owner] <= L.Balance(c.ledger, BPAY, LIBRE)
  {
    var amount := c.payments[owner];
    SumAtLeastRow(c.payments, owner);
    L.RowFacts(c.ledger, BPAY, Core(amount));
    CoreIsValid();
    L.TransferOutcome(c.ledger, c.accounts, {BPAY, owner}, BPAY, owner, Core(amount), "");
  }

  lemma ClaimPaid(c: Chain, owner: Name, journal: seq<Event>)
    requires Solvent(c) && owner in c.payments && c.payments[owner] > 0 && owner != BPAY
    requires c.payments[owner] <= L.Balance(c.ledger, BPAY, LIBRE)
    ensures
      var d := c.(ledger := L.Moved(c.ledger, BPAY, owner, Core(c.payments[owner])), payments := c.payments[owner := 0],
                  journal := journal);
      Solvent(d)
  {
    L.MovedSound(c.ledger, BPAY, owner, Core(c.payments[owner]));
    SumUpdate(c.payments, owner, 0);
  }

  /** A claim commits exactly when its owner is owed something and is not the pay account itself. */
  lemma ClaimOutcome(c: Chain, auth: set<Name>, owner: Name)
    requires Solvent(c)
    ensures ClaimRewards(c, auth, owner).Some? <==>
            owner in auth && OwedTo(c.payments, owner) != 0 && owner != BPAY && owner in c.accounts
    ensures ClaimRewards(c, auth, owner).Some? ==>
            && Claims(c, ClaimRewards(c, auth, owner).value, owner, c.payments[owner])
            && Solvent(ClaimRewards(c, auth, owner).value)
  {
    if owner in c.payments && c.payments[owner] != 0 {
      ClaimTransfer(c, owner);
      if owner != BPAY {
        ClaimPaid(c, owner, c.journal + [Claimed(owner, c.payments[owner])]);
        ClaimClaims(c, owner);
      }
    }
  }

  /** The amount leaves the pay account for the owner, is owed no longer, and nothing else changes. */
  ghost predicate Claims(c: Chain, d: Chain, owner: Name, amount: int)
  {
    && d == c.(ledger := d.ledger, payments := d.payments, journal := c.journal + [Claimed(owner, amount)])
    && d.ledger.stats == c.ledger.stats
    && (forall n, code :: L.Balance(d.ledger, n, code) ==
         L.Balance(c.ledger, n, code)
         + if code != "LIBRE" then 0 else if n == owner then amount else if n == BPAY then -amount else 0)
    && (forall n :: OwedTo(d.payments, n) == if n == owner then 0 else OwedTo(c.payments, n))
  }

  lemma ClaimClaims(c: Chain, owner: Name)
    requires owner in c.payments && owner != BPAY
    ensures
      var amount := c.payments[owner];
      Claims(c, c.(ledger := L.Moved(c.ledger, BPAY, owner, Core(amount)), payments := c.payments[owner := 0],
                   journal := c.journal + [Claimed(owner, amount)]), owner, amount)
  {
  }

  lemma CoreIsValid()
    ensures L.ValidSymbol(L.CORE)
  {
  }

  lemma TokenKeepsSolvent(c: Chain, auth: set<Name>, token: L.Action)
    requires Solvent(c) && BPAY !in auth && L.Step(c.ledger, c.accounts, auth, token).Some?
    ensures Solvent(c.(ledger := L.Step(c.ledger, c.accounts, auth, token).value))
  {
    L.StepKeepsSound(c.ledger, c.accounts, auth, token);
    L.BalanceFallsOnlyWithAuthority(c.ledger, c.accounts, auth, token, BPAY, LIBRE);
    if CoreFixed(c.ledger) { SymbolsPersist(c.ledger, c.accounts, auth, token); }
  }

  lemma SymbolsPersist(l: L.Ledger, accounts: set<Name>, auth: set<Name>, token: L.Action)
    requires L.Sound(l) && CoreFixed(l) && L.Step(l, accounts, auth, token).Some?
    ensures CoreFixed(L.Step(l, accounts, auth, token).value)
  {
    match token
    case DoIssue(to, q, memo) => L.IssueOutcome(l, auth, to, q, memo);
    case DoRetire(q, memo) => L.RetireOutcome(l, auth, q, memo);
    case DoTransfer(from, to, q, memo) => L.TransferOutcome(l, accounts, auth, from, to, q, memo);
    case _ =>
  }

  lemma OnBlockKeepsSolvent(c: Chain, auth: set<Name>, slot: nat, producer: Name, now: nat, reply: int)
    requires Solvent(c) && OnBlock(c, auth, slot, producer, now, reply).Some?
    ensures Solvent(OnBlock(c, auth, slot, producer, now, reply).value)
  {
    SettledKeepsSolvent(c, slot, producer, now);
    var d := Settled(c, slot, producer, now).value;
    ElectedKeepsMoney(d, slot, reply);
    SameMoneySolvent(d, Elected(d, slot, reply));
  }

  lemma ElectedKeepsMoney(c: Chain, slot: nat, reply: int)
    ensures Elected(c, slot, reply).ledger == c.ledger && Elected(c, slot, reply).payments == c.payments
  {
  }

  lemma SameMoneySolvent(c: Chain, d: Chain)
    requires Solvent(c) && d.ledger == c.ledger && d.payments == c.payments
    ensures Solvent(d)
  {
  }

  lemma OthersMoveNoMoney(c: Chain, a: Action)
    requires !a.DoOnBlock? && !a.DoClaimRewards? && !a.DoToken? && Effect(c, a).Some?
    ensures Effect(c, a).value.ledger == c.ledger && Effect(c, a).value.payments == c.payments
  {
    match a
    case DoRegProducer(auth, producer, key, urlSize) =>
    case DoRegProducer2(auth, producer, authority, urlSize) =>
    case DoUnregProd(auth, producer) =>
    case DoRmvProducer(auth, producer) =>
    case DoKickBp(auth, producer) =>
    case DoVoteProducer(auth, voter, producer, dangling) =>
    case DoVOnStake(auth, staker) =>
    case DoPermission(auth, permission) =>
    case DoStakesChange(stakes) =>
    case DoAccountCreated(account) =>
  }

  lemma NextKeepsSolvent(c: Chain, a: Action)
    requires Solvent(c) && PayAccountSilent(a)
    ensures Solvent(Next(c, a))
  {
    if Effect(c, a).Some? {
      var d := Effect(c, a).value;
      match a
      case DoOnBlock(auth, slot, producer, now, reply) =>
        OnBlockKeepsSolvent(c, auth, slot, producer, now, reply);
        SameMoneySolvent(d, Next(c, a));
      case DoClaimRewards(auth, owner) => ClaimOutcome(c, auth, owner);
      case DoToken(auth, token) => TokenKeepsSolvent(c, auth, token);
      case _ =>
        OthersMoveNoMoney(c, a);
        SameMoneySolvent(c, d);
    }
  }

  /**
   * Solvency over every run. The only premise is that the pay account signs no token action itself;
   * nothing is assumed about who issues LIBRE.
   */
  lemma {:induction false} SolventOnEveryRun(c: Chain, actions: seq<Action>)
    requires Genesis(c) && forall i :: 0 <= i < |actions| ==> PayAccountSilent(actions[i])
    ensures Solvent(Run(c, actions))
  {
    if actions == [] {
    } else {
      SolventOnEveryRun(c, actions[..|actions| - 1]);
      NextKeepsSolvent(Run(c, actions[..|actions| - 1]), actions[|actions| - 1]);
    }
  }

  // ---------------------------------------------------------------- conservation over runs

  lemma {:induction false} PayAllKeepsLedger(c: Chain, names: seq<Name>, now: nat)
    requires L.Sound(c.ledger) && forall n :: n in names ==> n in c.producers
    requires PayAll(c, names, now).Some?
    ensures L.Sound(PayAll(c, names, now).value.ledger)
  {
    if names != [] {
      var n := names[|names| - 1];
      PayAllKeepsLedger(c, names[..|names| - 1], now);
      var d := PayAll(c, names[..|names| - 1], now).value;
      FundingOutcome(d.ledger, d.accounts, NewTokens(PayPerBlock(d.global), d.producers[n].unpaidBlocks));
    }
  }

  lemma OnBlockKeepsLedger(c: Chain, auth: set<Name>, slot: nat, producer: Name, now: nat, reply: int)
    requires L.Sound(c.ledger) && OnBlock(c, auth, slot, producer, now, reply).Some?
    ensures L.Sound(OnBlock(c, auth, slot, producer, now, reply).value.ledger)
  {
    var counted := CountBlock(c, slot, producer, now);
    CountBlockKeepsMoney(c, slot, producer, now);
    if now - counted.global.lastUpdatedReward > HOUR {
      PayAllKeepsLedger(counted, ProducerOrder(counted.producers), now);
    }
    ElectedKeepsMoney(Settled(c, slot, producer, now).value, slot, reply);
  }

  lemma ClaimKeepsLedger(c: Chain, auth: set<Name>, owner: Name)
    requires L.Sound(c.ledger) && ClaimRewards(c, auth, owner).Some?
    ensures L.Sound(ClaimRewards(c, auth, owner).value.ledger)
  {
    var q := Core(c.payments[owner]);
    L.TransferOutcome(c.ledger, c.accounts, {BPAY, owner}, BPAY, owner, q, "");
    L.MovedSound(c.ledger, BPAY, owner, q);
  }

  lemma NextKeepsLedger(c: Chain, a: Action)
    requires L.Sound(c.ledger)
    ensures L.Sound(Next(c, a).ledger)
  {
    if Effect(c, a).Some? {
      match a
      case DoOnBlock(auth, slot, producer, now, reply) => OnBlockKeepsLedger(c, auth, slot, producer, now, reply);
      case DoClaimRewards(auth, owner) => ClaimKeepsLedger(c, auth, owner);
      case DoToken(auth, token) => L.StepKeepsSound(c.ledger, c.accounts, auth, token);
      case _ => OthersMoveNoMoney(c, a);
    }
  }

  /** Supply equals the sum of balances, within its bounds, in every reachable state and for every symbol. */
  lemma {:induction false} LedgerSoundOnEveryRun(c: Chain, actions: seq<Action>)
    requires Genesis(c)
    ensures L.Sound(Run(c, actions).ledger)
  {
    if actions == [] {
    } else {
      LedgerSoundOnEveryRun(c, actions[..|actions| - 1]);
      NextKeepsLedger(Run(c, actions[..|actions| - 1]), actions[|actions| - 1]);
    }
  }

  /** What is owed never reaches the limit of a token amount, so its 64-bit row cannot overflow. */
  lemma PaymentsFit(c: Chain, n: Name)
    requires Solvent(c) && n in c.payments
    ensures 0 <= c.payments[n] < 0x4000_0000_0000_0000
  {
    SumAtLeastRow(c.payments, n);
    if CoreFixed(c.ledger) { L.RowFacts(c.ledger, BPAY, Core(0)); }
  }
}
