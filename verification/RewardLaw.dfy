/** What a block costs: the amounts onblock pays, in tokens, from the clock and the blocks made. */
module RewardLaw {
  import opened Base
  import opened State
  import opened ProducerPay
  import opened Machine
  import Books
  import L = Ledger
  import Payout
  import Solvency
  import Voting

  // ---------------------------------------------------------------- the tariff

  /** Tokens per block, by the microseconds between activation and the block: 4 for a day, 2 for another, then 1. */
  function Tariff(elapsed: int): nat
  {
    if elapsed >= 172_800_000_000 then 1
    else if elapsed >= 86_400_000_000 then 2
    else 4
  }

  /** Microseconds from activation to the time of a slot; slots are half seconds since the year 2000. */
  function Elapsed(slot: nat, activated: nat): int
  {
    946_684_800_000_000 + slot * 500_000 - activated
  }

  lemma RateIsTariff(g: Global)
    ensures PayPerBlock(g) == Tariff(Elapsed(g.lastBlockSlot, g.activatedTime))
  {
  }

  // ---------------------------------------------------------------- one payout

  /** Every listed producer is owed its blocks at the rate of the payout, on top of what it was owed. */
  lemma {:induction false} PayAllOwes(c: Chain, names: seq<Name>, now: nat, n: Name)
    requires Payout.Listed(c, names) && Books.Counted(c, Books.LIMIT + 1) && PayAll(c, names, now).Some?
    ensures OwedTo(PayAll(c, names, now).value.payments, n) ==
            OwedTo(c.payments, n) + if n in names then PayPerBlock(c.global) * c.producers[n].unpaidBlocks else 0
  {
    if names != [] {
      var prefix, last := names[..|names| - 1], names[|names| - 1];
      Payout.LastOf(c, names);
      PayAllOwes(c, prefix, now, n);
      Payout.UnpaidRowsKept(c, prefix, now);
      Payout.RewardIsProduct(c, last);
      PayOneOwes(PayAll(c, prefix, now).value, last, now, n, Payout.Reward(c, last));
      assert n in names <==> n in prefix || n == last;
    }
  }

  lemma PayOneOwes(c: Chain, last: Name, now: nat, n: Name, reward: nat)
    requires last in c.producers && PayOne(c, last, now).Some?
    requires reward == NewTokens(PayPerBlock(c.global), c.producers[last].unpaidBlocks)
    ensures OwedTo(PayOne(c, last, now).value.payments, n) == OwedTo(c.payments, n) + if n == last then reward else 0
  {
  }

  /** The tokens are new, all of them end in the pay account, and no other balance or symbol changes. */
  ghost predicate MintedToPayAccount(l: L.Ledger, l': L.Ledger, tokens: int)
  {
    && (forall owner, code :: L.Balance(l', owner, code) ==
         L.Balance(l, owner, code) + if owner == BPAY && code == "LIBRE" then tokens else 0)
    && l'.stats.Keys == l.stats.Keys
    && (forall code :: code in l.stats ==>
         && l'.stats[code].maxSupply == l.stats[code].maxSupply && l'.stats[code].issuer == l.stats[code].issuer
         && l'.stats[code].supply.amount == l.stats[code].supply.amount + if code == "LIBRE" then tokens else 0)
  }

  /** The token contract can create that many more LIBRE for the system contract. */
  predicate CanMint(l: L.Ledger, accounts: set<Name>, tokens: nat)
  {
    && "LIBRE" in l.stats && l.stats["LIBRE"].supply.symbol == L.Symbol("LIBRE", 0)
    && l.stats["LIBRE"].issuer == EOSIO && BPAY in accounts
    && l.stats["LIBRE"].supply.amount + tokens <= l.stats["LIBRE"].maxSupply.amount
  }

  lemma FundedMints(l: L.Ledger, tokens: int)
    requires L.CORE.code in l.stats
    ensures MintedToPayAccount(l, Payout.Funded(l, tokens), tokens)
  {
  }

  lemma FundableIffCanMint(l: L.Ledger, accounts: set<Name>, tokens: nat)
    requires 0 < tokens <= 28804
    ensures Payout.Fundable(l, accounts, tokens) <==> CanMint(l, accounts, tokens)
  {
    Solvency.CoreIsValid();
  }

  lemma WholeTablePays(c: Chain, names: seq<Name>, now: nat, n: Name)
    requires Payout.Listed(c, names) && Books.Counted(c, Books.LIMIT + 1) && PayAll(c, names, now).Some?
    requires n in names <==> n in c.producers
    ensures OwedTo(PayAll(c, names, now).value.payments, n) ==
            OwedTo(c.payments, n) + PayPerBlock(c.global) * Books.UnpaidBy(c.producers, n)
  {
    PayAllOwes(c, names, now, n);
  }

  lemma UpdRewardsPays(c: Chain, now: nat, n: Name)
    requires Books.Counted(c, Books.LIMIT + 1) && UpdRewards(c, now).Some?
    ensures OwedTo(UpdRewards(c, now).value.payments, n) ==
            OwedTo(c.payments, n) + PayPerBlock(c.global) * Books.UnpaidBy(c.producers, n)
  {
    Payout.OrderListed(c);
    UpdRewardsPayments(c, now);
    WholeTablePays(c, ProducerOrder(c.producers), now, n);
  }

  lemma UpdRewardsPayments(c: Chain, now: nat)
    requires UpdRewards(c, now).Some?
    ensures PayAll(c, ProducerOrder(c.producers), now).Some?
    ensures UpdRewards(c, now).value.payments == PayAll(c, ProducerOrder(c.producers), now).value.payments
  {
  }

  // ---------------------------------------------------------------- one block

  /** The block itself counts when its producer is registered. */
  function MadeBy(c: Chain, producer: Name, n: Name): nat
  {
    if n == producer && n in c.producers then 1 else 0
  }

  /** Activation is the time of the first block the contract sees. */
  function Activation(c: Chain, now: nat): nat
  {
    if c.global.activatedTime == 0 then now else c.global.activatedTime
  }

  /** All blocks waiting for payment once this one is counted. */
  function Waiting(c: Chain, producer: Name): nat
  {
    c.global.totalUnpaidBlocks + if producer in c.producers then 1 else 0
  }

  /** An hour has passed since the last payout. */
  predicate PaymentDue(c: Chain, now: nat)
  {
    now > c.global.lastUpdatedReward + 3_600_000_000
  }

  /** The producer is owed the rate for each block it had not been paid for. */
  ghost predicate PaidTo(c: Chain, d: Chain, producer: Name, rate: nat, n: Name)
  {
    OwedTo(d.payments, n) == OwedTo(c.payments, n) + rate * (Books.UnpaidBy(c.producers, n) + MadeBy(c, producer, n))
  }

  /** What onblock does about rewards, producer by producer and token by token. */
  ghost predicate PaysForBlocks(c: Chain, d: Chain, producer: Name, now: nat, rate: nat)
  {
    && (forall n :: PaidTo(c, d, producer, rate, n))
    && (forall n :: Books.UnpaidBy(d.producers, n) == 0)
    && d.global.totalUnpaidBlocks == 0 && d.global.lastUpdatedReward == now
    && MintedToPayAccount(c.ledger, d.ledger, rate * Waiting(c, producer))
  }

  /** Less than an hour after a payout the block is only counted. */
  ghost predicate OnlyCounts(c: Chain, d: Chain, producer: Name)
  {
    && d.payments == c.payments && d.ledger == c.ledger
    && (forall n :: Books.UnpaidBy(d.producers, n) == Books.UnpaidBy(c.producers, n) + MadeBy(c, producer, n))
    && d.global.totalUnpaidBlocks == Waiting(c, producer)
    && d.global.lastUpdatedReward == c.global.lastUpdatedReward
  }

  ghost predicate Settles(c: Chain, d: Chain, slot: nat, producer: Name, now: nat, activated: nat)
  {
    && d.global.activatedTime == activated && d.global.lastBlockSlot == slot
    && if PaymentDue(c, now)
       then PaysForBlocks(c, d, producer, now, Tariff(Elapsed(slot, activated)))
       else OnlyCounts(c, d, producer)
  }

  lemma CountBlockOnlyCounts(c: Chain, slot: nat, producer: Name, now: nat)
    requires Books.Counted(c, Books.LIMIT)
    ensures
      var d := CountBlock(c, slot, producer, now);
      && OnlyCounts(c, d, producer) && d.accounts == c.accounts
      && d.global.activatedTime == Activation(c, now) && d.global.lastBlockSlot == slot
  {
    Books.CountBlockCounts(c, slot, producer, now);
  }

  lemma PaidAfterCounting(c: Chain, counted: Chain, producer: Name, now: nat)
    requires L.Sound(c.ledger) && Books.Counted(counted, Books.LIMIT + 1) && Books.Recorded(counted)
    requires OnlyCounts(c, counted, producer) && UpdRewards(counted, now).Some?
    requires counted.global.activatedTime != 0
    ensures PaysForBlocks(c, UpdRewards(counted, now).value, producer, now, PayPerBlock(counted.global))
    ensures UpdRewards(counted, now).value.global.activatedTime == counted.global.activatedTime
    ensures UpdRewards(counted, now).value.global.lastBlockSlot == counted.global.lastBlockSlot
  {
    var d, rate := UpdRewards(counted, now).value, PayPerBlock(counted.global);
    Books.UpdRewardsClears(counted, now);
    PaidLedger(counted, now, rate * counted.global.totalUnpaidBlocks);
    forall n ensures PaidTo(c, d, producer, rate, n) {
      PaidBlocks(c, counted, producer, now, n);
    }
  }

  lemma PaidBlocks(c: Chain, counted: Chain, producer: Name, now: nat, n: Name)
    requires Books.Counted(counted, Books.LIMIT + 1) && UpdRewards(counted, now).Some? && OnlyCounts(c, counted, producer)
    ensures PaidTo(c, UpdRewards(counted, now).value, producer, PayPerBlock(counted.global), n)
  {
    UpdRewardsPays(counted, now, n);
  }

  lemma PaidLedger(c: Chain, now: nat, tokens: int)
    requires L.Sound(c.ledger) && Books.Counted(c, Books.LIMIT + 1) && UpdRewards(c, now).Some?
    requires tokens == PayPerBlock(c.global) * c.global.totalUnpaidBlocks
    ensures MintedToPayAccount(c.ledger, UpdRewards(c, now).value.ledger, tokens)
  {
    Payout.UpdRewardsOutcome(c, now);
    if c.global.totalUnpaidBlocks != 0 { FundedMints(c.ledger, tokens); }
  }

  lemma SettledSettles(c: Chain, slot: nat, producer: Name, now: nat)
    requires L.Sound(c.ledger) && Books.InBooks(c) && c.clock + 500_000 <= now && c.headerSlot < slot
    requires Settled(c, slot, producer, now).Some?
    ensures Settles(c, Settled(c, slot, producer, now).value, slot, producer, now, Activation(c, now))
  {
    var counted := CountBlock(c, slot, producer, now);
    CountBlockOnlyCounts(c, slot, producer, now);
    Books.CountBlockBounded(c, slot, producer, now);
    if PaymentDue(c, now) {
      RateIsTariff(counted.global);
      PaidAfterCounting(c, counted, producer, now);
    }
  }

  ghost predicate SameRewards(d: Chain, e: Chain)
  {
    && e.payments == d.payments && e.ledger == d.ledger && e.producers == d.producers
    && e.global.totalUnpaidBlocks == d.global.totalUnpaidBlocks
    && e.global.lastUpdatedReward == d.global.lastUpdatedReward
    && e.global.activatedTime == d.global.activatedTime && e.global.lastBlockSlot == d.global.lastBlockSlot
  }

  lemma ElectedKeepsRewards(d: Chain, slot: nat, reply: int)
    ensures SameRewards(d, Elected(d, slot, reply))
  {
  }

  lemma SameRewardsSettle(c: Chain, d: Chain, e: Chain, slot: nat, producer: Name, now: nat, activated: nat)
    requires SameRewards(d, e) && Settles(c, d, slot, producer, now, activated)
    ensures Settles(c, e, slot, producer, now, activated)
  {
    var rate := Tariff(Elapsed(slot, activated));
    forall n | PaidTo(c, d, producer, rate, n) ensures PaidTo(c, e, producer, rate, n) {
    }
  }

  /**
   * What a committed onblock pays. An hour after the last payout every producer is owed 4, 2 or 1 tokens for
   * each of its unpaid blocks, this one included, and exactly that many tokens are minted into the pay account.
   */
  lemma BlockPays(c: Chain, auth: set<Name>, slot: nat, producer: Name, now: nat, reply: int)
    requires L.Sound(c.ledger) && Books.InBooks(c) && c.clock + 500_000 <= now && c.headerSlot < slot
    requires OnBlock(c, auth, slot, producer, now, reply).Some?
    ensures
      Settles(c, OnBlock(c, auth, slot, producer, now, reply).value, slot, producer, now, Activation(c, now))
  {
    var d := Settled(c, slot, producer, now).value;
    SettledSettles(c, slot, producer, now);
    ElectedKeepsRewards(d, slot, reply);
    SameRewardsSettle(c, d, Elected(d, slot, reply), slot, producer, now, Activation(c, now));
  }

  /** When onblock commits, in the terms of the tables before it. */
  lemma BlockCommits(c: Chain, auth: set<Name>, slot: nat, producer: Name, now: nat, reply: int)
    requires L.Sound(c.ledger) && Books.InBooks(c) && c.clock + 500_000 <= now && c.headerSlot < slot
    ensures OnBlock(c, auth, slot, producer, now, reply).Some? <==>
            && EOSIO in auth
            && (PaymentDue(c, now) && Waiting(c, producer) > 0 ==>
                CanMint(c.ledger, c.accounts, Tariff(Elapsed(slot, Activation(c, now))) * Waiting(c, producer)))
  {
    var counted := CountBlock(c, slot, producer, now);
    var tokens := Tariff(Elapsed(slot, Activation(c, now))) * Waiting(c, producer);
    Payout.OnBlockOutcome(c, auth, slot, producer, now, reply);
    CountBlockOnlyCounts(c, slot, producer, now);
    Books.CountBlockBounded(c, slot, producer, now);
    RateIsTariff(counted.global);
    if Waiting(c, producer) > 0 {
      TokensBounded(Tariff(Elapsed(slot, Activation(c, now))), Waiting(c, producer));
      FundableIffCanMint(c.ledger, c.accounts, tokens);
    }
  }

  lemma TokensBounded(rate: nat, blocks: nat)
    requires 1 <= rate <= 4 && 0 < blocks <= 7201
    ensures 0 < rate * blocks <= 28804
  {
  }

  // ---------------------------------------------------------------- any run

  ghost predicate CommittedBlock(c: Chain, a: Action)
  {
    a.DoOnBlock? && Effect(c, a).Some?
  }

  /** The time of the first committed onblock of a run, 0 while there is none. */
  ghost function FirstBlockTime(c: Chain, actions: seq<Action>): nat
  {
    if actions == [] then 0 else
    var before, a := actions[..|actions| - 1], actions[|actions| - 1];
    if FirstBlockTime(c, before) == 0 && CommittedBlock(Run(c, before), a) then a.now else FirstBlockTime(c, before)
  }

  /** The slot of the last committed onblock of a run, 0 while there is none. */
  ghost function LastBlock(c: Chain, actions: seq<Action>): nat
  {
    if actions == [] then 0 else
    var before, a := actions[..|actions| - 1], actions[|actions| - 1];
    if CommittedBlock(Run(c, before), a) then a.slot else LastBlock(c, before)
  }

  lemma OthersKeepClocks(c: Chain, a: Action)
    requires !a.DoOnBlock? && Effect(c, a).Some?
    ensures
      var g := Effect(c, a).value.global;
      g.activatedTime == c.global.activatedTime && g.lastBlockSlot == c.global.lastBlockSlot
  {
    match a
    case DoRegProducer(auth, producer, key, urlSize) =>
    case DoRegProducer2(auth, producer, authority, urlSize) =>
    case DoUnregProd(auth, producer) =>
    case DoRmvProducer(auth, producer) =>
    case DoKickBp(auth, producer) =>
    case DoVoteProducer(auth, voter, producer, dangling) => Voting.UpdateFrame(c, voter, producer, true, dangling);
    case DoVOnStake(auth, staker) =>
      if staker in c.voters { Voting.UpdateFrame(c, staker, c.voters[staker].producer, false, 0); }
    case DoClaimRewards(auth, owner) =>
    case DoToken(auth, token) =>
    case DoPermission(auth, permission) =>
    case DoStakesChange(stakes) =>
    case DoAccountCreated(account) =>
  }

  lemma NextClocks(c: Chain, a: Action)
    requires L.Sound(c.ledger) && Books.InBooks(c) && Timed(c, a)
    ensures
      var g := Next(c, a).global;
      if CommittedBlock(c, a)
      then g.activatedTime == Activation(c, a.now) && g.lastBlockSlot == a.slot
      else g.activatedTime == c.global.activatedTime && g.lastBlockSlot == c.global.lastBlockSlot
  {
    if Effect(c, a).Some? {
      if a.DoOnBlock? {
        BlockPays(c, a.auth, a.slot, a.producer, a.now, a.reply);
      } else {
        OthersKeepClocks(c, a);
      }
    }
  }

  /** Activation is fixed by the first committed block for ever; the last slot is that of the last one. */
  lemma {:induction false} ClocksOnEveryRun(c: Chain, actions: seq<Action>)
    requires Genesis(c) && AllTimed(c, actions)
    ensures Run(c, actions).global.activatedTime == FirstBlockTime(c, actions)
    ensures Run(c, actions).global.lastBlockSlot == LastBlock(c, actions)
  {
    if actions != [] {
      var before, a := actions[..|actions| - 1], actions[|actions| - 1];
      TimedPrefix(c, actions);
      ClocksOnEveryRun(c, before);
      Books.InBooksOnEveryRun(c, before);
      Solvency.LedgerSoundOnEveryRun(c, before);
      NextClocks(Run(c, before), a);
    }
  }

  /** On every run, a committed onblock pays by the time since the run's first committed onblock. */
  lemma PaysOnEveryRun(c: Chain, actions: seq<Action>)
    requires Genesis(c) && AllTimed(c, actions) && actions != []
    requires CommittedBlock(Run(c, actions[..|actions| - 1]), actions[|actions| - 1])
    ensures
      var before, a := Run(c, actions[..|actions| - 1]), actions[|actions| - 1];
      Settles(before, Run(c, actions), a.slot, a.producer, a.now, FirstBlockTime(c, actions))
  {
    var run, a := actions[..|actions| - 1], actions[|actions| - 1];
    TimedPrefix(c, actions);
    ClocksOnEveryRun(c, run);
    Books.InBooksOnEveryRun(c, run);
    Solvency.LedgerSoundOnEveryRun(c, run);
    NextPays(Run(c, run), a);
  }

  lemma NextPays(c: Chain, a: Action)
    requires L.Sound(c.ledger) && Books.InBooks(c) && Timed(c, a) && CommittedBlock(c, a)
    ensures Settles(c, Next(c, a), a.slot, a.producer, a.now, Activation(c, a.now))
  {
    BlockPays(c, a.auth, a.slot, a.producer, a.now, a.reply);
    SameRewardsSettle(c, Effect(c, a).value, Next(c, a), a.slot, a.producer, a.now, Activation(c, a.now));
  }
}
