/** Block accounting, the real-time bound on unpaid blocks, and the history of rewards. */
module Books {
  import opened Base
  import opened Sums
  import opened State
  import opened ProducerPay
  import opened Machine
  import Election
  import Standing
  import Voting

  const LIMIT: nat := 7200   // half-second blocks in an hour

  ghost function Unpaid(ps: map<Name, Producer>): map<Name, int>
  {
    map n | n in ps :: ps[n].unpaidBlocks
  }

  /** Rewards a producer has earned by the payouts recorded so far. */
  function Earned(journal: seq<Event>, n: Name): int
  {
    if journal == [] then 0 else
    var last := journal[|journal| - 1];
    Earned(journal[..|journal| - 1], n) + if last.Paid? && last.producer == n then last.rate * last.blocks else 0
  }

  function Drawn(journal: seq<Event>, n: Name): int
  {
    if journal == [] then 0 else
    var last := journal[|journal| - 1];
    Drawn(journal[..|journal| - 1], n) + if last.Claimed? && last.producer == n then last.amount else 0
  }

  /** Blocks the producer made while registered, and the blocks it was paid for. */
  function BlocksMade(journal: seq<Event>, n: Name): nat
  {
    if journal == [] then 0 else
    var last := journal[|journal| - 1];
    BlocksMade(journal[..|journal| - 1], n) + if last.Produced? && last.producer == n then 1 else 0
  }

  function BlocksPaidTo(journal: seq<Event>, n: Name): nat
  {
    if journal == [] then 0 else
    var last := journal[|journal| - 1];
    BlocksPaidTo(journal[..|journal| - 1], n) + if last.Paid? && last.producer == n then last.blocks else 0
  }

  function UnpaidBy(ps: map<Name, Producer>, n: Name): nat
  {
    if n in ps then ps[n].unpaidBlocks else 0
  }

  /** Every block a registered producer made is either paid, once, or still counted as unpaid. */
  ghost predicate BlocksExact(ps: map<Name, Producer>, journal: seq<Event>)
  {
    forall n :: BlocksMade(journal, n) == BlocksPaidTo(journal, n) + UnpaidBy(ps, n)
  }

  ghost predicate RatesFall(journal: seq<Event>)
  {
    && (forall i :: 0 <= i < |journal| && journal[i].Paid? ==> journal[i].rate in {1, 2, 4} && journal[i].blocks > 0)
    && (forall i, j :: 0 <= i < j < |journal| && journal[i].Paid? && journal[j].Paid? ==> journal[j].rate <= journal[i].rate)
  }

  /** No recorded rate is below the current one, and none exists before activation. */
  ghost predicate RateNow(g: Global, journal: seq<Event>)
  {
    forall i :: 0 <= i < |journal| && journal[i].Paid? ==> g.activatedTime != 0 && PayPerBlock(g) <= journal[i].rate
  }

  ghost predicate HistoryExact(payments: map<Name, int>, journal: seq<Event>)
  {
    forall n :: OwedTo(payments, n) + Drawn(journal, n) == Earned(journal, n)
  }

  ghost predicate Counted(c: Chain, limit: nat)
  {
    && c.global.totalUnpaidBlocks == Sum(Unpaid(c.producers))
    && c.global.totalUnpaidBlocks <= limit
  }

  ghost predicate Recorded(c: Chain)
  {
    && HistoryExact(c.payments, c.journal) && BlocksExact(c.producers, c.journal)
    && RatesFall(c.journal) && RateNow(c.global, c.journal)
  }

  ghost predicate InBooks(c: Chain)
  {
    && Counted(c, LIMIT)
    && c.global.totalUnpaidBlocks * 500_000 + c.global.lastUpdatedReward <= c.clock
    && c.global.lastBlockSlot <= c.headerSlot
    && Recorded(c)
  }

  // ---------------------------------------------------------------- the payout loop

  lemma UnpaidWithin(c: Chain, n: Name, limit: nat)
    requires Counted(c, limit) && n in c.producers
    ensures c.producers[n].unpaidBlocks <= c.global.totalUnpaidBlocks
  {
    SumAtLeastRow(Unpaid(c.producers), n);
  }

  /** The 32-bit product of rate and blocks is at most 28804 and never wraps. */
  lemma RewardExact(c: Chain, n: Name)
    requires Counted(c, LIMIT + 1) && n in c.producers
    ensures
      var rate, blocks := PayPerBlock(c.global), c.producers[n].unpaidBlocks;
      NewTokens(rate, blocks) == rate * blocks <= 4 * (LIMIT + 1) == 28804
  {
    UnpaidWithin(c, n, LIMIT + 1);
  }

  lemma CreditKeepsCount(c: Chain, n: Name, tokens: int, now: nat)
    requires Counted(c, LIMIT + 1) && n in c.producers
    ensures Counted(Credited(c, n, tokens, now), LIMIT + 1)
    ensures Credited(c, n, tokens, now).global.totalUnpaidBlocks
            == c.global.totalUnpaidBlocks - c.producers[n].unpaidBlocks
  {
    var d := Credited(c, n, tokens, now);
    UnpaidWithin(c, n, LIMIT + 1);
    assert Unpaid(d.producers) == Unpaid(c.producers)[n := 0];
    SumUpdate(Unpaid(c.producers), n, 0);
  }

  lemma PaidExtendsHistory(payments: map<Name, int>, journal: seq<Event>, n: Name, rate: nat, blocks: nat)
    requires HistoryExact(payments, journal)
    ensures HistoryExact(payments[n := OwedTo(payments, n) + rate * blocks], journal + [Paid(n, rate, blocks)])
  {
    var after := journal + [Paid(n, rate, blocks)];
    assert after[..|after| - 1] == journal;
    var payments' := payments[n := OwedTo(payments, n) + rate * blocks];
    forall m ensures OwedTo(payments', m) + Drawn(after, m) == Earned(after, m) {
      assert OwedTo(payments, m) + Drawn(journal, m) == Earned(journal, m);
    }
  }

  lemma PaidExtendsBlocks(ps: map<Name, Producer>, journal: seq<Event>, n: Name, rate: nat, row: Producer)
    requires BlocksExact(ps, journal) && n in ps && row.unpaidBlocks == 0
    ensures BlocksExact(ps[n := row], journal + [Paid(n, rate, ps[n].unpaidBlocks)])
  {
    var after, ps' := journal + [Paid(n, rate, ps[n].unpaidBlocks)], ps[n := row];
    assert after[..|after| - 1] == journal;
    forall m ensures BlocksMade(after, m) == BlocksPaidTo(after, m) + UnpaidBy(ps', m) {
      assert BlocksMade(journal, m) == BlocksPaidTo(journal, m) + UnpaidBy(ps, m);
    }
  }

  lemma MadeExtendsBlocks(ps: map<Name, Producer>, journal: seq<Event>, n: Name, row: Producer)
    requires BlocksExact(ps, journal) && n in ps && row.unpaidBlocks == ps[n].unpaidBlocks + 1
    ensures BlocksExact(ps[n := row], journal + [Produced(n)])
  {
    var after, ps' := journal + [Produced(n)], ps[n := row];
    assert after[..|after| - 1] == journal;
    forall m ensures BlocksMade(after, m) == BlocksPaidTo(after, m) + UnpaidBy(ps', m) {
      assert BlocksMade(journal, m) == BlocksPaidTo(journal, m) + UnpaidBy(ps, m);
    }
  }

  lemma PaidExtendsRates(g: Global, g': Global, journal: seq<Event>, e: Event)
    requires RatesFall(journal) && RateNow(g, journal)
    requires e.Paid? && e.rate == PayPerBlock(g) && e.blocks > 0 && g.activatedTime != 0
    requires g' == g.(totalUnpaidBlocks := g'.totalUnpaidBlocks)
    ensures RatesFall(journal + [e]) && RateNow(g', journal + [e])
  {
    assert PayPerBlock(g') == PayPerBlock(g);
  }

  lemma CreditKeepsRecord(c: Chain, n: Name, now: nat)
    requires Recorded(c) && n in c.producers && c.producers[n].unpaidBlocks > 0 && c.global.activatedTime != 0
    ensures Recorded(Credited(c, n, PayPerBlock(c.global) * c.producers[n].unpaidBlocks, now))
  {
    var p := c.producers[n];
    var rate, e := PayPerBlock(c.global), Paid(n, PayPerBlock(c.global), p.unpaidBlocks);
    var d := Credited(c, n, rate * p.unpaidBlocks, now);
    PaidExtendsHistory(c.payments, c.journal, n, rate, p.unpaidBlocks);
    PaidExtendsBlocks(c.producers, c.journal, n, rate, p.(lastClaimTime := now, unpaidBlocks := 0));
    PaidExtendsRates(c.global, d.global, c.journal, e);
  }

  /** The totals agree at every round of the payout loop; a paid row ends at zero, others are untouched. */
  lemma {:induction false} PayAllKeepsBooks(c: Chain, names: seq<Name>, now: nat)
    requires Counted(c, LIMIT + 1) && Recorded(c) && c.global.activatedTime != 0
    requires forall n :: n in names ==> n in c.producers
    requires PayAll(c, names, now).Some?
    ensures
      var d := PayAll(c, names, now).value;
      && Counted(d, LIMIT + 1) && Recorded(d)
      && d.global == c.global.(totalUnpaidBlocks := d.global.totalUnpaidBlocks)
      && (forall n :: n in c.producers ==>
           d.producers[n].unpaidBlocks == if n in names then 0 else c.producers[n].unpaidBlocks)
  {
    if names != [] {
      var prefix, n := names[..|names| - 1], names[|names| - 1];
      PayAllKeepsBooks(c, prefix, now);
      var d := PayAll(c, prefix, now).value;
      PayOneKeepsBooks(d, n, now);
      assert forall m :: m in names <==> m in prefix || m == n;
    }
  }

  lemma PayOneKeepsBooks(d: Chain, n: Name, now: nat)
    requires Counted(d, LIMIT + 1) && Recorded(d) && d.global.activatedTime != 0
    requires n in d.producers && PayOne(d, n, now).Some?
    ensures
      var e := PayOne(d, n, now).value;
      && Counted(e, LIMIT + 1) && Recorded(e)
      && e.global == d.global.(totalUnpaidBlocks := e.global.totalUnpaidBlocks)
      && e.producers.Keys == d.producers.Keys
      && (forall m :: m in d.producers ==>
           e.producers[m].unpaidBlocks == if m == n then 0 else d.producers[m].unpaidBlocks)
  {
    if d.producers[n].unpaidBlocks != 0 {
      RewardExact(d, n);
      var tokens := PayPerBlock(d.global) * d.producers[n].unpaidBlocks;
      var f := d.(ledger := PayOne(d, n, now).value.ledger);
      CreditKeepsCount(f, n, tokens, now);
      CreditKeepsRecord(f, n, now);
      assert PayOne(d, n, now).value == Credited(f, n, tokens, now);
    }
  }

  // ---------------------------------------------------------------- onblock

  /** When updrewards starts there are at most 7201 unpaid blocks; otherwise at most 7200, in real time. */
  lemma CountBlockBounded(c: Chain, slot: nat, producer: Name, now: nat)
    requires InBooks(c) && c.clock + 500_000 <= now && c.headerSlot < slot
    ensures
      var d := CountBlock(c, slot, producer, now);
      && Counted(d, LIMIT + 1) && Recorded(d) && d.global.activatedTime != 0
      && d.global.lastUpdatedReward == c.global.lastUpdatedReward
      && d.global.totalUnpaidBlocks * 500_000 + d.global.lastUpdatedReward <= now
      && (now - d.global.lastUpdatedReward <= HOUR ==> Counted(d, LIMIT))
  {
    CountBlockCounts(c, slot, producer, now);
    CountBlockRecords(c, slot, producer, now);
  }

  lemma CountBlockCounts(c: Chain, slot: nat, producer: Name, now: nat)
    requires Counted(c, LIMIT)
    ensures
      var d := CountBlock(c, slot, producer, now);
      && Counted(d, LIMIT + 1)
      && d.global.totalUnpaidBlocks == c.global.totalUnpaidBlocks + (if producer in c.producers then 1 else 0)
      && (producer in c.producers ==> d.producers[producer].unpaidBlocks == c.producers[producer].unpaidBlocks + 1)
  {
    var d := CountBlock(c, slot, producer, now);
    if producer in c.producers {
      UnpaidWithin(c, producer, LIMIT);
      assert Unpaid(d.producers) == Unpaid(c.producers)[producer := c.producers[producer].unpaidBlocks + 1];
      SumUpdate(Unpaid(c.producers), producer, c.producers[producer].unpaidBlocks + 1);
    } else {
      assert Unpaid(d.producers) == Unpaid(c.producers);
    }
  }

  lemma CountBlockRecords(c: Chain, slot: nat, producer: Name, now: nat)
    requires Counted(c, LIMIT) && Recorded(c) && c.global.lastBlockSlot < slot
    ensures Recorded(CountBlock(c, slot, producer, now))
  {
    var d := CountBlock(c, slot, producer, now);
    RateOnlyFalls(c, slot, producer, now);
    if producer in c.producers {
      CountBlockCounts(c, slot, producer, now);
      MadeRecorded(c, d, producer);
    }
  }

  lemma RateOnlyFalls(c: Chain, slot: nat, producer: Name, now: nat)
    requires RateNow(c.global, c.journal) && c.global.lastBlockSlot < slot
    ensures RateNow(CountBlock(c, slot, producer, now).global, c.journal)
  {
    assert PayPerBlock(CountBlock(c, slot, producer, now).global) <= PayPerBlock(c.global) || c.global.activatedTime == 0;
  }

  lemma MadeRecorded(c: Chain, d: Chain, n: Name)
    requires Recorded(c) && n in c.producers && d.payments == c.payments && d.journal == c.journal + [Produced(n)]
    requires n in d.producers && d.producers == c.producers[n := d.producers[n]]
    requires d.producers[n].unpaidBlocks == c.producers[n].unpaidBlocks + 1
    requires RateNow(d.global, c.journal)
    ensures Recorded(d)
  {
    MadeExtendsBlocks(c.producers, c.journal, n, d.producers[n]);
    forall m ensures OwedTo(d.payments, m) + Drawn(d.journal, m) == Earned(d.journal, m) {
      OtherEvent(c.journal, Produced(n), m);
      assert OwedTo(c.payments, m) + Drawn(c.journal, m) == Earned(c.journal, m);
    }
  }

  /** A payout clears every row and the total with it. */
  lemma UpdRewardsClears(c: Chain, now: nat)
    requires Counted(c, LIMIT + 1) && Recorded(c) && c.global.activatedTime != 0
    requires UpdRewards(c, now).Some?
    ensures
      var d := UpdRewards(c, now).value;
      && Counted(d, 0) && Recorded(d)
      && d.global == c.global.(totalUnpaidBlocks := 0, lastUpdatedReward := now)
      && (forall n :: n in d.producers ==> d.producers[n].unpaidBlocks == 0)
  {
    PayAllKeepsBooks(c, ProducerOrder(c.producers), now);
    var paid := PayAll(c, ProducerOrder(c.producers), now).value;
    assert forall n :: n in paid.producers ==> n in c.producers && paid.producers[n].unpaidBlocks == 0;
    SumOfZeros(Unpaid(paid.producers));
  }

  lemma SettledInBooks(c: Chain, slot: nat, producer: Name, now: nat)
    requires InBooks(c) && c.clock + 500_000 <= now && c.headerSlot < slot
    requires Settled(c, slot, producer, now).Some?
    ensures InBooks(Settled(c, slot, producer, now).value.(clock := now, headerSlot := slot))
  {
    CountBlockBounded(c, slot, producer, now);
    var counted := CountBlock(c, slot, producer, now);
    if now - counted.global.lastUpdatedReward > HOUR {
      UpdRewardsClears(counted, now);
    }
  }

  // ---------------------------------------------------------------- other actions

  lemma OtherEvent(journal: seq<Event>, e: Event, n: Name)
    ensures e.Registered? || e.Proposed? || e.Produced? ==>
            Earned(journal + [e], n) == Earned(journal, n) && Drawn(journal + [e], n) == Drawn(journal, n)
    ensures e.Registered? || e.Proposed? || e.Claimed? ==>
            && BlocksMade(journal + [e], n) == BlocksMade(journal, n)
            && BlocksPaidTo(journal + [e], n) == BlocksPaidTo(journal, n)
    ensures e.Claimed? ==>
            && Earned(journal + [e], n) == Earned(journal, n)
            && Drawn(journal + [e], n) == Drawn(journal, n) + if n == e.producer then e.amount else 0
  {
    assert (journal + [e])[..|journal|] == journal;
  }

  lemma EventKeepsRecord(c: Chain, d: Chain, e: Event)
    requires Recorded(c) && d.journal == c.journal + [e] && !e.Paid? && !e.Produced?
    requires forall n :: UnpaidBy(d.producers, n) == UnpaidBy(c.producers, n)
    requires d.global.activatedTime == c.global.activatedTime && d.global.lastBlockSlot == c.global.lastBlockSlot
    requires if e.Claimed?
             then e.producer in c.payments && d.payments == c.payments[e.producer := c.payments[e.producer] - e.amount]
             else d.payments == c.payments
    ensures Recorded(d)
  {
    forall n ensures OwedTo(d.payments, n) + Drawn(d.journal, n) == Earned(d.journal, n) {
      OtherEvent(c.journal, e, n);
      assert OwedTo(c.payments, n) + Drawn(c.journal, n) == Earned(c.journal, n);
    }
    forall n ensures BlocksMade(d.journal, n) == BlocksPaidTo(d.journal, n) + UnpaidBy(d.producers, n) {
      OtherEvent(c.journal, e, n);
      assert BlocksMade(c.journal, n) == BlocksPaidTo(c.journal, n) + UnpaidBy(c.producers, n);
    }
  }

  lemma RegisterInBooks(c: Chain, producer: Name, authority: Authority)
    requires InBooks(c)
    ensures InBooks(Voting.RegisterProducer(c, producer, authority))
  {
    var d := Voting.RegisterProducer(c, producer, authority);
    EventKeepsRecord(c, d, Registered(producer, authority));
    assert Unpaid(d.producers) == Unpaid(c.producers)[producer := d.producers[producer].unpaidBlocks];
    SumUpdate(Unpaid(c.producers), producer, d.producers[producer].unpaidBlocks);
  }

  ghost predicate SameBlocks(c: Chain, d: Chain)
  {
    && Unpaid(d.producers) == Unpaid(c.producers)
    && d.payments == c.payments && d.journal == c.journal && d.clock == c.clock && d.headerSlot == c.headerSlot
    && d.global == c.global.(totalVoteWeight := d.global.totalVoteWeight)
  }

  lemma SameBlocksInBooks(c: Chain, d: Chain)
    requires InBooks(c) && SameBlocks(c, d)
    ensures InBooks(d)
  {
    forall n ensures BlocksMade(d.journal, n) == BlocksPaidTo(d.journal, n) + UnpaidBy(d.producers, n) {
      assert BlocksMade(c.journal, n) == BlocksPaidTo(c.journal, n) + UnpaidBy(c.producers, n);
      assert n in Unpaid(d.producers) <==> n in Unpaid(c.producers);
    }
  }

  lemma ElectionInBooks(c: Chain, slot: nat, reply: int)
    requires InBooks(c)
    ensures InBooks(Election.UpdateElectedProducers(c, slot, reply))
  {
    var d := Election.UpdateElectedProducers(c, slot, reply);
    if d.journal != c.journal {
      EventKeepsRecord(c, d, Proposed(Election.Schedule(c.producers), reply >= 0));
    }
  }

  lemma OnBlockInBooks(c: Chain, auth: set<Name>, slot: nat, producer: Name, now: nat, reply: int)
    requires InBooks(c) && c.clock + 500_000 <= now && c.headerSlot < slot
    requires OnBlock(c, auth, slot, producer, now, reply).Some?
    ensures InBooks(OnBlock(c, auth, slot, producer, now, reply).value.(clock := now, headerSlot := slot))
  {
    SettledInBooks(c, slot, producer, now);
    ElectionInBooks(Settled(c, slot, producer, now).value.(clock := now, headerSlot := slot), slot, reply);
  }

  lemma ClaimInBooks(c: Chain, auth: set<Name>, owner: Name)
    requires InBooks(c) && ClaimRewards(c, auth, owner).Some?
    ensures InBooks(ClaimRewards(c, auth, owner).value)
  {
    EventKeepsRecord(c, ClaimRewards(c, auth, owner).value, Claimed(owner, c.payments[owner]));
  }

  lemma NextInBooks(c: Chain, a: Action)
    requires InBooks(c) && Timed(c, a)
    ensures InBooks(Next(c, a))
  {
    if Effect(c, a).Some? {
      match a
      case DoOnBlock(auth, slot, producer, now, reply) => OnBlockInBooks(c, auth, slot, producer, now, reply);
      case DoRegProducer(auth, producer, key, urlSize) => RegisterInBooks(c, producer, KeyAuthority(key));
      case DoRegProducer2(auth, producer, authority, urlSize) => RegisterInBooks(c, producer, authority);
      case DoClaimRewards(auth, owner) => ClaimInBooks(c, auth, owner);
      case _ =>
        OthersKeepBlocks(c, a);
        SameBlocksInBooks(c, Effect(c, a).value);
    }
  }

  lemma OthersKeepBlocks(c: Chain, a: Action)
    requires !a.DoRegProducer? && !a.DoRegProducer2? && !a.DoOnBlock? && !a.DoClaimRewards?
    requires Effect(c, a).Some?
    ensures SameBlocks(c, Effect(c, a).value)
  {
    match a
    case DoUnregProd(auth, producer) =>
    case DoRmvProducer(auth, producer) =>
    case DoKickBp(auth, producer) =>
    case DoVoteProducer(auth, voter, producer, dangling) =>
      Voting.UpdateFrame(c, voter, producer, true, dangling);
    case DoVOnStake(auth, staker) =>
      if staker in c.voters { Voting.UpdateFrame(c, staker, c.voters[staker].producer, false, 0); }
    case DoToken(auth, token) =>
    case DoPermission(auth, permission) =>
    case DoStakesChange(stakes) =>
    case DoAccountCreated(account) =>
  }

  /**
   * On every run with blocks half a second apart, committed or aborted: unpaid blocks add up and stay
   * within 7200; for every producer, blocks made = blocks paid + blocks unpaid and tokens earned = tokens
   * owed + tokens claimed; and the rates paid never rise.
   */
  lemma {:induction false} InBooksOnEveryRun(c: Chain, actions: seq<Action>)
    requires Genesis(c) && AllTimed(c, actions)
    ensures InBooks(Run(c, actions))
  {
    if actions == [] {
      assert Unpaid(c.producers) == map[];
    } else {
      var before := actions[..|actions| - 1];
      TimedPrefix(c, actions);
      InBooksOnEveryRun(c, before);
      NextInBooks(Run(c, before), actions[|actions| - 1]);
    }
  }

  function BlocksPaid(journal: seq<Event>): nat
  {
    if journal == [] then 0 else
    var last := journal[|journal| - 1];
    BlocksPaid(journal[..|journal| - 1]) + if last.Paid? then last.blocks else 0
  }

  function TokensPaid(journal: seq<Event>): nat
  {
    if journal == [] then 0 else
    var last := journal[|journal| - 1];
    TokensPaid(journal[..|journal| - 1]) + if last.Paid? then last.rate * last.blocks else 0
  }

  /** Tokens minted as rewards lie between once and four times the blocks paid. */
  lemma {:induction false} RewardsBounded(journal: seq<Event>)
    requires RatesFall(journal)
    ensures BlocksPaid(journal) <= TokensPaid(journal) <= 4 * BlocksPaid(journal)
  {
    if journal != [] {
      RewardsBounded(journal[..|journal| - 1]);
      var last := journal[|journal| - 1];
      if last.Paid? { RateScales(last.rate, last.blocks); }
    }
  }

  lemma RateScales(rate: nat, blocks: nat)
    requires rate in {1, 2, 4}
    ensures blocks <= rate * blocks <= 4 * blocks
  {
  }
}
