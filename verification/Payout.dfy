/** The payout loop in closed form: its many issue-transfer pairs equal one of the total, or all abort. */
module Payout {
  import opened Base
  import opened State
  import opened Sums
  import opened ProducerPay
  import Books
  import Tables
  import L = Ledger
  import Solvency

  function Reward(c: Chain, n: Name): nat
    requires n in c.producers
  {
    NewTokens(PayPerBlock(c.global), c.producers[n].unpaidBlocks)
  }

  predicate Listed(c: Chain, names: seq<Name>)
  {
    && (forall n :: n in names ==> n in c.producers)
    && (forall i, j :: 0 <= i < j < |names| ==> names[i] != names[j])
  }

  function TotalDue(c: Chain, names: seq<Name>): nat
    requires Listed(c, names)
  {
    if names == [] then 0 else TotalDue(c, names[..|names| - 1]) + Reward(c, names[|names| - 1])
  }

  predicate SomeDue(c: Chain, names: seq<Name>)
    requires Listed(c, names)
  {
    exists n :: n in names && c.producers[n].unpaidBlocks != 0
  }

  predicate NoneWrapsToZero(c: Chain, names: seq<Name>)
    requires Listed(c, names)
  {
    forall n :: n in names && c.producers[n].unpaidBlocks != 0 ==> Reward(c, n) > 0
  }

  predicate Fundable(l: L.Ledger, accounts: set<Name>, total: int)
  {
    L.CanIssue(l, {EOSIO}, EOSIO, Core(total), "") && BPAY in accounts
  }

  /** Mint the total to the system account and move it on to the pay account. */
  function Funded(l: L.Ledger, total: int): L.Ledger
    requires L.CORE.code in l.stats
  {
    L.Moved(L.Minted(l, EOSIO, Core(total)), EOSIO, BPAY, Core(total))
  }

  lemma FundedTwice(l: L.Ledger, a: int, b: int)
    requires L.CORE.code in l.stats
    ensures Funded(Funded(l, a), b) == Funded(l, a + b)
  {
    var x, y := Funded(Funded(l, a), b), Funded(l, a + b);
    assert x.stats == y.stats;
    assert x.balances == y.balances;
  }

  lemma FundableTwice(l: L.Ledger, accounts: set<Name>, a: int, b: int)
    requires L.Sound(l) && Fundable(l, accounts, a) && b > 0
    ensures Fundable(Funded(l, a), accounts, b) <==> Fundable(l, accounts, a + b)
  {
    L.RowFacts(l, EOSIO, Core(a));
  }

  lemma PayOneOutcome(c: Chain, n: Name, now: nat)
    requires L.Sound(c.ledger) && n in c.producers && c.producers[n].unpaidBlocks != 0
    ensures PayOne(c, n, now).Some? <==> Fundable(c.ledger, c.accounts, Reward(c, n))
    ensures PayOne(c, n, now).Some? ==>
      && PayOne(c, n, now).value.ledger == Funded(c.ledger, Reward(c, n))
      && L.Sound(PayOne(c, n, now).value.ledger)
  {
    Solvency.FundingOutcome(c.ledger, c.accounts, Reward(c, n));
  }

  /** Rows not paid yet, the rate and the accounts are as before. */
  lemma {:induction false} UnpaidRowsKept(c: Chain, names: seq<Name>, now: nat)
    requires Listed(c, names) && PayAll(c, names, now).Some?
    ensures
      var d := PayAll(c, names, now).value;
      && PayPerBlock(d.global) == PayPerBlock(c.global) && d.accounts == c.accounts
      && (forall n :: n in c.producers && n !in names ==> d.producers[n] == c.producers[n])
  {
    if names != [] { UnpaidRowsKept(c, names[..|names| - 1], now); }
  }

  lemma LastOf(c: Chain, names: seq<Name>)
    requires Listed(c, names) && names != []
    ensures
      var prefix, n := names[..|names| - 1], names[|names| - 1];
      && Listed(c, prefix) && n !in prefix
      && (SomeDue(c, names) <==> SomeDue(c, prefix) || c.producers[n].unpaidBlocks != 0)
      && (NoneWrapsToZero(c, names) <==>
          NoneWrapsToZero(c, prefix) && (c.producers[n].unpaidBlocks != 0 ==> Reward(c, n) > 0))
      && TotalDue(c, names) == TotalDue(c, prefix) + Reward(c, n)
  {
    var prefix, n := names[..|names| - 1], names[|names| - 1];
    assert forall m :: m in names <==> m in prefix || m == n;
  }

  /** Mint and move one total, provided something is due and no reward is zero; otherwise do nothing. */
  ghost predicate OneStroke(l: L.Ledger, accounts: set<Name>, some: bool, positive: bool, total: nat, r: Option<L.Ledger>)
  {
    && (r.Some? <==> !some || (positive && Fundable(l, accounts, total)))
    && (r.Some? ==> r.value == if some then Funded(l, total) else l)
  }

  function LedgerOf(r: Option<Chain>): Option<L.Ledger>
  {
    if r.Some? then Some(r.value.ledger) else None
  }

  /** The outcome stated for a whole list of rows. */
  ghost predicate Stroke(c: Chain, names: seq<Name>, r: Option<L.Ledger>)
    requires Listed(c, names)
  {
    OneStroke(c.ledger, c.accounts, SomeDue(c, names), NoneWrapsToZero(c, names), TotalDue(c, names), r)
  }

  ghost predicate InOneStroke(c: Chain, names: seq<Name>, r: Option<Chain>)
    requires Listed(c, names)
  {
    Stroke(c, names, LedgerOf(r)) && (r.Some? ==> L.Sound(r.value.ledger))
  }

  lemma {:induction false} ShorterTotal(c: Chain, names: seq<Name>)
    requires Listed(c, names)
    ensures !SomeDue(c, names) ==> TotalDue(c, names) == 0
    ensures SomeDue(c, names) && NoneWrapsToZero(c, names) ==> TotalDue(c, names) > 0
  {
    if names != [] {
      LastOf(c, names);
      ShorterTotal(c, names[..|names| - 1]);
    }
  }

  lemma LargerTotalUnfundable(c: Chain, names: seq<Name>)
    requires Listed(c, names) && names != [] && Listed(c, names[..|names| - 1])
    requires InOneStroke(c, names[..|names| - 1], None)
    ensures InOneStroke(c, names, None)
  {
    LastOf(c, names);
    ShorterTotal(c, names[..|names| - 1]);
  }

  /** The ledger after a first total takes a further reward exactly when it could have taken both at once. */
  lemma FundNext(l: L.Ledger, accounts: set<Name>, some: bool, total: nat, reward: nat)
    requires L.Sound(l) && if some then Fundable(l, accounts, total) else total == 0
    ensures
      var m := if some then Funded(l, total) else l;
      && (Fundable(m, accounts, reward) <==> reward > 0 && Fundable(l, accounts, total + reward))
      && (Fundable(m, accounts, reward) ==> Funded(m, reward) == Funded(l, total + reward))
  {
    if some && reward > 0 {
      FundableTwice(l, accounts, total, reward);
      FundedTwice(l, total, reward);
    }
  }

  lemma StrokeExtends(l: L.Ledger, accounts: set<Name>, some: bool, positive: bool, total: nat,
                      m: L.Ledger, reward: nat, positive': bool, total': nat, r: Option<L.Ledger>)
    requires L.Sound(l) && (some || total == 0) && (!some ==> positive)
    requires OneStroke(l, accounts, some, positive, total, Some(m))
    requires r.Some? <==> Fundable(m, accounts, reward)
    requires r.Some? ==> r.value == Funded(m, reward)
    requires (positive' <==> positive && reward > 0) && total' == total + reward
    ensures OneStroke(l, accounts, true, positive', total', r)
  {
    FundNext(l, accounts, some, total, reward);
  }

  lemma LastRowPaid(c: Chain, names: seq<Name>, m: L.Ledger, r: Option<L.Ledger>)
    requires Listed(c, names) && names != [] && Listed(c, names[..|names| - 1])
    requires L.Sound(c.ledger) && Stroke(c, names[..|names| - 1], Some(m))
    requires c.producers[names[|names| - 1]].unpaidBlocks != 0
    requires r.Some? <==> Fundable(m, c.accounts, Reward(c, names[|names| - 1]))
    requires r.Some? ==> r.value == Funded(m, Reward(c, names[|names| - 1]))
    ensures Stroke(c, names, r)
  {
    var prefix, n := names[..|names| - 1], names[|names| - 1];
    LastOf(c, names);
    ShorterTotal(c, prefix);
    StrokeExtends(c.ledger, c.accounts, SomeDue(c, prefix), NoneWrapsToZero(c, prefix), TotalDue(c, prefix),
                  m, Reward(c, n), NoneWrapsToZero(c, names), TotalDue(c, names), r);
  }

  lemma LastRowSkipped(c: Chain, names: seq<Name>, r: Option<L.Ledger>)
    requires Listed(c, names) && names != [] && Listed(c, names[..|names| - 1])
    requires Stroke(c, names[..|names| - 1], r)
    requires c.producers[names[|names| - 1]].unpaidBlocks == 0
    ensures Stroke(c, names, r)
  {
    LastOf(c, names);
  }

  lemma LastPayment(c: Chain, names: seq<Name>, d: Chain, now: nat)
    requires Listed(c, names) && names != [] && Listed(c, names[..|names| - 1])
    requires L.Sound(c.ledger) && InOneStroke(c, names[..|names| - 1], Some(d))
    requires
      var n := names[|names| - 1];
      && n in d.producers && d.producers[n] == c.producers[n]
      && PayPerBlock(d.global) == PayPerBlock(c.global) && d.accounts == c.accounts
    ensures InOneStroke(c, names, PayOne(d, names[|names| - 1], now))
  {
    var n := names[|names| - 1];
    if c.producers[n].unpaidBlocks == 0 {
      LastRowSkipped(c, names, Some(d.ledger));
    } else {
      PayOneOutcome(d, n, now);
      LastRowPaid(c, names, d.ledger, LedgerOf(PayOne(d, n, now)));
    }
  }

  /** No payout is lost or half done: either the total is minted and moved once over, or nothing happens. */
  lemma {:induction false} PayoutInOneStroke(c: Chain, names: seq<Name>, now: nat)
    requires L.Sound(c.ledger) && Listed(c, names)
    ensures InOneStroke(c, names, PayAll(c, names, now))
  {
    if names != [] {
      var prefix := names[..|names| - 1];
      LastOf(c, names);
      PayoutInOneStroke(c, prefix, now);
      if PayAll(c, prefix, now).Some? {
        UnpaidRowsKept(c, prefix, now);
        LastPayment(c, names, PayAll(c, prefix, now).value, now);
      } else {
        LargerTotalUnfundable(c, names);
      }
    }
  }

  // ---------------------------------------------------------------- the whole table

  ghost function UnpaidOf(c: Chain, names: seq<Name>): map<Name, int>
    requires Listed(c, names)
  {
    map n | n in names :: c.producers[n].unpaidBlocks
  }

  lemma UnpaidLast(c: Chain, names: seq<Name>)
    requires Listed(c, names) && names != [] && Listed(c, names[..|names| - 1])
    requires names[|names| - 1] !in names[..|names| - 1]
    ensures Sum(UnpaidOf(c, names)) ==
            Sum(UnpaidOf(c, names[..|names| - 1])) + c.producers[names[|names| - 1]].unpaidBlocks
    ensures Sum(UnpaidOf(c, names[..|names| - 1])) >= 0
  {
    var prefix, n := names[..|names| - 1], names[|names| - 1];
    assert UnpaidOf(c, names) == UnpaidOf(c, prefix)[n := c.producers[n].unpaidBlocks];
    SumUpdate(UnpaidOf(c, prefix), n, c.producers[n].unpaidBlocks);
    SumNonNegative(UnpaidOf(c, prefix));
  }

  lemma RewardIsProduct(c: Chain, n: Name)
    requires n in c.producers && Books.Counted(c, Books.LIMIT + 1)
    ensures Reward(c, n) == PayPerBlock(c.global) * c.producers[n].unpaidBlocks
    ensures Reward(c, n) > 0 <==> c.producers[n].unpaidBlocks > 0
  {
    Books.RewardExact(c, n);
  }

  lemma {:induction false} TotalIsProduct(c: Chain, names: seq<Name>)
    requires Listed(c, names) && Books.Counted(c, Books.LIMIT + 1)
    ensures TotalDue(c, names) == PayPerBlock(c.global) * Sum(UnpaidOf(c, names))
  {
    if names == [] {
      assert UnpaidOf(c, names) == map[];
    } else {
      var prefix, n := names[..|names| - 1], names[|names| - 1];
      LastOf(c, names);
      TotalIsProduct(c, prefix);
      RewardIsProduct(c, n);
      UnpaidLast(c, names);
      OneMoreRow(PayPerBlock(c.global), TotalDue(c, prefix), Sum(UnpaidOf(c, prefix)), Reward(c, n),
                 c.producers[n].unpaidBlocks, TotalDue(c, names), Sum(UnpaidOf(c, names)));
    }
  }

  lemma {:induction false} DueMeansUnpaid(c: Chain, names: seq<Name>)
    requires Listed(c, names) && Books.Counted(c, Books.LIMIT + 1)
    ensures NoneWrapsToZero(c, names)
    ensures SomeDue(c, names) <==> Sum(UnpaidOf(c, names)) > 0
  {
    if names == [] {
      assert UnpaidOf(c, names) == map[];
    } else {
      LastOf(c, names);
      DueMeansUnpaid(c, names[..|names| - 1]);
      RewardIsProduct(c, names[|names| - 1]);
      UnpaidLast(c, names);
    }
  }

  lemma OneMoreRow(rate: int, total: int, sum: int, reward: int, blocks: int, total': int, sum': int)
    requires total == rate * sum && reward == rate * blocks
    requires total' == total + reward && sum' == sum + blocks
    ensures total' == rate * sum'
  {
  }

  lemma OrderListed(c: Chain)
    ensures Listed(c, ProducerOrder(c.producers))
    ensures UnpaidOf(c, ProducerOrder(c.producers)) == Books.Unpaid(c.producers)
  {
    var ones: map<Name, int> := map n | n in c.producers :: 0;
    var names := ProducerOrder(c.producers);
    forall i, j | 0 <= i < j < |names| ensures names[i] != names[j] {
      assert Tables.Precedes(ones, names[i], names[j]);
    }
  }

  /**
   * A payout commits exactly when nothing is unpaid or the ledger can mint rate times the unpaid blocks,
   * and then that product is what is minted and moved to the pay account.
   */
  lemma UpdRewardsOutcome(c: Chain, now: nat)
    requires L.Sound(c.ledger) && Books.Counted(c, Books.LIMIT + 1)
    ensures
      var blocks, total := c.global.totalUnpaidBlocks, PayPerBlock(c.global) * c.global.totalUnpaidBlocks;
      && (UpdRewards(c, now).Some? <==> blocks == 0 || Fundable(c.ledger, c.accounts, total))
      && (UpdRewards(c, now).Some? ==>
          UpdRewards(c, now).value.ledger == if blocks == 0 then c.ledger else Funded(c.ledger, total))
  {
    var names := ProducerOrder(c.producers);
    OrderListed(c);
    TotalIsProduct(c, names);
    DueMeansUnpaid(c, names);
    PayoutInOneStroke(c, names, now);
  }

  /**
   * When onblock aborts: an hour after the last payout, with blocks unpaid that the ledger cannot fund, the
   * whole action fails, so neither is the block counted nor a schedule elected.
   */
  lemma OnBlockOutcome(c: Chain, auth: set<Name>, slot: nat, producer: Name, now: nat, reply: int)
    requires L.Sound(c.ledger) && Books.InBooks(c) && c.clock + 500_000 <= now && c.headerSlot < slot
    ensures
      var g := CountBlock(c, slot, producer, now).global;
      OnBlock(c, auth, slot, producer, now, reply).Some? <==>
        && EOSIO in auth
        && (now - g.lastUpdatedReward <= HOUR || g.totalUnpaidBlocks == 0
            || Fundable(c.ledger, c.accounts, PayPerBlock(g) * g.totalUnpaidBlocks))
  {
    Books.CountBlockBounded(c, slot, producer, now);
    UpdRewardsOutcome(CountBlock(c, slot, producer, now), now);
  }
}
