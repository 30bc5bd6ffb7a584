/** What block rewards leave alone: votes, registrations, permissions and proposed schedules. */
module Standing {
  import opened Base
  import opened State
  import opened ProducerPay

  ghost predicate SameRow(p: Producer, q: Producer)
  {
    p.(unpaidBlocks := 0, lastClaimTime := 0) == q.(unpaidBlocks := 0, lastClaimTime := 0)
  }

  ghost predicate OnlyBlocksAndPay(events: seq<Event>)
  {
    forall i :: 0 <= i < |events| ==> events[i].Paid? || events[i].Produced?
  }

  ghost predicate Extends(before: seq<Event>, after: seq<Event>)
  {
    && |before| <= |after|
    && after[..|before|] == before
    && OnlyBlocksAndPay(after[|before|..])
  }

  /** From `c` to `d` only blocks, pay and tokens changed. */
  ghost predicate SameStanding(c: Chain, d: Chain)
  {
    && d.producers.Keys == c.producers.Keys
    && (forall n :: n in c.producers ==> SameRow(c.producers[n], d.producers[n]))
    && d.voters == c.voters && d.permissions == c.permissions && d.stakes == c.stakes && d.accounts == c.accounts
    && d.clock == c.clock && d.headerSlot == c.headerSlot
    && d.global.lastScheduleSize == c.global.lastScheduleSize
    && d.global.lastScheduleUpdate == c.global.lastScheduleUpdate
    && d.global.totalVoteWeight == c.global.totalVoteWeight
    && Extends(c.journal, d.journal)
  }

  lemma SameStandingTransitive(c: Chain, d: Chain, e: Chain)
    requires SameStanding(c, d) && SameStanding(d, e)
    ensures SameStanding(c, e)
  {
    forall n | n in c.producers ensures SameRow(c.producers[n], e.producers[n]) {
      assert SameRow(c.producers[n], d.producers[n]) && SameRow(d.producers[n], e.producers[n]);
    }
    assert e.journal[..|c.journal|] == e.journal[..|d.journal|][..|c.journal|];
    forall i | |c.journal| <= i < |e.journal| ensures e.journal[i].Paid? || e.journal[i].Produced? {
      if i < |d.journal| {
        assert d.journal[i] == d.journal[|c.journal|..][i - |c.journal|];
      } else {
        assert e.journal[i] == e.journal[|d.journal|..][i - |d.journal|];
      }
    }
  }

  lemma {:induction false} PayAllStanding(c: Chain, names: seq<Name>, now: nat)
    requires forall n :: n in names ==> n in c.producers
    requires PayAll(c, names, now).Some?
    ensures SameStanding(c, PayAll(c, names, now).value)
  {
    if names != [] {
      PayAllStanding(c, names[..|names| - 1], now);
      var d := PayAll(c, names[..|names| - 1], now).value;
      var n := names[|names| - 1];
      PayOneStanding(d, n, now);
      SameStandingTransitive(c, d, PayOne(d, n, now).value);
    }
  }

  lemma PayOneStanding(c: Chain, n: Name, now: nat)
    requires n in c.producers && PayOne(c, n, now).Some?
    ensures SameStanding(c, PayOne(c, n, now).value)
  {
    var d := PayOne(c, n, now).value;
    if c.producers[n].unpaidBlocks != 0 {
      assert d.journal[|c.journal|..] == [d.journal[|c.journal|]];
    } else {
      assert c.journal[|c.journal|..] == [];
    }
  }

  lemma CountBlockStanding(c: Chain, slot: nat, producer: Name, now: nat)
    ensures SameStanding(c, CountBlock(c, slot, producer, now))
  {
    var d := CountBlock(c, slot, producer, now);
    if producer in c.producers {
      assert d.journal[|c.journal|..] == [Produced(producer)];
    } else {
      assert d.journal == c.journal && d.producers == c.producers;
    }
  }

  lemma SettledStanding(c: Chain, slot: nat, producer: Name, now: nat)
    requires Settled(c, slot, producer, now).Some?
    ensures SameStanding(c, Settled(c, slot, producer, now).value)
  {
    var counted := CountBlock(c, slot, producer, now);
    CountBlockStanding(c, slot, producer, now);
    if now - counted.global.lastUpdatedReward > HOUR {
      PayAllStanding(counted, ProducerOrder(counted.producers), now);
      var paid := PayAll(counted, ProducerOrder(counted.producers), now).value;
      SameStandingTransitive(c, counted, paid);
    }
  }
}
