/** Block rewards: counting blocks, paying them out through the token ledger, and claiming. */
module ProducerPay {
  import opened Base
  import opened State
  import opened Tables
  import L = Ledger
  import Election

  const HOUR: nat := 3_600_000_000
  const DAY: nat := 24 * HOUR

  /** Slot 0 is the start of the year 2000. */
  function SlotTime(slot: nat): nat {
    946_684_800_000_000 + slot * 500_000
  }

  /** 4 tokens a block on the first day after activation, 2 on the second, 1 from then on. */
  function PayPerBlock(g: Global): nat
  {
    var elapsed := SlotTime(g.lastBlockSlot) - g.activatedTime;
    if elapsed < DAY then 4 else if elapsed < 2 * DAY then 2 else 1
  }

  /** The reward of one row: an 8-bit rate times a 32-bit count, truncated to 32 bits. */
  function NewTokens(rate: nat, blocks: nat): nat {
    (rate * blocks) % U32
  }

  function Core(amount: int): L.Asset {
    L.Asset(amount, L.CORE)
  }

  function OwedTo(payments: map<Name, int>, n: Name): int
  {
    if n in payments then payments[n] else 0
  }

  /** The tables of the system contract after producer `n` is paid `tokens`. */
  function Credited(c: Chain, n: Name, tokens: int, now: nat): Chain
    requires n in c.producers
  {
    var p := c.producers[n];
    c.(global := c.global.(totalUnpaidBlocks := Sub32(c.global.totalUnpaidBlocks, p.unpaidBlocks)),
       payments := c.payments[n := OwedTo(c.payments, n) + tokens],
       producers := c.producers[n := p.(lastClaimTime := now, unpaidBlocks := 0)],
       journal := c.journal + [Paid(n, PayPerBlock(c.global), p.unpaidBlocks)])
  }

  /** One round of the payout loop: mint the reward, move it to the pay account, note what is owed. */
  function PayOne(c: Chain, n: Name, now: nat): Option<Chain>
    requires n in c.producers
  {
    var p := c.producers[n];
    if p.unpaidBlocks == 0 then Some(c) else
    var tokens := NewTokens(PayPerBlock(c.global), p.unpaidBlocks);
    var minted :- L.Issue(c.ledger, {EOSIO}, EOSIO, Core(tokens), "");
    var moved :- L.Transfer(minted, c.accounts, {EOSIO}, EOSIO, BPAY, Core(tokens), "");
    Some(Credited(c.(ledger := moved), n, tokens, now))
  }

  function PayAll(c: Chain, names: seq<Name>, now: nat): (r: Option<Chain>)
    requires forall n :: n in names ==> n in c.producers
    ensures r.Some? ==> r.value.producers.Keys == c.producers.Keys
  {
    if names == [] then Some(c) else
    var paid :- PayAll(c, names[..|names| - 1], now);
    PayOne(paid, names[|names| - 1], now)
  }

  /** Rows of the producer table in primary-key order. */
  function ProducerOrder(ps: map<Name, Producer>): (names: seq<Name>)
    ensures forall n :: n in names <==> n in ps
  {
    Listing(map n | n in ps :: 0)
  }

  function UpdRewards(c: Chain, now: nat): Option<Chain>
  {
    var paid :- PayAll(c, ProducerOrder(c.producers), now);
    Some(paid.(global := paid.global.(lastUpdatedReward := now)))
  }

  /** The first half of onblock: note the block, activate on first use, count it for its producer. */
  function CountBlock(c: Chain, slot: nat, producer: Name, now: nat): Chain
  {
    var g := c.global.(lastBlockSlot := slot,
                       activatedTime := if c.global.activatedTime == 0 then now else c.global.activatedTime);
    if producer !in c.producers then c.(global := g) else
    var p := c.producers[producer];
    c.(global := g.(totalUnpaidBlocks := (g.totalUnpaidBlocks + 1) % U32),
       producers := c.producers[producer := p.(unpaidBlocks := (p.unpaidBlocks + 1) % U32)],
       journal := c.journal + [Produced(producer)])
  }

  /** The reward half of onblock: count the block and pay out when an hour has passed. */
  function Settled(c: Chain, slot: nat, producer: Name, now: nat): Option<Chain>
  {
    var counted := CountBlock(c, slot, producer, now);
    if now - counted.global.lastUpdatedReward > HOUR then UpdRewards(counted, now) else Some(counted)
  }

  /** The election half of onblock; `reply` is what the host answers to a proposed schedule. */
  ghost function Elected(c: Chain, slot: nat, reply: int): (d: Chain)
    ensures d == c.(global := d.global, journal := d.journal)
  {
    if Sub32(slot, c.global.lastScheduleUpdate) > 90 then Election.UpdateElectedProducers(c, slot, reply) else c
  }

  ghost function OnBlock(c: Chain, auth: set<Name>, slot: nat, producer: Name, now: nat, reply: int): Option<Chain>
  {
    if EOSIO !in auth then None else
    var paid :- Settled(c, slot, producer, now);
    Some(Elected(paid, slot, reply))
  }

  function ClaimRewards(c: Chain, auth: set<Name>, owner: Name): Option<Chain>
  {
    if !(owner in auth && owner in c.payments && c.payments[owner] != 0) then None else
    var ledger :- L.Transfer(c.ledger, c.accounts, {BPAY, owner}, BPAY, owner, Core(c.payments[owner]), "");
    Some(c.(ledger := ledger, payments := c.payments[owner := 0],
            journal := c.journal + [Claimed(owner, c.payments[owner])]))
  }
}
