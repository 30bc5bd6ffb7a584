/** Registration and voting: what each action of voting.cpp does to the tables. */
module Voting {
  import opened Base
  import opened Sums
  import opened State
  import P = Permissions

  // ---------------------------------------------------------------- registration

  predicate DistinctKeys(keys: seq<KeyWeight>)
  {
    forall i, j :: 0 <= i < j < |keys| ==> keys[i].key != keys[j].key
  }

  function Weight(keys: seq<KeyWeight>): nat
  {
    if keys == [] then 0 else Weight(keys[..|keys| - 1]) + keys[|keys| - 1].weight
  }

  /** A signing authority that can be satisfied: non-zero threshold, distinct keys, enough weight. */
  predicate ValidAuthority(a: Authority)
  {
    a.threshold != 0 && DistinctKeys(a.keys) && a.threshold <= Weight(a.keys)
  }

  function RegisterProducer(c: Chain, producer: Name, authority: Authority): (d: Chain)
    ensures d == c.(producers := d.producers, journal := d.journal)
  {
    var key := if |authority.keys| == 1 then authority.keys[0].key else 0;
    var row := if producer in c.producers
               then c.producers[producer].(producerKey := key, isActive := true, authority := Some(authority))
               else Producer(0, key, true, 0, 0, Some(authority));
    c.(producers := c.producers[producer := row], journal := c.journal + [Registered(producer, authority)])
  }

  function RegProducer(c: Chain, auth: set<Name>, producer: Name, key: Key, urlSize: nat): Option<Chain>
  {
    if !(producer in auth && urlSize < 512 && P.MayRegister(c.permissions, producer)) then None else
    Some(RegisterProducer(c, producer, KeyAuthority(key)))
  }

  function RegProducer2(c: Chain, auth: set<Name>, producer: Name, authority: Authority, urlSize: nat): Option<Chain>
  {
    if !(producer in auth && urlSize < 512 && P.MayRegister(c.permissions, producer)) then None else
    :- Check(ValidAuthority(authority));
    Some(RegisterProducer(c, producer, authority))
  }

  function Deactivated(c: Chain, producer: Name): (r: Option<Chain>)
    ensures r.Some? ==> r.value == c.(producers := r.value.producers)
  {
    if producer !in c.producers then None else
    Some(c.(producers := c.producers[producer := c.producers[producer].Deactivate()]))
  }

  function UnregProd(c: Chain, auth: set<Name>, producer: Name): Option<Chain>
  {
    if producer !in auth then None else
    Deactivated(c, producer)
  }

  function RmvProducer(c: Chain, auth: set<Name>, producer: Name): Option<Chain>
  {
    if EOSIO !in auth then None else
    Deactivated(c, producer)
  }

  /** Deactivates the producer and, by an inline action, switches its registration right off. */
  function KickBp(c: Chain, auth: set<Name>, producer: Name): Option<Chain>
  {
    if EOSIO !in auth then None else
    var d :- Deactivated(c, producer);
    var permissions :- P.KickBp(d.permissions, d.accounts, {EOSIO}, producer);
    Some(d.(permissions := permissions))
  }

  // ---------------------------------------------------------------- votes

  ghost predicate HasStake(stakes: map<nat, Stake>, acc: Name)
  {
    exists i :: i in stakes && stakes[i].account == acc
  }

  function InProgressAmount(s: Stake, acc: Name): nat
  {
    if s.account == acc && s.status == STAKE_IN_PROGRESS then s.amount else 0
  }

  ghost function InProgress(stakes: map<nat, Stake>, acc: Name): map<nat, int>
  {
    map i | i in stakes :: InProgressAmount(stakes[i], acc)
  }

  /** The stake behind an account: -1 when it has no stake row of any status. */
  ghost function Staked(stakes: map<nat, Stake>, acc: Name): int
  {
    if HasStake(stakes, acc) then Sum(InProgress(stakes, acc)) else -1
  }

  /** How one update moves votes: `before` units leave `from`, `now` units go to `dest`. */
  datatype Switch = Switch(from: Name, before: int, dest: Name, now: int)
  {
    function Delta(q: Name): int {
      (if q == dest then now else 0) - (if q == from then before else 0)
    }
  }

  /** `dangling` is the name read through the end iterator when the voter has no row yet. */
  ghost function SwitchOf(c: Chain, voter: Name, producer: Name, dangling: Name): Switch
  {
    if voter in c.voters
    then Switch(c.voters[voter].producer, c.voters[voter].staked, producer, Staked(c.stakes, voter))
    else Switch(dangling, 0, producer, Staked(c.stakes, voter))
  }

  /** A name on either side of the switch must be registered, and active when this is a vote. */
  predicate Accepts(ps: map<Name, Producer>, s: Switch, voting: bool, q: Name)
  {
    if q in ps then voting ==> ps[q].isActive else s.Delta(q) == 0
  }

  function AtLeastZero(votes: int): int
  {
    if votes < 0 then 0 else votes
  }

  function Retally(p: Producer, delta: int): Producer
  {
    p.(totalVotes := AtLeastZero(p.totalVotes + delta))
  }

  function Tallied(ps: map<Name, Producer>, s: Switch): map<Name, Producer>
  {
    map q | q in ps :: if q == s.from || q == s.dest then Retally(ps[q], s.Delta(q)) else ps[q]
  }

  function WeightChange(ps: map<Name, Producer>, s: Switch): int
  {
    (if s.from in ps then s.Delta(s.from) else 0)
    + (if s.dest in ps && s.dest != s.from then s.Delta(s.dest) else 0)
  }

  /** One table row modified, if there is one. */
  function Modified(ps: map<Name, Producer>, q: Name, delta: int): map<Name, Producer>
  {
    if q in ps then ps[q := Retally(ps[q], delta)] else ps
  }

  /** The update touches its two names one after the other; the order does not matter. */
  lemma TalliedStepwise(ps: map<Name, Producer>, s: Switch)
    ensures s.from == s.dest ==> Tallied(ps, s) == Modified(ps, s.dest, s.Delta(s.dest))
    ensures s.from != s.dest ==>
      && Tallied(ps, s) == Modified(Modified(ps, s.from, s.Delta(s.from)), s.dest, s.Delta(s.dest))
      && Tallied(ps, s) == Modified(Modified(ps, s.dest, s.Delta(s.dest)), s.from, s.Delta(s.from))
  {
  }

  ghost function UpdateVotes(c: Chain, voter: Name, producer: Name, voting: bool, dangling: Name): Option<Chain>
  {
    var s := SwitchOf(c, voter, producer, dangling);
    if !voting && s.now == -1 then Some(c) else
    :- Check(s.now > -1);
    :- Check(Accepts(c.producers, s, voting, s.from) && Accepts(c.producers, s, voting, s.dest));
    Some(c.(producers := Tallied(c.producers, s),
            voters := c.voters[voter := Voter(producer, s.now)],
            global := c.global.(totalVoteWeight := c.global.totalVoteWeight + WeightChange(c.producers, s))))
  }

  /** An update of votes changes tallies, the voter's row and the weight, and nothing else. */
  ghost predicate OnlyVotes(c: Chain, d: Chain)
  {
    && d == c.(producers := d.producers, voters := d.voters,
               global := c.global.(totalVoteWeight := d.global.totalVoteWeight))
    && d.producers.Keys == c.producers.Keys
    && forall n :: n in c.producers ==> d.producers[n] == c.producers[n].(totalVotes := d.producers[n].totalVotes)
  }

  lemma UpdateFrame(c: Chain, voter: Name, producer: Name, voting: bool, dangling: Name)
    requires UpdateVotes(c, voter, producer, voting, dangling).Some?
    ensures OnlyVotes(c, UpdateVotes(c, voter, producer, voting, dangling).value)
  {
  }

  ghost function VoteProducer(c: Chain, auth: set<Name>, voter: Name, producer: Name, dangling: Name): Option<Chain>
  {
    if voter !in auth then None else
    UpdateVotes(c, voter, producer, true, dangling)
  }

  ghost function VOnStake(c: Chain, auth: set<Name>, staker: Name): Option<Chain>
  {
    if STAKE_LIBRE !in auth then None else
    if staker !in c.voters then Some(c) else
    UpdateVotes(c, staker, c.voters[staker].producer, false, 0)
  }
}
