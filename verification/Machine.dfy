/** The chain as one state machine: actions of the contracts and moves of their environment. */
module Machine {
  import opened Base
  import opened State
  import L = Ledger
  import P = Permissions
  import Voting
  import ProducerPay

  datatype Action =
    | DoRegProducer(auth: set<Name>, producer: Name, key: Key, urlSize: nat)
    | DoRegProducer2(auth: set<Name>, producer: Name, authority: Authority, urlSize: nat)
    | DoUnregProd(auth: set<Name>, producer: Name)
    | DoRmvProducer(auth: set<Name>, producer: Name)
    | DoKickBp(auth: set<Name>, producer: Name)
    | DoVoteProducer(auth: set<Name>, voter: Name, producer: Name, dangling: Name)
    | DoVOnStake(auth: set<Name>, staker: Name)
    | DoOnBlock(auth: set<Name>, slot: nat, producer: Name, now: nat, reply: int)
    | DoClaimRewards(auth: set<Name>, owner: Name)
    | DoToken(auth: set<Name>, token: L.Action)
    | DoPermission(auth: set<Name>, permission: P.Action)
    | DoStakesChange(stakes: map<nat, Stake>)
    | DoAccountCreated(account: Name)

  /** What an action commits, or None when one of its checks aborts it. */
  ghost function Effect(c: Chain, a: Action): Option<Chain>
  {
    match a
    case DoRegProducer(auth, producer, key, urlSize) => Voting.RegProducer(c, auth, producer, key, urlSize)
    case DoRegProducer2(auth, producer, authority, urlSize) => Voting.RegProducer2(c, auth, producer, authority, urlSize)
    case DoUnregProd(auth, producer) => Voting.UnregProd(c, auth, producer)
    case DoRmvProducer(auth, producer) => Voting.RmvProducer(c, auth, producer)
    case DoKickBp(auth, producer) => Voting.KickBp(c, auth, producer)
    case DoVoteProducer(auth, voter, producer, dangling) => Voting.VoteProducer(c, auth, voter, producer, dangling)
    case DoVOnStake(auth, staker) => Voting.VOnStake(c, auth, staker)
    case DoOnBlock(auth, slot, producer, now, reply) => ProducerPay.OnBlock(c, auth, slot, producer, now, reply)
    case DoClaimRewards(auth, owner) => ProducerPay.ClaimRewards(c, auth, owner)
    case DoToken(auth, token) => var l :- L.Step(c.ledger, c.accounts, auth, token); Some(c.(ledger := l))
    case DoPermission(auth, permission) =>
      var t :- P.Step(c.permissions, c.accounts, auth, permission); Some(c.(permissions := t))
    case DoStakesChange(stakes) => Some(c.(stakes := stakes))
    case DoAccountCreated(account) => Some(c.(accounts := c.accounts + {account}))
  }

  /** One step: an aborted action changes nothing, but time passes with every block. */
  ghost function Next(c: Chain, a: Action): Chain
  {
    var after := Effect(c, a).GetOr(c);
    if a.DoOnBlock? then after.(clock := a.now, headerSlot := a.slot) else after
  }

  ghost function Run(c: Chain, actions: seq<Action>): Chain
  {
    if actions == [] then c else Next(Run(c, actions[..|actions| - 1]), actions[|actions| - 1])
  }

  /** Blocks come at least half a second apart, with increasing header slots, within the 32-bit range. */
  ghost predicate Timed(c: Chain, a: Action)
  {
    a.DoOnBlock? ==> c.clock + 500_000 <= a.now && c.headerSlot < a.slot < U32
  }

  ghost predicate AllTimed(c: Chain, actions: seq<Action>)
  {
    forall i :: 0 <= i < |actions| ==> Timed(Run(c, actions[..i]), actions[i])
  }

  lemma TimedPrefix(c: Chain, actions: seq<Action>)
    requires AllTimed(c, actions) && actions != []
    ensures AllTimed(c, actions[..|actions| - 1])
    ensures Timed(Run(c, actions[..|actions| - 1]), actions[|actions| - 1])
  {
    var before := actions[..|actions| - 1];
    assert forall i :: 0 <= i < |before| ==> before[..i] == actions[..i] && before[i] == actions[i];
  }

  /** The pay account signs nothing itself: claims are its only spending. */
  predicate PayAccountSilent(a: Action)
  {
    a.DoToken? ==> BPAY !in a.auth
  }
}
