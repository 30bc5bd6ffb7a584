/** The multisig contract: what each action does to its four tables, and the log of what committed. */
module Multisig {
  import opened Base

  type Time = nat

  datatype Level = Level(actor: Name, permission: Name)

  /** A packed transaction: the expiration its header unpacks to, in seconds, and the remaining bytes. */
  datatype Packed = Packed(expiration: nat, body: seq<nat>)

  datatype Approval = Approval(level: Level, time: Time)

  datatype Approvals = Approvals(requested: seq<Approval>, provided: seq<Approval>)

  /** The legacy format stores no times. */
  datatype OldApprovals = OldApprovals(requested: seq<Level>, provided: seq<Level>)

  /** A proposal is found by its proposer (the table scope) and its name. */
  datatype Id = Id(proposer: Name, name: Name)

  /** What committed actions did, in order. */
  datatype Event =
    | Proposed(id: Id, requested: seq<Level>, trx: Packed)
    | Approved(id: Id, level: Level, time: Time)
    | Withdrawn(id: Id, level: Level)
    | Cancelled(id: Id)
    | Executed(id: Id, levels: seq<Level>, sent: Packed)
    | Invalidated(account: Name, time: Time)

  datatype Tables = Tables(
    proposals: map<Id, Packed>, approvals: map<Id, Approvals>, oldApprovals: map<Id, OldApprovals>,
    invalidations: map<Name, Time>, log: seq<Event>)

  /** A time in whole seconds, as the 32-bit count headers use. */
  function Seconds(t: Time): nat
  {
    (t / 1_000_000) % U32
  }

  predicate HasAuth(auth: set<Level>, account: Name)
  {
    exists l :: l in auth && l.actor == account
  }

  function LevelsOf(approvals: seq<Approval>): (levels: seq<Level>)
    ensures |levels| == |approvals|
    ensures forall i :: 0 <= i < |levels| ==> levels[i] == approvals[i].level
  {
    seq(|approvals|, i requires 0 <= i < |approvals| => approvals[i].level)
  }

  /** Position of the first element equal to `x`, or the length when there is none. */
  function Find(s: seq<Level>, x: Level): (i: nat)
    ensures i <= |s|
    ensures forall j :: 0 <= j < i ==> s[j] != x
    ensures i < |s| ==> s[i] == x
  {
    if s == [] || s[0] == x then 0 else 1 + Find(s[1..], x)
  }

  function Erase<T>(s: seq<T>, i: nat): seq<T>
    requires i < |s|
  {
    s[..i] + s[i + 1..]
  }

  /** The host's check_transaction_authorization: is the transaction authorized by these levels? */
  type Host = (Packed, seq<Level>) -> int

  function Propose(t: Tables, auth: set<Level>, now: Time, id: Id, requested: seq<Level>, trx: Packed, host: Host)
    : Option<Tables>
  {
    if !HasAuth(auth, id.proposer) then None else
    :- Check(trx.expiration >= Seconds(now));
    :- Check(id !in t.proposals);
    :- Check(host(trx, requested) > 0);
    :- Check(id !in t.approvals);   // emplacing over an existing row aborts
    var row := Approvals(seq(|requested|, i requires 0 <= i < |requested| => Approval(requested[i], 0)), []);
    Some(t.(proposals := t.proposals[id := trx], approvals := t.approvals[id := row],
            log := t.log + [Proposed(id, requested, trx)]))
  }

  /** The optional hash argument: absent, or compared by the host with the stored bytes. */
  datatype Hash = NoHash | Hash(matches: bool)

  function Approve(t: Tables, auth: set<Level>, now: Time, id: Id, level: Level, hash: Hash): Option<Tables>
  {
    if level !in auth then None else
    :- Check(hash.Hash? ==> id in t.proposals && hash.matches);
    if id in t.approvals then
      var row := t.approvals[id];
      var i := Find(LevelsOf(row.requested), level);
      :- Check(i < |row.requested|);
      var row' := Approvals(Erase(row.requested, i), row.provided + [Approval(level, now)]);
      Some(t.(approvals := t.approvals[id := row'], log := t.log + [Approved(id, level, now)]))
    else
      :- Check(id in t.oldApprovals);
      var row := t.oldApprovals[id];
      var i := Find(row.requested, level);
      :- Check(i < |row.requested|);
      var row' := OldApprovals(Erase(row.requested, i), row.provided + [level]);
      Some(t.(oldApprovals := t.oldApprovals[id := row'], log := t.log + [Approved(id, level, now)]))
  }

  function Unapprove(t: Tables, auth: set<Level>, now: Time, id: Id, level: Level): Option<Tables>
  {
    if level !in auth then None else
    if id in t.approvals then
      var row := t.approvals[id];
      var i := Find(LevelsOf(row.provided), level);
      :- Check(i < |row.provided|);
      var row' := Approvals(row.requested + [Approval(level, now)], Erase(row.provided, i));
      Some(t.(approvals := t.approvals[id := row'], log := t.log + [Withdrawn(id, level)]))
    else
      :- Check(id in t.oldApprovals);
      var row := t.oldApprovals[id];
      var i := Find(row.provided, level);
      :- Check(i < |row.provided|);
      var row' := OldApprovals(row.requested + [level], Erase(row.provided, i));
      Some(t.(oldApprovals := t.oldApprovals[id := row'], log := t.log + [Withdrawn(id, level)]))
  }

  function Cancel(t: Tables, auth: set<Level>, now: Time, id: Id, canceler: Name): Option<Tables>
  {
    if !HasAuth(auth, canceler) then None else
    :- Check(id in t.proposals);
    :- Check(canceler != id.proposer ==> t.proposals[id].expiration < Seconds(now));
    var rest := t.(proposals := t.proposals - {id}, log := t.log + [Cancelled(id)]);
    if id in t.approvals then Some(rest.(approvals := t.approvals - {id})) else
    :- Check(id in t.oldApprovals);
    Some(rest.(oldApprovals := t.oldApprovals - {id}))
  }

  /** An approval counts unless its actor invalidated at or after its time. */
  predicate Stands(invalidations: map<Name, Time>, a: Approval)
  {
    a.level.actor in invalidations ==> invalidations[a.level.actor] < a.time
  }

  function Standing(invalidations: map<Name, Time>, provided: seq<Approval>): seq<Level>
  {
    if provided == [] then [] else
    var a := provided[|provided| - 1];
    Standing(invalidations, provided[..|provided| - 1]) + if Stands(invalidations, a) then [a.level] else []
  }

  function OldStanding(invalidations: map<Name, Time>, provided: seq<Level>): seq<Level>
  {
    if provided == [] then [] else
    var l := provided[|provided| - 1];
    OldStanding(invalidations, provided[..|provided| - 1]) + if l.actor in invalidations then [] else [l]
  }

  /** The levels exec presents to the authorization check. */
  function Presented(t: Tables, id: Id): seq<Level>
    requires id in t.approvals || id in t.oldApprovals
  {
    if id in t.approvals
    then Standing(t.invalidations, t.approvals[id].provided)
    else OldStanding(t.invalidations, t.oldApprovals[id].provided)
  }

  function Exec(t: Tables, auth: set<Level>, now: Time, id: Id, executer: Name, host: Host): Option<Tables>
  {
    if !HasAuth(auth, executer) then None else
    :- Check(id in t.proposals);
    :- Check(t.proposals[id].expiration >= Seconds(now));
    :- Check(id in t.approvals || id in t.oldApprovals);
    :- Check(host(t.proposals[id], Presented(t, id)) > 0);
    Some(t.(proposals := t.proposals - {id},
            approvals := if id in t.approvals then t.approvals - {id} else t.approvals,
            oldApprovals := if id in t.approvals then t.oldApprovals else t.oldApprovals - {id},
            log := t.log + [Executed(id, Presented(t, id), t.proposals[id])]))
  }

  function Invalidate(t: Tables, auth: set<Level>, now: Time, account: Name): Option<Tables>
  {
    if !HasAuth(auth, account) then None else
    Some(t.(invalidations := t.invalidations[account := now], log := t.log + [Invalidated(account, now)]))
  }

  datatype Action =
    | DoPropose(id: Id, requested: seq<Level>, trx: Packed, host: Host)
    | DoApprove(id: Id, level: Level, hash: Hash)
    | DoUnapprove(id: Id, level: Level)
    | DoCancel(id: Id, canceler: Name)
    | DoExec(id: Id, executer: Name, host: Host)
    | DoInvalidate(account: Name)

  function Effect(t: Tables, auth: set<Level>, now: Time, a: Action): Option<Tables>
  {
    match a
    case DoPropose(id, requested, trx, host) => Propose(t, auth, now, id, requested, trx, host)
    case DoApprove(id, level, hash) => Approve(t, auth, now, id, level, hash)
    case DoUnapprove(id, level) => Unapprove(t, auth, now, id, level)
    case DoCancel(id, canceler) => Cancel(t, auth, now, id, canceler)
    case DoExec(id, executer, host) => Exec(t, auth, now, id, executer, host)
    case DoInvalidate(account) => Invalidate(t, auth, now, account)
  }

  /** An action with its authorizations and block time. */
  datatype Call = Call(auth: set<Level>, now: Time, action: Action)

  function Next(t: Tables, c: Call): Tables
  {
    Effect(t, c.auth, c.now, c.action).GetOr(t)
  }

  function Run(t: Tables, calls: seq<Call>): Tables
  {
    if calls == [] then t else Next(Run(t, calls[..|calls| - 1]), calls[|calls| - 1])
  }

  ghost predicate ClockMonotone(calls: seq<Call>)
  {
    forall i, j :: 0 <= i < j < |calls| ==> calls[i].now <= calls[j].now
  }

  /** Every proposal has exactly one approvals row, in one of the two formats, and no row is orphaned. */
  ghost predicate Matched(t: Tables)
  {
    && t.proposals.Keys == t.approvals.Keys + t.oldApprovals.Keys
    && t.approvals.Keys !! t.oldApprovals.Keys
  }

  /** The start of a history: proposals may exist in the legacy format only, and nobody has invalidated. */
  ghost predicate Genesis(t: Tables)
  {
    Matched(t) && t.approvals == map[] && t.invalidations == map[] && t.log == []
  }
}
