/** When each multisig action commits, stated from the history, and why every event of a run happened. */
module MultisigOutcome {
  import opened Base
  import opened Multisig
  import opened MultisigLife
  import opened MultisigHistory

  // ---------------------------------------------------------------- legacy rows

  function Occurrences(s: seq<Level>, level: Level): nat
  {
    multiset(s)[level]
  }

  /** A legacy row holds what it held at the start, plus approvals, minus withdrawals. */
  ghost predicate OldRowExact(g: Tables, t: Tables, id: Id, level: Level)
  {
    id in t.oldApprovals ==>
      && id in g.oldApprovals && id in t.proposals
      && Occurrences(t.oldApprovals[id].provided, level) ==
         Occurrences(g.oldApprovals[id].provided, level) + |ApprovalTimes(t.log, id, level)| - Withdrawals(t.log, id, level)
  }

  ghost predicate OldRowsExact(g: Tables, t: Tables)
  {
    forall id, level :: OldRowExact(g, t, id, level)
  }

  lemma ApproveOldExact(g: Tables, t: Tables, auth: set<Level>, now: Time, id: Id, level: Level, hash: Hash, i: Id, l: Level)
    requires OldRowExact(g, t, i, l) && Approve(t, auth, now, id, level, hash).Some?
    requires t.approvals.Keys !! t.oldApprovals.Keys
    ensures OldRowExact(g, Approve(t, auth, now, id, level, hash).value, i, l)
  {
    LogGrows(t.log, Approved(id, level, now), i, l);
    if i == id && id in t.oldApprovals {
      MoveCounts(t.oldApprovals[id].requested, t.oldApprovals[id].provided, level);
    }
  }

  lemma UnapproveOldExact(g: Tables, t: Tables, auth: set<Level>, now: Time, id: Id, level: Level, i: Id, l: Level)
    requires OldRowExact(g, t, i, l) && Unapprove(t, auth, now, id, level).Some?
    requires t.approvals.Keys !! t.oldApprovals.Keys
    ensures OldRowExact(g, Unapprove(t, auth, now, id, level).value, i, l)
  {
    LogGrows(t.log, Withdrawn(id, level), i, l);
    if i == id && id in t.oldApprovals {
      MoveCounts(t.oldApprovals[id].provided, t.oldApprovals[id].requested, level);
    }
  }

  /** Other actions leave a legacy row as it is or remove it, and log nothing that counts for it. */
  lemma OthersKeepOldRow(t: Tables, c: Call, i: Id)
    requires !c.action.DoApprove? && !c.action.DoUnapprove?
    requires Effect(t, c.auth, c.now, c.action).Some?
    requires i in t.oldApprovals ==> i in t.proposals
    ensures
      var t' := Effect(t, c.auth, c.now, c.action).value;
      && |t'.log| == |t.log| + 1 && t'.log == t.log + [t'.log[|t.log|]]
      && !t'.log[|t.log|].Approved? && !t'.log[|t.log|].Withdrawn?
      && (i in t'.oldApprovals ==>
          i in t.oldApprovals && t'.oldApprovals[i] == t.oldApprovals[i] && !Begins(t'.log[|t.log|], i))
  {
    match c.action
    case DoPropose(id, requested, trx, host) =>
    case DoCancel(id, canceler) =>
    case DoExec(id, executer, host) =>
    case DoInvalidate(account) =>
  }

  lemma NextOldExact(g: Tables, t: Tables, c: Call, i: Id, l: Level)
    requires OldRowExact(g, t, i, l) && Matched(t)
    ensures OldRowExact(g, Next(t, c), i, l)
  {
    if Effect(t, c.auth, c.now, c.action).Some? {
      NextMatched(t, c);
      match c.action
      case DoApprove(id, level, hash) => ApproveOldExact(g, t, c.auth, c.now, id, level, hash, i, l);
      case DoUnapprove(id, level) => UnapproveOldExact(g, t, c.auth, c.now, id, level, i, l);
      case _ =>
        OthersKeepOldRow(t, c, i);
        LogGrows(t.log, Next(t, c).log[|t.log|], i, l);
    }
  }

  lemma {:induction false} OldRowsExactOnEveryRun(g: Tables, calls: seq<Call>)
    requires Genesis(g)
    ensures OldRowsExact(g, Run(g, calls))
  {
    if calls == [] {
    } else {
      var before := calls[..|calls| - 1];
      OldRowsExactOnEveryRun(g, before);
      MatchedOnEveryRun(g, before);
      forall id, level ensures OldRowExact(g, Run(g, calls), id, level) {
        NextOldExact(g, Run(g, before), calls[|calls| - 1], id, level);
      }
    }
  }

  // ---------------------------------------------------------------- exec

  /**
   * How many approvals of the level count for the proposal, read off the history alone. A proposal that was
   * there from the start has the approvals it had then, plus those given, minus those withdrawn, and none at
   * all once the actor has invalidated.
   */
  ghost function Voices(g: Tables, log: seq<Event>, id: Id, level: Level): int
  {
    if Current(log, id).Some? then Counting(log, id, level)
    else if id !in g.oldApprovals || InvalidatedFrom(log, level.actor, 0) then 0
    else Occurrences(g.oldApprovals[id].provided, level) + |ApprovalTimes(log, id, level)| - Withdrawals(log, id, level)
  }

  /** Everything the history says about the tables. */
  ghost predicate Reached(g: Tables, t: Tables, now: Time)
  {
    History(g, t, now) && OldRowsExact(g, t)
  }

  lemma ReachedOnEveryRun(g: Tables, calls: seq<Call>)
    requires Genesis(g) && ClockMonotone(calls)
    ensures Reached(g, Run(g, calls), LastTime(calls))
  {
    HistoryOnEveryRun(g, calls);
    OldRowsExactOnEveryRun(g, calls);
  }

  lemma PresentedVoices(g: Tables, t: Tables, now: Time, id: Id, level: Level)
    requires Reached(g, t, now) && id in t.proposals
    ensures HasRow(t, id) && Occurrences(Presented(t, id), level) == Voices(g, t.log, id, level)
  {
    assert NewRowSound(t, id);
    if id in t.approvals {
      PresentedCounts(g, t, id, level);
    } else {
      assert OldRowSound(g, t, id) && OldRowExact(g, t, id, level);
      OldStandingCounts(t.invalidations, t.oldApprovals[id].provided, level);
      InvalidatedIffStored(t, level.actor);
    }
  }

  /** Signed by the account, at any permission. */
  ghost predicate SignedBy(auth: set<Level>, account: Name)
  {
    exists l :: l in auth && l.actor == account
  }

  ghost predicate Expired(trx: Packed, now: Time)
  {
    trx.expiration < (now / 1_000_000) % 0x1_0000_0000
  }

  ghost predicate Gone(t: Tables, t': Tables, id: Id, e: Event)
  {
    && t'.proposals == t.proposals - {id}
    && t'.approvals == t.approvals - {id} && t'.oldApprovals == t.oldApprovals - {id}
    && t'.invalidations == t.invalidations && t'.log == t.log + [e]
  }

  /**
   * Exec commits exactly when its executer signed, the proposal is stored and unexpired, and the host accepts
   * the stored bytes with the presented levels, which hold each level as often as the history has it counting.
   */
  lemma ExecOutcome(g: Tables, t: Tables, auth: set<Level>, now: Time, id: Id, executer: Name, host: Host)
    requires Reached(g, t, now)
    ensures id in t.proposals ==> HasRow(t, id)
    ensures id in t.proposals ==> forall level :: Occurrences(Presented(t, id), level) == Voices(g, t.log, id, level)
    ensures Exec(t, auth, now, id, executer, host).Some? <==>
            && SignedBy(auth, executer) && id in t.proposals && !Expired(t.proposals[id], now)
            && host(t.proposals[id], Presented(t, id)) > 0
    ensures Exec(t, auth, now, id, executer, host).Some? ==>
            Gone(t, Exec(t, auth, now, id, executer, host).value, id, Executed(id, Presented(t, id), t.proposals[id]))
  {
    if id in t.proposals {
      forall level ensures Occurrences(Presented(t, id), level) == Voices(g, t.log, id, level) {
        PresentedVoices(g, t, now, id, level);
      }
      ExecCommits(t, auth, now, id, executer, host);
    }
  }

  lemma ExecCommits(t: Tables, auth: set<Level>, now: Time, id: Id, executer: Name, host: Host)
    requires Matched(t) && id in t.proposals && HasRow(t, id)
    ensures Exec(t, auth, now, id, executer, host).Some? <==>
            && SignedBy(auth, executer) && !Expired(t.proposals[id], now)
            && host(t.proposals[id], Presented(t, id)) > 0
    ensures Exec(t, auth, now, id, executer, host).Some? ==>
            Gone(t, Exec(t, auth, now, id, executer, host).value, id, Executed(id, Presented(t, id), t.proposals[id]))
  {
    if Exec(t, auth, now, id, executer, host).Some? {
      var t' := Exec(t, auth, now, id, executer, host).value;
      assert t'.approvals == t.approvals - {id} && t'.oldApprovals == t.oldApprovals - {id};
    }
  }

  /** Propose commits exactly when the proposer signed a fresh, unexpired transaction the host accepts. */
  lemma ProposeOutcome(t: Tables, auth: set<Level>, now: Time, id: Id, requested: seq<Level>, trx: Packed, host: Host)
    requires Matched(t)
    ensures Propose(t, auth, now, id, requested, trx, host).Some? <==>
            SignedBy(auth, id.proposer) && !Expired(trx, now) && id !in t.proposals && host(trx, requested) > 0
    ensures Propose(t, auth, now, id, requested, trx, host).Some? ==>
            var t' := Propose(t, auth, now, id, requested, trx, host).value;
            && t'.proposals == t.proposals[id := trx] && id in t'.approvals
            && LevelsOf(t'.approvals[id].requested) == requested && t'.approvals[id].provided == []
            && t' == t.(proposals := t'.proposals, approvals := t.approvals[id := t'.approvals[id]],
                        log := t.log + [Proposed(id, requested, trx)])
  {
    assert id in t.approvals ==> id in t.proposals;
  }

  /** A third party can cancel only after expiry; the proposer can at any time. */
  lemma CancelOutcome(t: Tables, auth: set<Level>, now: Time, id: Id, canceler: Name)
    requires Matched(t)
    ensures Cancel(t, auth, now, id, canceler).Some? <==>
            && SignedBy(auth, canceler) && id in t.proposals
            && (canceler == id.proposer || Expired(t.proposals[id], now))
    ensures Cancel(t, auth, now, id, canceler).Some? ==>
            Gone(t, Cancel(t, auth, now, id, canceler).value, id, Cancelled(id))
  {
    if Cancel(t, auth, now, id, canceler).Some? {
      var t' := Cancel(t, auth, now, id, canceler).value;
      assert t'.approvals == t.approvals - {id} && t'.oldApprovals == t.oldApprovals - {id};
    } else {
      assert id in t.proposals ==> HasRow(t, id);
    }
  }

  lemma InvalidateOutcome(t: Tables, auth: set<Level>, now: Time, account: Name)
    ensures Invalidate(t, auth, now, account).Some? <==> SignedBy(auth, account)
    ensures Invalidate(t, auth, now, account).Some? ==>
            var t' := Invalidate(t, auth, now, account).value;
            && t'.invalidations.Keys == t.invalidations.Keys + {account} && t'.invalidations[account] == now
            && (forall other :: other in t.invalidations && other != account ==>
                 t'.invalidations[other] == t.invalidations[other])
            && t' == t.(invalidations := t'.invalidations, log := t.log + [Invalidated(account, now)])
  {
  }

  // ---------------------------------------------------------------- why an event happened

  /** The call, made on these tables, entitles the contract to what the event records. */
  ghost predicate Warrants(t: Tables, c: Call, e: Event)
  {
    match e
    case Proposed(id, requested, trx) =>
      && c.action.DoPropose? && c.action.id == id && c.action.requested == requested && c.action.trx == trx
      && SignedBy(c.auth, id.proposer) && id !in t.proposals && !Expired(trx, c.now) && c.action.host(trx, requested) > 0
    case Approved(id, level, time) =>
      && c.action.DoApprove? && c.action.id == id && c.action.level == level
      && level in c.auth && time == c.now && (c.action.hash.Hash? ==> c.action.hash.matches)
    case Withdrawn(id, level) =>
      c.action.DoUnapprove? && c.action.id == id && c.action.level == level && level in c.auth
    case Cancelled(id) =>
      && c.action.DoCancel? && c.action.id == id && SignedBy(c.auth, c.action.canceler)
      && id in t.proposals && (c.action.canceler == id.proposer || Expired(t.proposals[id], c.now))
    case Executed(id, levels, sent) =>
      && c.action.DoExec? && c.action.id == id && SignedBy(c.auth, c.action.executer)
      && id in t.proposals && sent == t.proposals[id] && HasRow(t, id) && levels == Presented(t, id)
      && !Expired(sent, c.now) && c.action.host(sent, levels) > 0
    case Invalidated(account, time) =>
      c.action.DoInvalidate? && c.action.account == account && SignedBy(c.auth, account) && time == c.now
  }

  lemma NextWarranted(t: Tables, c: Call)
    requires Effect(t, c.auth, c.now, c.action).Some?
    ensures
      var log := Effect(t, c.auth, c.now, c.action).value.log;
      |log| == |t.log| + 1 && Warrants(t, c, log[|t.log|])
  {
    match c.action
    case DoPropose(id, requested, trx, host) =>
    case DoApprove(id, level, hash) =>
    case DoUnapprove(id, level) =>
    case DoCancel(id, canceler) =>
    case DoExec(id, executer, host) =>
    case DoInvalidate(account) =>
  }

  /** Every event of a run was logged by one call of it, on the tables of that moment, and was warranted. */
  lemma {:induction false} EveryEventWarranted(g: Tables, calls: seq<Call>, i: nat) returns (j: nat)
    requires g.log == [] && i < |Run(g, calls).log|
    ensures j < |calls| && Run(g, calls[..j]).log == Run(g, calls).log[..i]
    ensures Warrants(Run(g, calls[..j]), calls[j], Run(g, calls).log[i])
  {
    var before, c := calls[..|calls| - 1], calls[|calls| - 1];
    var t := Run(g, before);
    if Effect(t, c.auth, c.now, c.action).Some? {
      EffectLogsOneEvent(t, c);
      NextWarranted(t, c);
    }
    if i < |t.log| {
      j := EveryEventWarranted(g, before, i);
      assert before[..j] == calls[..j];
      assert Run(g, calls).log[..i] == t.log[..i];
    } else {
      j := |calls| - 1;
      assert Run(g, calls).log[..i] == t.log;
    }
  }

  lemma EarlierCalls(calls: seq<Call>, j: nat)
    requires j < |calls| && ClockMonotone(calls)
    ensures ClockMonotone(calls[..j]) && LastTime(calls[..j]) <= calls[j].now
  {
  }

  /**
   * Nothing is executed without the host: each execution in a run comes from an exec call, signed by its
   * executer before expiry, whose host accepted exactly the bytes sent and the levels recorded; and each
   * level is among those as often as the history up to then has it counting.
   */
  lemma ExecutedOnlyIfAccepted(g: Tables, calls: seq<Call>, i: nat) returns (j: nat)
    requires Genesis(g) && ClockMonotone(calls)
    requires i < |Run(g, calls).log| && Run(g, calls).log[i].Executed?
    ensures j < |calls| && Run(g, calls[..j]).log == Run(g, calls).log[..i]
    ensures
      var log, e, c := Run(g, calls).log, Run(g, calls).log[i], calls[j];
      && c.action.DoExec? && SignedBy(c.auth, c.action.executer) && !Expired(e.sent, c.now)
      && e.id in Run(g, calls[..j]).proposals && e.sent == Run(g, calls[..j]).proposals[e.id]
      && c.action.host(e.sent, e.levels) > 0
      && forall level :: Occurrences(e.levels, level) == Voices(g, log[..i], e.id, level)
  {
    j := EveryEventWarranted(g, calls, i);
    var t, c, e := Run(g, calls[..j]), calls[j], Run(g, calls).log[i];
    EarlierCalls(calls, j);
    ReachedOnEveryRun(g, calls[..j]);
    LaterHistory(g, t, LastTime(calls[..j]), c.now);
    forall level ensures Occurrences(e.levels, level) == Voices(g, t.log, e.id, level) {
      PresentedVoices(g, t, c.now, e.id, level);
    }
  }
}
