/**
 * What exec presents to the authorization check, read off the whole history of the contract: the
 * approvals given since the proposal was made, not withdrawn since, and not invalidated at or after
 * their time by their own actor.
 */
module MultisigHistory {
  import opened Base
  import opened Multisig
  import opened MultisigLife

  // ---------------------------------------------------------------- reading a log

  /** Times at which the level approved the latest instance of the proposal, oldest first. */
  function ApprovalTimes(log: seq<Event>, id: Id, level: Level): seq<Time>
  {
    if log == [] then [] else
    var e := log[|log| - 1];
    if Begins(e, id) then [] else
    ApprovalTimes(log[..|log| - 1], id, level)
    + if e.Approved? && e.id == id && e.level == level then [e.time] else []
  }

  /** How often the level was withdrawn from the latest instance of the proposal. */
  function Withdrawals(log: seq<Event>, id: Id, level: Level): nat
  {
    if log == [] then 0 else
    var e := log[|log| - 1];
    if Begins(e, id) then 0 else
    Withdrawals(log[..|log| - 1], id, level)
    + if e.Withdrawn? && e.id == id && e.level == level then 1 else 0
  }

  /** A withdrawal takes back the oldest approval that still counts. */
  function Live(log: seq<Event>, id: Id, level: Level): seq<Time>
  {
    var given, taken := ApprovalTimes(log, id, level), Withdrawals(log, id, level);
    if taken <= |given| then given[taken..] else []
  }

  /** The account invalidated itself at or after the given time, anywhere in the log. */
  ghost predicate InvalidatedFrom(log: seq<Event>, account: Name, time: Time)
  {
    exists i :: 0 <= i < |log| && log[i].Invalidated? && log[i].account == account && log[i].time >= time
  }

  /** How many of the given approval times were not overtaken by an invalidation of the account. */
  ghost function Unaffected(log: seq<Event>, account: Name, times: seq<Time>): nat
  {
    if times == [] then 0 else
    Unaffected(log, account, times[..|times| - 1])
    + if InvalidatedFrom(log, account, times[|times| - 1]) then 0 else 1
  }

  /** How many approvals of the level count at the end of the log. */
  ghost function Counting(log: seq<Event>, id: Id, level: Level): nat
  {
    Unaffected(log, level.actor, Live(log, id, level))
  }

  // ---------------------------------------------------------------- the rows hold the live times

  function TimesOf(approvals: seq<Approval>, level: Level): seq<Time>
  {
    if approvals == [] then [] else
    var a := approvals[|approvals| - 1];
    TimesOf(approvals[..|approvals| - 1], level) + if a.level == level then [a.time] else []
  }

  lemma TimesAppend(s: seq<Approval>, a: Approval, level: Level)
    ensures TimesOf(s + [a], level) == TimesOf(s, level) + if a.level == level then [a.time] else []
  {
    assert (s + [a])[..|s|] == s;
  }

  lemma {:induction false} TimesConcat(s: seq<Approval>, u: seq<Approval>, level: Level)
    ensures TimesOf(s + u, level) == TimesOf(s, level) + TimesOf(u, level)
  {
    if u == [] {
      assert s + u == s;
    } else {
      var init, a := u[..|u| - 1], u[|u| - 1];
      assert s + u == (s + init) + [a];
      TimesConcat(s, init, level);
      TimesAppend(s + init, a, level);
    }
  }

  lemma {:induction false} TimesWithout(s: seq<Approval>, level: Level)
    requires forall i :: 0 <= i < |s| ==> s[i].level != level
    ensures TimesOf(s, level) == []
  {
    if s != [] { TimesWithout(s[..|s| - 1], level); }
  }

  lemma TimesAround(s: seq<Approval>, i: nat, level: Level)
    requires i < |s|
    ensures TimesOf(s, level) ==
            TimesOf(s[..i], level) + (if s[i].level == level then [s[i].time] else []) + TimesOf(s[i + 1..], level)
    ensures TimesOf(Erase(s, i), level) == TimesOf(s[..i], level) + TimesOf(s[i + 1..], level)
  {
    TimesConcat(s[..i], s[i + 1..], level);
    TimesConcat(s[..i] + [s[i]], s[i + 1..], level);
    assert s == (s[..i] + [s[i]]) + s[i + 1..];
    TimesAppend(s[..i], s[i], level);
  }

  /** Erasing the first entry of a level drops the oldest time of that level and nothing else. */
  lemma TimesErase(s: seq<Approval>, level: Level, other: Level)
    requires Find(LevelsOf(s), level) < |s|
    ensures
      var erased := Erase(s, Find(LevelsOf(s), level));
      if other == level
      then TimesOf(s, level) != [] && TimesOf(erased, level) == TimesOf(s, level)[1..]
      else TimesOf(erased, other) == TimesOf(s, other)
  {
    var i := Find(LevelsOf(s), level);
    TimesAround(s, i, other);
    if other == level {
      assert forall j :: 0 <= j < i ==> LevelsOf(s)[j] != level;
      TimesWithout(s[..i], level);
    } else {
      assert TimesOf(s[..i], other) + [] == TimesOf(s[..i], other);
    }
  }

  ghost predicate TimesExact(t: Tables, id: Id, level: Level)
  {
    id in t.approvals ==>
      && Withdrawals(t.log, id, level) <= |ApprovalTimes(t.log, id, level)|
      && TimesOf(t.approvals[id].provided, level) == Live(t.log, id, level)
  }

  ghost predicate RowsExact(t: Tables)
  {
    forall id, level :: TimesExact(t, id, level)
  }

  lemma LogGrows(log: seq<Event>, e: Event, id: Id, level: Level)
    ensures ApprovalTimes(log + [e], id, level) ==
            if Begins(e, id) then []
            else ApprovalTimes(log, id, level) + if e.Approved? && e.id == id && e.level == level then [e.time] else []
    ensures Withdrawals(log + [e], id, level) ==
            if Begins(e, id) then 0
            else Withdrawals(log, id, level) + if e.Withdrawn? && e.id == id && e.level == level then 1 else 0
  {
    assert (log + [e])[..|log|] == log;
  }

  lemma ApproveExact(t: Tables, auth: set<Level>, now: Time, id: Id, level: Level, hash: Hash, i: Id, l: Level)
    requires TimesExact(t, i, l) && Approve(t, auth, now, id, level, hash).Some?
    ensures TimesExact(Approve(t, auth, now, id, level, hash).value, i, l)
  {
    LogGrows(t.log, Approved(id, level, now), i, l);
    if i == id && id in t.approvals {
      TimesAppend(t.approvals[id].provided, Approval(level, now), l);
    }
  }

  lemma UnapproveExact(t: Tables, auth: set<Level>, now: Time, id: Id, level: Level, i: Id, l: Level)
    requires TimesExact(t, i, l) && Unapprove(t, auth, now, id, level).Some?
    ensures TimesExact(Unapprove(t, auth, now, id, level).value, i, l)
  {
    LogGrows(t.log, Withdrawn(id, level), i, l);
    if i == id && id in t.approvals {
      TimesErase(t.approvals[id].provided, level, l);
    }
  }

  lemma QuietExact(t: Tables, t': Tables, e: Event, i: Id, l: Level)
    requires TimesExact(t, i, l) && t'.log == t.log + [e] && !e.Approved? && !e.Withdrawn?
    requires i in t'.approvals ==>
      if Begins(e, i) then t'.approvals[i].provided == [] else i in t.approvals && t'.approvals[i] == t.approvals[i]
    ensures TimesExact(t', i, l)
  {
    LogGrows(t.log, e, i, l);
  }

  lemma NextExact(t: Tables, c: Call, i: Id, l: Level)
    requires TimesExact(t, i, l)
    ensures TimesExact(Next(t, c), i, l)
  {
    if Effect(t, c.auth, c.now, c.action).Some? {
      match c.action
      case DoApprove(id, level, hash) => ApproveExact(t, c.auth, c.now, id, level, hash, i, l);
      case DoUnapprove(id, level) => UnapproveExact(t, c.auth, c.now, id, level, i, l);
      case _ =>
        OthersQuiet(t, c, i);
        QuietExact(t, Next(t, c), Next(t, c).log[|t.log|], i, l);
    }
  }

  /** Actions other than approve and unapprove leave a row as it is, remove it, or start it empty. */
  lemma OthersQuiet(t: Tables, c: Call, i: Id)
    requires !c.action.DoApprove? && !c.action.DoUnapprove?
    requires Effect(t, c.auth, c.now, c.action).Some?
    ensures
      var t' := Effect(t, c.auth, c.now, c.action).value;
      && |t'.log| == |t.log| + 1 && t'.log == t.log + [t'.log[|t.log|]]
      && var e := t'.log[|t.log|];
         && !e.Approved? && !e.Withdrawn?
         && (i in t'.approvals ==>
             if Begins(e, i) then t'.approvals[i].provided == [] else i in t.approvals && t'.approvals[i] == t.approvals[i])
  {
    match c.action
    case DoPropose(id, requested, trx, host) =>
    case DoCancel(id, canceler) =>
    case DoExec(id, executer, host) =>
    case DoInvalidate(account) =>
  }

  // ---------------------------------------------------------------- invalidations

  ghost predicate Before(log: seq<Event>, now: Time)
  {
    forall i :: 0 <= i < |log| && log[i].Invalidated? ==> log[i].time <= now
  }

  /** The stored time of an account is its latest invalidation in the log. */
  ghost predicate LatestStored(t: Tables)
  {
    && (forall i :: 0 <= i < |t.log| && t.log[i].Invalidated? ==>
         t.log[i].account in t.invalidations && t.log[i].time <= t.invalidations[t.log[i].account])
    && (forall account :: account in t.invalidations ==> Invalidated(account, t.invalidations[account]) in t.log)
  }

  lemma StandsIffNotInvalidated(t: Tables, a: Approval)
    requires LatestStored(t)
    ensures Stands(t.invalidations, a) <==> !InvalidatedFrom(t.log, a.level.actor, a.time)
  {
    if !Stands(t.invalidations, a) {
      assert Invalidated(a.level.actor, t.invalidations[a.level.actor]) in t.log;
    }
  }

  lemma OtherEventKeepsLatest(t: Tables, t': Tables, e: Event, now: Time)
    requires LatestStored(t) && Before(t.log, now)
    requires t'.log == t.log + [e]
    requires if e.Invalidated?
             then e.time == now && t'.invalidations == t.invalidations[e.account := now]
             else t'.invalidations == t.invalidations
    ensures LatestStored(t') && Before(t'.log, now)
  {
    forall account | account in t'.invalidations ensures Invalidated(account, t'.invalidations[account]) in t'.log {
      if e.Invalidated? && account == e.account {
        assert e == t'.log[|t.log|];
      } else {
        assert Invalidated(account, t.invalidations[account]) in t.log;
      }
    }
  }

  lemma EffectLogsOneEvent(t: Tables, c: Call)
    requires Effect(t, c.auth, c.now, c.action).Some?
    ensures
      var log := Effect(t, c.auth, c.now, c.action).value.log;
      |log| == |t.log| + 1 && log == t.log + [log[|t.log|]]
  {
    match c.action
    case DoPropose(id, requested, trx, host) =>
    case DoApprove(id, level, hash) =>
    case DoUnapprove(id, level) =>
    case DoCancel(id, canceler) =>
    case DoExec(id, executer, host) =>
    case DoInvalidate(account) =>
  }

  lemma EffectOnInvalidations(t: Tables, c: Call)
    requires Effect(t, c.auth, c.now, c.action).Some?
    ensures
      var t' := Effect(t, c.auth, c.now, c.action).value;
      && |t'.log| == |t.log| + 1
      && var e := t'.log[|t.log|];
         if e.Invalidated?
         then e.time == c.now && t'.invalidations == t.invalidations[e.account := c.now]
         else t'.invalidations == t.invalidations
  {
    match c.action
    case DoPropose(id, requested, trx, host) =>
    case DoApprove(id, level, hash) =>
    case DoUnapprove(id, level) =>
    case DoCancel(id, canceler) =>
    case DoExec(id, executer, host) =>
    case DoInvalidate(account) =>
  }

  lemma NextLatest(t: Tables, c: Call)
    requires LatestStored(t) && Before(t.log, c.now)
    ensures LatestStored(Next(t, c)) && Before(Next(t, c).log, c.now)
  {
    if Effect(t, c.auth, c.now, c.action).Some? {
      EffectLogsOneEvent(t, c);
      EffectOnInvalidations(t, c);
      OtherEventKeepsLatest(t, Next(t, c), Next(t, c).log[|t.log|], c.now);
    }
  }

  // ---------------------------------------------------------------- what exec presents

  lemma {:induction false} StandingCounts(t: Tables, provided: seq<Approval>, level: Level)
    requires LatestStored(t)
    ensures multiset(Standing(t.invalidations, provided))[level] == Unaffected(t.log, level.actor, TimesOf(provided, level))
  {
    if provided != [] {
      var init, a := provided[..|provided| - 1], provided[|provided| - 1];
      StandingCounts(t, init, level);
      StandsIffNotInvalidated(t, a);
      var levels, times := Standing(t.invalidations, init), TimesOf(init, level);
      if a.level == level {
        assert TimesOf(provided, level)[..|times|] == times;
      } else {
        assert times + [] == times;
      }
      assert levels + [] == levels;
    }
  }

  /** What an execution event shows about its own past. */
  ghost predicate ExecutionSound(log: seq<Event>, i: nat)
    requires i < |log|
  {
    log[i].Executed? && Current(log[..i], log[i].id).Some? ==>
      forall level :: multiset(log[i].levels)[level] == Counting(log[..i], log[i].id, level)
  }

  ghost predicate ExecutionsSound(log: seq<Event>)
  {
    forall i :: 0 <= i < |log| ==> ExecutionSound(log, i)
  }

  lemma PresentedCounts(g: Tables, t: Tables, id: Id, level: Level)
    requires Sound(g, t) && RowsExact(t) && LatestStored(t)
    requires Current(t.log, id).Some?
    ensures id in t.approvals && multiset(Presented(t, id))[level] == Counting(t.log, id, level)
  {
    assert NewRowSound(t, id);
    assert TimesExact(t, id, level);
    StandingCounts(t, t.approvals[id].provided, level);
  }

  ghost predicate History(g: Tables, t: Tables, now: Time)
  {
    Sound(g, t) && RowsExact(t) && LatestStored(t) && Before(t.log, now) && ExecutionsSound(t.log)
  }

  lemma NewExecutionSound(g: Tables, t: Tables, e: Event)
    requires Sound(g, t) && RowsExact(t) && LatestStored(t) && ExecutionsSound(t.log)
    requires e.Executed? ==> HasRow(t, e.id) && e.levels == Presented(t, e.id)
    ensures ExecutionsSound(t.log + [e])
  {
    var log := t.log + [e];
    assert log[..|t.log|] == t.log;
    forall i | 0 <= i < |log| ensures ExecutionSound(log, i) {
      if i < |t.log| {
        assert ExecutionSound(t.log, i);
        assert log[..i] == t.log[..i];
      } else if e.Executed? && Current(t.log, e.id).Some? {
        forall level ensures multiset(e.levels)[level] == Counting(t.log, e.id, level) {
          PresentedCounts(g, t, e.id, level);
        }
      }
    }
  }

  lemma ExecutedPresents(t: Tables, c: Call)
    requires Effect(t, c.auth, c.now, c.action).Some?
    ensures
      var log := Effect(t, c.auth, c.now, c.action).value.log;
      && |log| == |t.log| + 1
      && (log[|t.log|].Executed? ==> HasRow(t, log[|t.log|].id) && log[|t.log|].levels == Presented(t, log[|t.log|].id))
  {
    match c.action
    case DoPropose(id, requested, trx, host) =>
    case DoApprove(id, level, hash) =>
    case DoUnapprove(id, level) =>
    case DoCancel(id, canceler) =>
    case DoExec(id, executer, host) =>
    case DoInvalidate(account) =>
  }

  lemma NextHistory(g: Tables, t: Tables, c: Call)
    requires History(g, t, c.now)
    ensures History(g, Next(t, c), c.now)
  {
    NextSound(g, t, c);
    NextLatest(t, c);
    var t' := Next(t, c);
    forall id, level ensures TimesExact(t', id, level) {
      NextExact(t, c, id, level);
    }
    if Effect(t, c.auth, c.now, c.action).Some? {
      EffectLogsOneEvent(t, c);
      ExecutedPresents(t, c);
      NewExecutionSound(g, t, t'.log[|t.log|]);
    }
  }

  lemma LaterHistory(g: Tables, t: Tables, now: Time, later: Time)
    requires History(g, t, now) && now <= later
    ensures History(g, t, later)
  {
  }

  function LastTime(calls: seq<Call>): Time
  {
    if calls == [] then 0 else calls[|calls| - 1].now
  }

  /**
   * On every run with a monotone clock, each execution of a proposal made during the run presented each
   * level exactly as often as it had approvals given to that instance, not withdrawn, and with no
   * invalidation by its actor at or after the approval's time.
   */
  lemma {:induction false} HistoryOnEveryRun(g: Tables, calls: seq<Call>)
    requires Genesis(g) && ClockMonotone(calls)
    ensures History(g, Run(g, calls), LastTime(calls))
  {
    if calls == [] {
    } else {
      var before, c := calls[..|calls| - 1], calls[|calls| - 1];
      HistoryOnEveryRun(g, before);
      LaterHistory(g, Run(g, before), LastTime(before), c.now);
      NextHistory(g, Run(g, before), c);
    }
  }

  lemma {:induction false} UnaffectedMember(log: seq<Event>, account: Name, times: seq<Time>)
    ensures Unaffected(log, account, times) > 0 <==> exists k :: 0 <= k < |times| && !InvalidatedFrom(log, account, times[k])
  {
    if times != [] {
      UnaffectedMember(log, account, times[..|times| - 1]);
    }
  }

  /** Read as membership: a level is presented iff some live approval of it was not overtaken. */
  lemma PresentedIff(g: Tables, calls: seq<Call>, id: Id, level: Level)
    requires Genesis(g) && ClockMonotone(calls)
    requires Current(Run(g, calls).log, id).Some?
    ensures
      var t := Run(g, calls);
      && id in t.approvals
      && (level in Presented(t, id) <==>
          exists k :: 0 <= k < |Live(t.log, id, level)| && !InvalidatedFrom(t.log, level.actor, Live(t.log, id, level)[k]))
  {
    var t := Run(g, calls);
    HistoryOnEveryRun(g, calls);
    PresentedCounts(g, t, id, level);
    UnaffectedMember(t.log, level.actor, Live(t.log, id, level));
    assert level in Presented(t, id) <==> level in multiset(Presented(t, id));
  }

  /** A legacy row stores no times, so one invalidation at any time silences all approvals of its actor. */
  lemma {:induction false} OldStandingCounts(invalidations: map<Name, Time>, provided: seq<Level>, level: Level)
    ensures multiset(OldStanding(invalidations, provided))[level] ==
            if level.actor in invalidations then 0 else multiset(provided)[level]
  {
    if provided != [] {
      var init, last := provided[..|provided| - 1], provided[|provided| - 1];
      OldStandingCounts(invalidations, init, level);
      assert provided == init + [last];
      var rest := OldStanding(invalidations, init);
      if last.actor in invalidations { assert rest + [] == rest; }
    }
  }

  lemma InvalidatedIffStored(t: Tables, account: Name)
    requires LatestStored(t)
    ensures account in t.invalidations <==> InvalidatedFrom(t.log, account, 0)
  {
    if account in t.invalidations {
      assert Invalidated(account, t.invalidations[account]) in t.log;
    }
  }

  /** What a legacy proposal presents, on every run. */
  lemma LegacyPresented(g: Tables, calls: seq<Call>, id: Id, level: Level)
    requires Genesis(g) && ClockMonotone(calls)
    requires id in Run(g, calls).oldApprovals
    ensures
      var t := Run(g, calls);
      && id !in t.approvals
      && multiset(Presented(t, id))[level] ==
         if InvalidatedFrom(t.log, level.actor, 0) then 0 else multiset(t.oldApprovals[id].provided)[level]
  {
    var t := Run(g, calls);
    HistoryOnEveryRun(g, calls);
    assert OldRowSound(g, t, id);
    OldStandingCounts(t.invalidations, t.oldApprovals[id].provided, level);
    InvalidatedIffStored(t, level.actor);
  }

  // ---------------------------------------------------------------- expiry

  /** The range of 32-bit seconds. */
  const LAST_TIME: nat := U32 * 1_000_000

  /** Since the log `start`, the proposal was cancelled, or it is still there unexecuted. */
  ghost predicate NotRevived(start: Tables, t: Tables, id: Id)
  {
    && |start.log| <= |t.log|
    && ((forall i :: |start.log| <= i < |t.log| ==> !Ends(t.log[i], id))
        ==> id in start.proposals && id in t.proposals && t.proposals[id] == start.proposals[id])
    && (forall i :: |start.log| <= i < |t.log| && t.log[i].Executed? && t.log[i].id == id ==>
         exists j :: |start.log| <= j < i && t.log[j] == Cancelled(id))
  }

  /** An event that executes the proposal finds an end of it in the log already. */
  lemma LogStepNotRevived(start: Tables, t: Tables, t': Tables, e: Event, id: Id)
    requires NotRevived(start, t, id) && t'.log == t.log + [e]
    requires !Ends(e, id) && id in t.proposals ==> id in t'.proposals && t'.proposals[id] == t.proposals[id]
    requires e.Executed? && e.id == id ==> exists i :: |start.log| <= i < |t.log| && Ends(t.log[i], id)
    ensures NotRevived(start, t', id)
  {
    if forall i :: |start.log| <= i < |t'.log| ==> !Ends(t'.log[i], id) {
      assert forall i :: |start.log| <= i < |t.log| ==> t.log[i] == t'.log[i];
      assert e == t'.log[|t.log|];
    }
    forall i | |start.log| <= i < |t'.log| && t'.log[i].Executed? && t'.log[i].id == id
      ensures exists j :: |start.log| <= j < i && t'.log[j] == Cancelled(id)
    {
      var k := i;
      if i == |t.log| { k :| |start.log| <= k < |t.log| && Ends(t.log[k], id); }
      if t.log[k].Cancelled? {
        assert t'.log[k] == Cancelled(id);
      } else {
        var j :| |start.log| <= j < k && t.log[j] == Cancelled(id);
        assert t'.log[j] == t.log[j];
      }
    }
  }

  lemma EffectOnProposals(t: Tables, c: Call, id: Id)
    requires Effect(t, c.auth, c.now, c.action).Some?
    ensures
      var t' := Effect(t, c.auth, c.now, c.action).value;
      && |t'.log| == |t.log| + 1
      && var e := t'.log[|t.log|];
         && (!Ends(e, id) && id in t.proposals ==> id in t'.proposals && t'.proposals[id] == t.proposals[id])
         && (e.Executed? && e.id == id ==> id in t.proposals && t.proposals[id].expiration >= Seconds(c.now))
  {
    match c.action
    case DoPropose(p, requested, trx, host) =>
    case DoApprove(p, level, hash) =>
    case DoUnapprove(p, level) =>
    case DoCancel(p, canceler) =>
    case DoExec(p, executer, host) =>
    case DoInvalidate(account) =>
  }

  lemma NextNotRevived(start: Tables, t: Tables, c: Call, id: Id)
    requires NotRevived(start, t, id)
    requires id in start.proposals && start.proposals[id].expiration < Seconds(c.now)
    ensures NotRevived(start, Next(t, c), id)
  {
    if Effect(t, c.auth, c.now, c.action).Some? {
      EffectLogsOneEvent(t, c);
      EffectOnProposals(t, c, id);
      LogStepNotRevived(start, t, Next(t, c), Next(t, c).log[|t.log|], id);
    }
  }

  /**
   * Once a third party may cancel, this instance is never executed: any later execution under the name
   * comes after a cancellation. Holds while the clock stays within 32-bit seconds.
   */
  lemma {:induction false} ExpiredNeverExecutes(start: Tables, calls: seq<Call>, id: Id, now: Time)
    requires id in start.proposals && start.proposals[id].expiration < Seconds(now)
    requires forall i :: 0 <= i < |calls| ==> now <= calls[i].now < LAST_TIME
    requires now < LAST_TIME
    ensures NotRevived(start, Run(start, calls), id)
  {
    if calls == [] {
    } else {
      var before, c := calls[..|calls| - 1], calls[|calls| - 1];
      ExpiredNeverExecutes(start, before, id, now);
      SecondsMonotone(now, c.now);
      NextNotRevived(start, Run(start, before), c, id);
    }
  }

  lemma SecondsMonotone(a: Time, b: Time)
    requires a <= b < LAST_TIME
    ensures Seconds(a) <= Seconds(b)
  {
  }

  /** Beyond that range the 32-bit seconds wrap, and an expired proposal could be executed again. */
  lemma SecondsWrap()
    ensures Seconds(LAST_TIME) < Seconds(LAST_TIME - 1)
  {
  }
}
