/** The life of a proposal: one approvals row each, levels conserved, one end, and the bytes proposed. */
module MultisigLife {
  import opened Base
  import opened Multisig

  // ---------------------------------------------------------------- the instance alive in a log

  predicate Ends(e: Event, id: Id)
  {
    (e.Cancelled? || e.Executed?) && e.id == id
  }

  predicate Begins(e: Event, id: Id)
  {
    e.Proposed? && e.id == id
  }

  /** The propose event of the instance that is alive at the end of the log, if it began in the log. */
  function Current(log: seq<Event>, id: Id): (r: Option<Event>)
    ensures r.Some? ==> Begins(r.value, id)
  {
    if log == [] then None else
    var last := log[|log| - 1];
    if Begins(last, id) then Some(last)
    else if Ends(last, id) then None
    else Current(log[..|log| - 1], id)
  }

  ghost predicate Untouched(log: seq<Event>, id: Id)
  {
    forall i :: 0 <= i < |log| ==> !Begins(log[i], id) && !Ends(log[i], id)
  }

  lemma CurrentAfter(log: seq<Event>, e: Event, id: Id)
    ensures Current(log + [e], id) == if Begins(e, id) then Some(e) else if Ends(e, id) then None else Current(log, id)
  {
    assert (log + [e])[..|log|] == log;
  }

  // ---------------------------------------------------------------- conservation of levels

  lemma EraseCounts<T>(s: seq<T>, i: nat)
    requires i < |s|
    ensures multiset(s) == multiset(Erase(s, i)) + multiset{s[i]}
  {
    assert s == s[..i] + [s[i]] + s[i + 1..];
  }

  lemma {:induction false} FindMember(s: seq<Level>, x: Level)
    ensures Find(s, x) < |s| <==> x in s
  {
    if s != [] {
      FindMember(s[1..], x);
      assert s == [s[0]] + s[1..];
    }
  }

  /** Requested and provided levels of a row in either format, as multisets. */
  datatype Split = Split(requested: multiset<Level>, provided: multiset<Level>)
  {
    function All(): multiset<Level> {
      requested + provided
    }
  }

  function SplitOf(t: Tables, id: Id): Split
    requires id in t.approvals || id in t.oldApprovals
  {
    if id in t.approvals
    then Split(multiset(LevelsOf(t.approvals[id].requested)), multiset(LevelsOf(t.approvals[id].provided)))
    else Split(multiset(t.oldApprovals[id].requested), multiset(t.oldApprovals[id].provided))
  }

  predicate HasRow(t: Tables, id: Id)
  {
    id in t.approvals || id in t.oldApprovals
  }

  /** Moving the first occurrence of a level from one list to the end of another. */
  lemma MoveCounts(source: seq<Level>, target: seq<Level>, level: Level)
    ensures Find(source, level) < |source| <==> level in multiset(source)
    ensures multiset(target + [level]) == multiset(target) + multiset{level}
    ensures Find(source, level) < |source| ==>
            multiset(Erase(source, Find(source, level))) == multiset(source) - multiset{level}
  {
    FindMember(source, level);
    if Find(source, level) < |source| { EraseCounts(source, Find(source, level)); }
  }

  lemma MoveApprovals(source: seq<Approval>, target: seq<Approval>, level: Level, time: Time)
    ensures LevelsOf(target + [Approval(level, time)]) == LevelsOf(target) + [level]
    ensures
      var i := Find(LevelsOf(source), level);
      i < |source| ==> LevelsOf(Erase(source, i)) == Erase(LevelsOf(source), i)
  {
  }

  ghost predicate Moved(t: Tables, id: Id, level: Level, r: Option<Tables>)
    requires HasRow(t, id)
  {
    r.Some? ==>
      && HasRow(r.value, id)
      && SplitOf(r.value, id) == Split(SplitOf(t, id).requested - multiset{level}, SplitOf(t, id).provided + multiset{level})
  }

  ghost predicate MovedBack(t: Tables, id: Id, level: Level, r: Option<Tables>)
    requires HasRow(t, id)
  {
    r.Some? ==>
      && HasRow(r.value, id)
      && SplitOf(r.value, id) == Split(SplitOf(t, id).requested + multiset{level}, SplitOf(t, id).provided - multiset{level})
  }

  lemma ApproveMovesNew(t: Tables, auth: set<Level>, now: Time, id: Id, level: Level, hash: Hash)
    requires id in t.approvals
    ensures Moved(t, id, level, Approve(t, auth, now, id, level, hash))
    ensures Approve(t, auth, now, id, level, hash).Some? <==>
            level in auth && (hash.Hash? ==> id in t.proposals && hash.matches) && level in SplitOf(t, id).requested
  {
    var row := t.approvals[id];
    MoveCounts(LevelsOf(row.requested), LevelsOf(row.provided), level);
    MoveApprovals(row.requested, row.provided, level, now);
  }

  lemma ApproveMovesOld(t: Tables, auth: set<Level>, now: Time, id: Id, level: Level, hash: Hash)
    requires id !in t.approvals && id in t.oldApprovals
    ensures Moved(t, id, level, Approve(t, auth, now, id, level, hash))
    ensures Approve(t, auth, now, id, level, hash).Some? <==>
            level in auth && (hash.Hash? ==> id in t.proposals && hash.matches) && level in SplitOf(t, id).requested
  {
    MoveCounts(t.oldApprovals[id].requested, t.oldApprovals[id].provided, level);
  }

  /** Approve moves one occurrence of the level from requested to provided, in either format. */
  lemma ApproveMoves(t: Tables, auth: set<Level>, now: Time, id: Id, level: Level, hash: Hash)
    ensures Approve(t, auth, now, id, level, hash).Some? <==>
            && level in auth && (hash.Hash? ==> id in t.proposals && hash.matches)
            && HasRow(t, id) && level in SplitOf(t, id).requested
    ensures HasRow(t, id) ==> Moved(t, id, level, Approve(t, auth, now, id, level, hash))
  {
    if id in t.approvals {
      ApproveMovesNew(t, auth, now, id, level, hash);
    } else if id in t.oldApprovals {
      ApproveMovesOld(t, auth, now, id, level, hash);
    }
  }

  lemma UnapproveMovesNew(t: Tables, auth: set<Level>, now: Time, id: Id, level: Level)
    requires id in t.approvals
    ensures MovedBack(t, id, level, Unapprove(t, auth, now, id, level))
    ensures Unapprove(t, auth, now, id, level).Some? <==> level in auth && level in SplitOf(t, id).provided
  {
    var row := t.approvals[id];
    MoveCounts(LevelsOf(row.provided), LevelsOf(row.requested), level);
    MoveApprovals(row.provided, row.requested, level, now);
  }

  lemma UnapproveMovesOld(t: Tables, auth: set<Level>, now: Time, id: Id, level: Level)
    requires id !in t.approvals && id in t.oldApprovals
    ensures MovedBack(t, id, level, Unapprove(t, auth, now, id, level))
    ensures Unapprove(t, auth, now, id, level).Some? <==> level in auth && level in SplitOf(t, id).provided
  {
    MoveCounts(t.oldApprovals[id].provided, t.oldApprovals[id].requested, level);
  }

  /** Unapprove moves one occurrence of the level back, in either format. */
  lemma UnapproveMoves(t: Tables, auth: set<Level>, now: Time, id: Id, level: Level)
    ensures Unapprove(t, auth, now, id, level).Some? <==>
            level in auth && HasRow(t, id) && level in SplitOf(t, id).provided
    ensures HasRow(t, id) ==> MovedBack(t, id, level, Unapprove(t, auth, now, id, level))
  {
    if id in t.approvals {
      UnapproveMovesNew(t, auth, now, id, level);
    } else if id in t.oldApprovals {
      UnapproveMovesOld(t, auth, now, id, level);
    }
  }

  /** Approve then unapprove restores both lists, up to order, in either format. */
  lemma ApproveThenUnapprove(t: Tables, auth: set<Level>, now: Time, later: Time, id: Id, level: Level, hash: Hash)
    requires Approve(t, auth, now, id, level, hash).Some?
    ensures
      var r := Unapprove(Approve(t, auth, now, id, level, hash).value, auth, later, id, level);
      r.Some? && HasRow(r.value, id) && SplitOf(r.value, id) == SplitOf(t, id)
  {
    ApproveMoves(t, auth, now, id, level, hash);
    UnapproveMoves(Approve(t, auth, now, id, level, hash).value, auth, later, id, level);
  }

  lemma UnapproveThenApprove(t: Tables, auth: set<Level>, now: Time, later: Time, id: Id, level: Level)
    requires Unapprove(t, auth, now, id, level).Some?
    ensures
      var r := Approve(Unapprove(t, auth, now, id, level).value, auth, later, id, level, NoHash);
      r.Some? && HasRow(r.value, id) && SplitOf(r.value, id) == SplitOf(t, id)
  {
    UnapproveMoves(t, auth, now, id, level);
    ApproveMoves(Unapprove(t, auth, now, id, level).value, auth, later, id, level, NoHash);
  }

  // ---------------------------------------------------------------- one row per proposal

  lemma NextMatched(t: Tables, c: Call)
    requires Matched(t)
    ensures Matched(Next(t, c))
  {
    if Effect(t, c.auth, c.now, c.action).Some? {
      match c.action
      case DoPropose(id, requested, trx, host) =>
      case DoApprove(id, level, hash) => ApproveTouches(t, c.auth, c.now, id, level, hash);
      case DoUnapprove(id, level) => UnapproveTouches(t, c.auth, c.now, id, level);
      case DoCancel(id, canceler) =>
      case DoExec(id, executer, host) =>
      case DoInvalidate(account) =>
    }
  }

  /** From any matching tables, new and legacy rows mixed, no row is ever orphaned or doubled. */
  lemma {:induction false} MatchedOnEveryRun(t: Tables, calls: seq<Call>)
    requires Matched(t)
    ensures Matched(Run(t, calls))
  {
    if calls == [] {
    } else {
      MatchedOnEveryRun(t, calls[..|calls| - 1]);
      NextMatched(Run(t, calls[..|calls| - 1]), calls[|calls| - 1]);
    }
  }

  // ---------------------------------------------------------------- the invariant over a run

  /** A new-format row belongs to the instance alive in the log: same bytes, same levels. */
  ghost predicate NewRowSound(t: Tables, id: Id)
  {
    && (id in t.approvals <==> Current(t.log, id).Some?)
    && (id in t.approvals ==>
        && id in t.proposals && t.proposals[id] == Current(t.log, id).value.trx
        && SplitOf(t, id).All() == multiset(Current(t.log, id).value.requested))
  }

  /** A legacy row is still the one it was at the start: same bytes, same levels, never ended or proposed. */
  ghost predicate OldRowSound(g: Tables, t: Tables, id: Id)
  {
    id in t.oldApprovals ==>
      && Untouched(t.log, id)
      && id in g.oldApprovals && id in g.proposals && id !in g.approvals && id !in t.approvals
      && id in t.proposals && t.proposals[id] == g.proposals[id]
      && SplitOf(t, id).All() == SplitOf(g, id).All()
  }

  /** Every end in the log ends an instance that was alive, and executes the bytes it was proposed with. */
  ghost predicate EndSound(g: Tables, log: seq<Event>, i: nat)
    requires i < |log|
  {
    log[i].Cancelled? || log[i].Executed? ==>
      var id := log[i].id;
      if Current(log[..i], id).Some?
      then log[i].Executed? ==> log[i].sent == Current(log[..i], id).value.trx
      else
        && Untouched(log[..i], id) && id in g.proposals
        && (log[i].Executed? ==> log[i].sent == g.proposals[id])
  }

  ghost predicate Sound(g: Tables, t: Tables)
  {
    && Matched(t)
    && (forall id :: NewRowSound(t, id))
    && (forall id :: OldRowSound(g, t, id))
    && (forall i :: 0 <= i < |t.log| ==> EndSound(g, t.log, i))
  }

  lemma EarlierEndsSound(g: Tables, log: seq<Event>, e: Event, i: nat)
    requires i < |log| && EndSound(g, log, i)
    ensures EndSound(g, log + [e], i)
  {
    assert (log + [e])[..i] == log[..i];
  }

  /** The rows of one proposal are the same in both states. */
  ghost predicate SameRows(t: Tables, t': Tables, id: Id)
  {
    && (id in t'.approvals <==> id in t.approvals) && (id in t.approvals ==> t'.approvals[id] == t.approvals[id])
    && (id in t'.oldApprovals <==> id in t.oldApprovals)
    && (id in t.oldApprovals ==> t'.oldApprovals[id] == t.oldApprovals[id])
    && (id in t'.proposals <==> id in t.proposals) && (id in t.proposals ==> t'.proposals[id] == t.proposals[id])
  }

  ghost predicate OthersSame(t: Tables, t': Tables, id: Id)
  {
    forall other :: other != id ==> SameRows(t, t', other)
  }

  /** A step that changes one proposal's rows and logs one event about it. */
  lemma RowStep(g: Tables, t: Tables, t': Tables, e: Event, id: Id)
    requires Sound(g, t) && t'.log == t.log + [e]
    requires forall other :: other != id ==> !Begins(e, other) && !Ends(e, other)
    requires OthersSame(t, t', id)
    requires Matched(t') && NewRowSound(t', id) && OldRowSound(g, t', id) && EndSound(g, t'.log, |t.log|)
    ensures Sound(g, t')
  {
    forall other ensures NewRowSound(t', other) {
      assert NewRowSound(t, other);
      if other != id { assert SameRows(t, t', other); }
      CurrentAfter(t.log, e, other);
    }
    forall other ensures OldRowSound(g, t', other) {
      assert OldRowSound(g, t, other);
      if other != id { assert SameRows(t, t', other); }
    }
    forall i | 0 <= i < |t'.log| ensures EndSound(g, t'.log, i) {
      if i < |t.log| { EarlierEndsSound(g, t.log, e, i); }
    }
  }

  lemma ProposeSound(g: Tables, t: Tables, auth: set<Level>, now: Time, id: Id, requested: seq<Level>, trx: Packed,
                     host: Host)
    requires Sound(g, t) && Propose(t, auth, now, id, requested, trx, host).Some?
    ensures Sound(g, Propose(t, auth, now, id, requested, trx, host).value)
  {
    var t' := Propose(t, auth, now, id, requested, trx, host).value;
    var e := Proposed(id, requested, trx);
    CurrentAfter(t.log, e, id);
    assert LevelsOf(t'.approvals[id].requested) == requested;
    assert id !in t.oldApprovals;
    assert t'.log[..|t.log|] == t.log;
    assert OthersSame(t, t', id);
    RowStep(g, t, t', e, id);
  }

  /** Only the approvals row of the proposal and the log changed. */
  ghost predicate TouchesRow(t: Tables, t': Tables, e: Event, id: Id)
  {
    && t'.log == t.log + [e] && HasRow(t, id) && t'.proposals == t.proposals
    && if id in t.approvals
       then && id in t'.approvals && t'.oldApprovals == t.oldApprovals
            && t'.approvals == t.approvals[id := t'.approvals[id]]
       else && id in t'.oldApprovals && t'.approvals == t.approvals
            && t'.oldApprovals == t.oldApprovals[id := t'.oldApprovals[id]]
  }

  lemma ApproveTouches(t: Tables, auth: set<Level>, now: Time, id: Id, level: Level, hash: Hash)
    requires Approve(t, auth, now, id, level, hash).Some?
    ensures TouchesRow(t, Approve(t, auth, now, id, level, hash).value, Approved(id, level, now), id)
  {
  }

  lemma UnapproveTouches(t: Tables, auth: set<Level>, now: Time, id: Id, level: Level)
    requires Unapprove(t, auth, now, id, level).Some?
    ensures TouchesRow(t, Unapprove(t, auth, now, id, level).value, Withdrawn(id, level), id)
  {
  }

  lemma MoveSound(g: Tables, t: Tables, t': Tables, e: Event, id: Id)
    requires Sound(g, t) && TouchesRow(t, t', e, id) && (e.Approved? || e.Withdrawn?)
    requires SplitOf(t', id).All() == SplitOf(t, id).All()
    ensures Sound(g, t')
  {
    assert NewRowSound(t, id) && OldRowSound(g, t, id);
    MoveRowSound(g, t, t', e, id);
    TouchKeepsOthers(t, t', e, id);
    RowStep(g, t, t', e, id);
  }

  lemma TouchKeepsOthers(t: Tables, t': Tables, e: Event, id: Id)
    requires TouchesRow(t, t', e, id) && Matched(t)
    ensures OthersSame(t, t', id) && Matched(t')
  {
    assert t'.approvals.Keys == t.approvals.Keys && t'.oldApprovals.Keys == t.oldApprovals.Keys;
  }

  lemma MoveRowSound(g: Tables, t: Tables, t': Tables, e: Event, id: Id)
    requires NewRowSound(t, id) && OldRowSound(g, t, id) && TouchesRow(t, t', e, id) && (e.Approved? || e.Withdrawn?)
    requires id in t.approvals ==> id !in t.oldApprovals
    requires SplitOf(t', id).All() == SplitOf(t, id).All()
    ensures NewRowSound(t', id) && OldRowSound(g, t', id)
  {
    CurrentAfter(t.log, e, id);
  }

  lemma EndStepSound(g: Tables, t: Tables, t': Tables, e: Event, id: Id)
    requires Sound(g, t) && t'.log == t.log + [e] && Ends(e, id) && id in t.proposals
    requires e.Executed? ==> e.sent == t.proposals[id]
    requires t'.proposals == t.proposals - {id}
    requires t'.approvals == t.approvals - {id} && t'.oldApprovals == t.oldApprovals - {id}
    ensures Sound(g, t')
  {
    CurrentAfter(t.log, e, id);
    assert NewRowSound(t, id) && OldRowSound(g, t, id);
    assert t'.log[..|t.log|] == t.log;
    RowStep(g, t, t', e, id);
  }

  lemma ApproveSound(g: Tables, t: Tables, auth: set<Level>, now: Time, id: Id, level: Level, hash: Hash)
    requires Sound(g, t) && Approve(t, auth, now, id, level, hash).Some?
    ensures Sound(g, Approve(t, auth, now, id, level, hash).value)
  {
    ApproveMoves(t, auth, now, id, level, hash);
    ApproveTouches(t, auth, now, id, level, hash);
    MoveSound(g, t, Approve(t, auth, now, id, level, hash).value, Approved(id, level, now), id);
  }

  lemma UnapproveSound(g: Tables, t: Tables, auth: set<Level>, now: Time, id: Id, level: Level)
    requires Sound(g, t) && Unapprove(t, auth, now, id, level).Some?
    ensures Sound(g, Unapprove(t, auth, now, id, level).value)
  {
    UnapproveMoves(t, auth, now, id, level);
    UnapproveTouches(t, auth, now, id, level);
    MoveSound(g, t, Unapprove(t, auth, now, id, level).value, Withdrawn(id, level), id);
  }

  lemma CancelSound(g: Tables, t: Tables, auth: set<Level>, now: Time, id: Id, canceler: Name)
    requires Sound(g, t) && Cancel(t, auth, now, id, canceler).Some?
    ensures Sound(g, Cancel(t, auth, now, id, canceler).value)
  {
    var t' := Cancel(t, auth, now, id, canceler).value;
    assert t'.approvals == t.approvals - {id} && t'.oldApprovals == t.oldApprovals - {id};
    EndStepSound(g, t, t', Cancelled(id), id);
  }

  lemma ExecSound(g: Tables, t: Tables, auth: set<Level>, now: Time, id: Id, executer: Name, host: Host)
    requires Sound(g, t) && Exec(t, auth, now, id, executer, host).Some?
    ensures Sound(g, Exec(t, auth, now, id, executer, host).value)
  {
    var t' := Exec(t, auth, now, id, executer, host).value;
    assert t'.approvals == t.approvals - {id} && t'.oldApprovals == t.oldApprovals - {id};
    EndStepSound(g, t, t', Executed(id, Presented(t, id), t.proposals[id]), id);
  }

  lemma InvalidateSound(g: Tables, t: Tables, auth: set<Level>, now: Time, account: Name)
    requires Sound(g, t) && Invalidate(t, auth, now, account).Some?
    ensures Sound(g, Invalidate(t, auth, now, account).value)
  {
    var t' := Invalidate(t, auth, now, account).value;
    var e := Invalidated(account, now);
    forall id ensures NewRowSound(t', id) {
      assert NewRowSound(t, id);
      CurrentAfter(t.log, e, id);
    }
    forall id ensures OldRowSound(g, t', id) {
      assert OldRowSound(g, t, id);
    }
    forall i | 0 <= i < |t'.log| ensures EndSound(g, t'.log, i) {
      if i < |t.log| { EarlierEndsSound(g, t.log, e, i); }
    }
  }

  lemma NextSound(g: Tables, t: Tables, c: Call)
    requires Sound(g, t)
    ensures Sound(g, Next(t, c))
  {
    if Effect(t, c.auth, c.now, c.action).Some? {
      match c.action
      case DoPropose(id, requested, trx, host) => ProposeSound(g, t, c.auth, c.now, id, requested, trx, host);
      case DoApprove(id, level, hash) => ApproveSound(g, t, c.auth, c.now, id, level, hash);
      case DoUnapprove(id, level) => UnapproveSound(g, t, c.auth, c.now, id, level);
      case DoCancel(id, canceler) => CancelSound(g, t, c.auth, c.now, id, canceler);
      case DoExec(id, executer, host) => ExecSound(g, t, c.auth, c.now, id, executer, host);
      case DoInvalidate(account) => InvalidateSound(g, t, c.auth, c.now, account);
    }
  }

  /** On every run: rows match, levels are conserved, ends end something alive, and send its own bytes. */
  lemma {:induction false} SoundOnEveryRun(g: Tables, calls: seq<Call>)
    requires Genesis(g)
    ensures Sound(g, Run(g, calls))
  {
    if calls == [] {
    } else {
      SoundOnEveryRun(g, calls[..|calls| - 1]);
      NextSound(g, Run(g, calls[..|calls| - 1]), calls[|calls| - 1]);
    }
  }

  lemma {:induction false} CurrentBegan(log: seq<Event>, id: Id, i: nat) returns (k: nat)
    requires i < |log| && Ends(log[i], id) && Current(log, id).Some?
    ensures i < k < |log| && Begins(log[k], id)
  {
    if Begins(log[|log| - 1], id) {
      k := |log| - 1;
    } else {
      k := CurrentBegan(log[..|log| - 1], id, i);
    }
  }

  /** One propose has at most one end: between two ends of the same name there is a new propose. */
  lemma AtMostOneEnd(g: Tables, t: Tables, id: Id, i: nat, j: nat) returns (k: nat)
    requires Sound(g, t) && i < j < |t.log| && Ends(t.log[i], id) && Ends(t.log[j], id)
    ensures i < k < j && Begins(t.log[k], id)
  {
    assert EndSound(g, t.log, j);
    assert t.log[..j][i] == t.log[i];
    k := CurrentBegan(t.log[..j], id, i);
    assert t.log[..j][k] == t.log[k];
  }
}
