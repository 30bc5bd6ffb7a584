/** eosio.msig: the contract object, its four tables updated in place. */
module MultisigContract {
  import opened Base
  import M = Multisig

  class Msig {
    var proposals: map<M.Id, M.Packed>
    var approvals: map<M.Id, M.Approvals>
    var oldApprovals: map<M.Id, M.OldApprovals>
    var invalidations: map<Name, M.Time>
    var log: seq<M.Event>

    function View(): M.Tables
      reads this
    {
      M.Tables(proposals, approvals, oldApprovals, invalidations, log)
    }

    constructor (proposals: map<M.Id, M.Packed>, oldApprovals: map<M.Id, M.OldApprovals>)
      ensures View() == M.Tables(proposals, map[], oldApprovals, map[], [])
    {
      this.proposals, this.oldApprovals := proposals, oldApprovals;
      approvals, invalidations, log := map[], map[], [];
    }

    method Propose(auth: set<M.Level>, now: M.Time, id: M.Id, requested: seq<M.Level>, trx: M.Packed, host: M.Host)
      returns (ok: bool)
      modifies this
      ensures Committed(ok, old(View()), View(), M.Propose(old(View()), auth, now, id, requested, trx, host))
    {
      if !M.HasAuth(auth, id.proposer) || trx.expiration < M.Seconds(now) || id in proposals || host(trx, requested) <= 0 {
        return false;
      }
      if id in approvals { return false; }
      proposals := proposals[id := trx];
      var rows: seq<M.Approval> := [];
      var i := 0;
      while i < |requested|
        invariant i == |rows| <= |requested|
        invariant forall j :: 0 <= j < i ==> rows[j] == M.Approval(requested[j], 0)
      {
        rows := rows + [M.Approval(requested[i], 0)];
        i := i + 1;
      }
      assert rows == seq(|requested|, i requires 0 <= i < |requested| => M.Approval(requested[i], 0));
      approvals := approvals[id := M.Approvals(rows, [])];
      log := log + [M.Proposed(id, requested, trx)];
      return true;
    }

    method Approve(auth: set<M.Level>, now: M.Time, id: M.Id, level: M.Level, hash: M.Hash) returns (ok: bool)
      modifies this
      ensures Committed(ok, old(View()), View(), M.Approve(old(View()), auth, now, id, level, hash))
    {
      if level !in auth { return false; }
      if hash.Hash? && (id !in proposals || !hash.matches) { return false; }
      if id in approvals {
        var row := approvals[id];
        var itr := M.Find(M.LevelsOf(row.requested), level);
        if itr == |row.requested| { return false; }
        approvals := approvals[id :=
          M.Approvals(M.Erase(row.requested, itr), row.provided + [M.Approval(level, now)])];
      } else {
        if id !in oldApprovals { return false; }
        var row := oldApprovals[id];
        var itr := M.Find(row.requested, level);
        if itr == |row.requested| { return false; }
        oldApprovals := oldApprovals[id := M.OldApprovals(M.Erase(row.requested, itr), row.provided + [level])];
      }
      log := log + [M.Approved(id, level, now)];
      return true;
    }

    method Unapprove(auth: set<M.Level>, now: M.Time, id: M.Id, level: M.Level) returns (ok: bool)
      modifies this
      ensures Committed(ok, old(View()), View(), M.Unapprove(old(View()), auth, now, id, level))
    {
      if level !in auth { return false; }
      if id in approvals {
        var row := approvals[id];
        var itr := M.Find(M.LevelsOf(row.provided), level);
        if itr == |row.provided| { return false; }
        approvals := approvals[id :=
          M.Approvals(row.requested + [M.Approval(level, now)], M.Erase(row.provided, itr))];
      } else {
        if id !in oldApprovals { return false; }
        var row := oldApprovals[id];
        var itr := M.Find(row.provided, level);
        if itr == |row.provided| { return false; }
        oldApprovals := oldApprovals[id := M.OldApprovals(row.requested + [level], M.Erase(row.provided, itr))];
      }
      log := log + [M.Withdrawn(id, level)];
      return true;
    }

    method Cancel(auth: set<M.Level>, now: M.Time, id: M.Id, canceler: Name) returns (ok: bool)
      modifies this
      ensures Committed(ok, old(View()), View(), M.Cancel(old(View()), auth, now, id, canceler))
    {
      if !M.HasAuth(auth, canceler) || id !in proposals { return false; }
      if canceler != id.proposer && proposals[id].expiration >= M.Seconds(now) { return false; }
      var before := proposals;
      proposals := proposals - {id};
      if id in approvals {
        approvals := approvals - {id};
      } else {
        if id !in oldApprovals {
          proposals := before;
          return false;
        }
        oldApprovals := oldApprovals - {id};
      }
      log := log + [M.Cancelled(id)];
      return true;
    }

    /** Collects the provided approvals that still stand, in either format. */
    method Collect(id: M.Id) returns (levels: seq<M.Level>)
      requires id in approvals || id in oldApprovals
      ensures levels == M.Presented(View(), id)
    {
      levels := [];
      var i := 0;
      if id in approvals {
        var provided := approvals[id].provided;
        while i < |provided|
          invariant i <= |provided| && levels == M.Standing(invalidations, provided[..i])
        {
          var p := provided[i];
          assert provided[..i + 1][..i] == provided[..i];
          if p.level.actor !in invalidations || invalidations[p.level.actor] < p.time {
            levels := levels + [p.level];
          }
          i := i + 1;
        }
        assert provided[..i] == provided;
      } else {
        var provided := oldApprovals[id].provided;
        while i < |provided|
          invariant i <= |provided| && levels == M.OldStanding(invalidations, provided[..i])
        {
          var level := provided[i];
          assert provided[..i + 1][..i] == provided[..i];
          if level.actor !in invalidations {
            levels := levels + [level];
          }
          i := i + 1;
        }
        assert provided[..i] == provided;
      }
    }

    method Exec(auth: set<M.Level>, now: M.Time, id: M.Id, executer: Name, host: M.Host) returns (ok: bool)
      modifies this
      ensures Committed(ok, old(View()), View(), M.Exec(old(View()), auth, now, id, executer, host))
    {
      if !M.HasAuth(auth, executer) || id !in proposals { return false; }
      var trx := proposals[id];
      if trx.expiration < M.Seconds(now) { return false; }
      if id !in approvals && id !in oldApprovals { return false; }
      var levels := Collect(id);
      var approvalsBefore, oldBefore := approvals, oldApprovals;
      if id in approvals {
        approvals := approvals - {id};
      } else {
        oldApprovals := oldApprovals - {id};
      }
      if host(trx, levels) <= 0 {
        approvals, oldApprovals := approvalsBefore, oldBefore;
        return false;
      }
      log := log + [M.Executed(id, levels, trx)];
      proposals := proposals - {id};
      return true;
    }

    method Invalidate(auth: set<M.Level>, now: M.Time, account: Name) returns (ok: bool)
      modifies this
      ensures Committed(ok, old(View()), View(), M.Invalidate(old(View()), auth, now, account))
    {
      if !M.HasAuth(auth, account) { return false; }
      invalidations := invalidations[account := now];
      log := log + [M.Invalidated(account, now)];
      return true;
    }
  }
}
