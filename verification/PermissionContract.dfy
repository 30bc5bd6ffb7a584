/** eosio.libre: the contract object over its permission table. */
module PermissionContract {
  import opened Base
  import P = Permissions

  class Libre {
    var table: P.Table

    constructor ()
      ensures table == map[]
    {
      table := map[];
    }

    method SetPerm2(accounts: set<Name>, auth: set<Name>, acc: Name, perms: P.NineOrMore) returns (ok: bool)
      modifies this
      ensures Committed(ok, old(table), table, P.SetPerm2(old(table), accounts, auth, acc, perms))
    {
      if EOSIO_LIBRE !in auth || acc !in accounts { return false; }
      var row: P.Row := map[
        P.CreateAcc := perms[0], P.RegProd := perms[1], P.Vote := perms[2],
        P.Stake := perms[3], P.Transfer := perms[4], P.Propose := perms[5],
        P.SetContract := perms[6], P.Blacklist := perms[7], P.SetALimits := perms[8]];
      P.SameRow(row, P.FromColumns(perms));
      table := table[acc := row];
      return true;
    }

    method SetPerm(accounts: set<Name>, auth: set<Name>, acc: Name, perms: map<P.Key, nat>) returns (ok: bool)
      modifies this
      ensures Committed(ok, old(table), table, P.SetPerm(old(table), accounts, auth, acc, perms))
    {
      if EOSIO_LIBRE !in auth || acc !in accounts { return false; }
      var first: P.Row := if acc in table then table[acc] else P.Blank();
      var row: P.Row := first;
      var todo := perms.Keys;
      while todo != {}
        invariant todo <= perms.Keys && table == old(table)
        invariant forall p :: p in P.ALL ==>
          row[p] == if P.Known(p) in perms && P.Known(p) !in todo then perms[P.Known(p)] else first[p]
        decreases todo
      {
        var key :| key in todo;
        if key.Known? {
          P.IsColumn(key.permission);
          row := P.With(row, key.permission, perms[key]);
        }
        todo := todo - {key};
      }
      assert row == P.Merged(first, perms);
      table := table[acc := row];
      return true;
    }

    method ReqPerm(auth: set<Name>, acc: Name, permission: P.Key) returns (ok: bool)
      modifies this
      ensures Committed(ok, old(table), table, P.ReqPerm(old(table), auth, acc, permission))
    {
      if acc !in auth { return false; }
      if acc in table {
        var row := table[acc];
        if permission.Known? && P.At(row, permission.permission) != P.BANNED && P.At(row, permission.permission) != P.ON {
          row := P.With(row, permission.permission, P.PENDING);
        }
        table := table[acc := row];
      } else {
        var row := P.Blank();
        if permission.Known? {
          P.IsColumn(permission.permission);
          row := P.With(row, permission.permission, P.PENDING);
        }
        table := table[acc := row];
      }
      return true;
    }

    method Remove(auth: set<Name>, acc: Name) returns (ok: bool)
      modifies this
      ensures Committed(ok, old(table), table, P.Remove(old(table), auth, acc))
    {
      if EOSIO_LIBRE !in auth || acc !in table { return false; }
      table := table - {acc};
      return true;
    }

    method KickBp(accounts: set<Name>, auth: set<Name>, producer: Name) returns (ok: bool)
      modifies this
      ensures Committed(ok, old(table), table, P.KickBp(old(table), accounts, auth, producer))
    {
      if EOSIO !in auth || producer !in accounts { return false; }
      if producer in table {
        table := table[producer := P.With(table[producer], P.RegProd, P.OFF)];
      } else {
        table := table[producer := P.With(P.Blank(), P.RegProd, P.OFF)];
      }
      return true;
    }

    /** The lookup other contracts make: fixed rights for two names, else zeros overwritten by the row. */
    method GetPriv(acc: Name) returns (res: P.Row)
      ensures res == P.Privileges(table, acc)
    {
      if acc == EOSIO || acc == LIBRE_USER {
        res := P.FullRights();
        return;
      }
      res := P.Blank();
      if acc in table {
        res := table[acc];
      }
    }
  }
}
