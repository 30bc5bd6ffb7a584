/** When each permission action commits, on whose authority, and every column it leaves behind. */
module PermissionOutcome {
  import opened Base
  import opened Permissions

  /** The stored value of a permission; an account without a row has 0 everywhere. */
  function Stored(t: Table, acc: Name, p: Permission): nat
  {
    if acc in t then At(t[acc], p) else 0
  }

  ghost predicate OthersSame(t: Table, t': Table, acc: Name)
  {
    && t'.Keys == t.Keys + {acc}
    && forall other :: other in t && other != acc ==> t'[other] == t[other]
  }

  /** The row of `acc` alone changed, and holds the first nine entries in the order of the columns. */
  ghost predicate InColumnOrder(t: Table, t': Table, acc: Name, values: NineOrMore)
  {
    && OthersSame(t, t', acc)
    && Stored(t', acc, CreateAcc) == values[0] && Stored(t', acc, RegProd) == values[1]
    && Stored(t', acc, Vote) == values[2] && Stored(t', acc, Stake) == values[3]
    && Stored(t', acc, Transfer) == values[4] && Stored(t', acc, Propose) == values[5]
    && Stored(t', acc, SetContract) == values[6] && Stored(t', acc, Blacklist) == values[7]
    && Stored(t', acc, SetALimits) == values[8]
  }

  lemma SetPerm2Outcome(t: Table, accounts: set<Name>, auth: set<Name>, acc: Name, values: NineOrMore)
    ensures SetPerm2(t, accounts, auth, acc, values).Some? <==> EOSIO_LIBRE in auth && acc in accounts
    ensures SetPerm2(t, accounts, auth, acc, values).Some? ==>
            InColumnOrder(t, SetPerm2(t, accounts, auth, acc, values).value, acc, values)
  {
    forall p ensures At(FromColumns(values), p) == values[Column(p)] {
      FromColumnsAt(values, p);
    }
  }

  lemma SetPermOutcome(t: Table, accounts: set<Name>, auth: set<Name>, acc: Name, perms: map<Key, nat>, p: Permission)
    ensures SetPerm(t, accounts, auth, acc, perms).Some? <==> EOSIO_LIBRE in auth && acc in accounts
    ensures SetPerm(t, accounts, auth, acc, perms).Some? ==>
            var t' := SetPerm(t, accounts, auth, acc, perms).value;
            && OthersSame(t, t', acc)
            && Stored(t', acc, p) == if Known(p) in perms then perms[Known(p)] else Stored(t, acc, p)
  {
    MergedAt(RowOf(t, acc), perms, p);
    BlankAt(p);
  }

  /** Nobody needs more than its own authority to ask, and asking lifts neither a right nor a ban. */
  lemma ReqPermOutcome(t: Table, auth: set<Name>, acc: Name, permission: Key, p: Permission)
    ensures ReqPerm(t, auth, acc, permission).Some? <==> acc in auth
    ensures ReqPerm(t, auth, acc, permission).Some? ==>
            var t' := ReqPerm(t, auth, acc, permission).value;
            && OthersSame(t, t', acc)
            && Stored(t', acc, p) ==
               if permission == Known(p) && Stored(t, acc, p) !in {1, 4} then 2 else Stored(t, acc, p)
  {
    BlankAt(p);
    if permission.Known? { WithAt(RowOf(t, acc), permission.permission, PENDING, p); }
  }

  lemma WithAt(row: Row, q: Permission, value: nat, p: Permission)
    ensures At(With(row, q, value), p) == if p == q then value else At(row, p)
  {
    IsColumn(p);
    IsColumn(q);
  }

  lemma RemoveOutcome(t: Table, auth: set<Name>, acc: Name, p: Permission)
    ensures Remove(t, auth, acc).Some? <==> EOSIO_LIBRE in auth && acc in t
    ensures Remove(t, auth, acc).Some? ==>
            var t' := Remove(t, auth, acc).value;
            && OthersSame(t', t, acc) && Stored(t', acc, p) == 0 && acc !in t'
  {
  }

  lemma KickBpOutcome(t: Table, accounts: set<Name>, auth: set<Name>, acc: Name, p: Permission)
    ensures KickBp(t, accounts, auth, acc).Some? <==> EOSIO in auth && acc in accounts
    ensures KickBp(t, accounts, auth, acc).Some? ==>
            var t' := KickBp(t, accounts, auth, acc).value;
            OthersSame(t, t', acc) && Stored(t', acc, p) == if p == RegProd then 3 else Stored(t, acc, p)
  {
    BlankAt(p);
    WithAt(RowOf(t, acc), RegProd, OFF, p);
  }

  /** What the other contracts read: `eosio` and `libre` may do everything, others what is stored as 1. */
  lemma PrivilegesOutcome(t: Table, acc: Name, p: Permission)
    ensures At(Privileges(t, acc), p) == if acc == EOSIO || acc == LIBRE_USER then 1 else Stored(t, acc, p)
    ensures MayRegister(t, acc) <==> acc == EOSIO || acc == LIBRE_USER || Stored(t, acc, RegProd) == 1
  {
    BlankAt(p);
    BlankAt(RegProd);
    IsColumn(p);
    IsColumn(RegProd);
  }

  /** A right to register that an action creates was created on the authority of eosio.libre. */
  lemma NewRightNeedsAuthority(t: Table, accounts: set<Name>, auth: set<Name>, a: Action, acc: Name)
    requires Step(t, accounts, auth, a).Some?
    requires !MayRegister(t, acc) && MayRegister(Step(t, accounts, auth, a).value, acc)
    ensures EOSIO_LIBRE in auth && Grants(a, acc)
  {
    RightsNeedGrant(t, accounts, auth, a, acc);
    match a
    case DoSetPerm(x, perms) => SetPermOutcome(t, accounts, auth, x, perms, RegProd);
    case DoSetPerm2(x, values) => SetPerm2Outcome(t, accounts, auth, x, values);
    case DoReqPerm(x, permission) =>
    case DoRemove(x) =>
    case DoKickBp(x) =>
  }

  /** Every right an action raises to 1, of any kind and for any account, needs that same authority. */
  lemma RightsComeFromContract(t: Table, accounts: set<Name>, auth: set<Name>, a: Action, acc: Name, p: Permission)
    requires Step(t, accounts, auth, a).Some?
    requires Stored(t, acc, p) != 1 && Stored(Step(t, accounts, auth, a).value, acc, p) == 1
    ensures EOSIO_LIBRE in auth
  {
    match a
    case DoSetPerm(x, perms) => SetPermOutcome(t, accounts, auth, x, perms, p);
    case DoSetPerm2(x, values) => SetPerm2Outcome(t, accounts, auth, x, values);
    case DoReqPerm(x, permission) => ReqPermOutcome(t, auth, x, permission, p);
    case DoRemove(x) => RemoveOutcome(t, auth, x, p);
    case DoKickBp(x) => KickBpOutcome(t, accounts, auth, x, p);
  }
}
