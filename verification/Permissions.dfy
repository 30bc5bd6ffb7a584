/** The permission table of eosio.libre and the lookup the system contract makes in it. */
module Permissions {
  import opened Base

  datatype Permission =
    | CreateAcc | RegProd | Vote | Stake | Transfer | Propose | SetContract | Blacklist | SetALimits

  /** A permission name as it arrives in an action: one of the nine, or a name the contract ignores. */
  datatype Key = Known(permission: Permission) | Unknown(text: string)

  // 0 = none, 1 = on, 2 = pending, 3 = off, 4 = banned
  const NONE: nat := 0
  const ON: nat := 1
  const PENDING: nat := 2
  const OFF: nat := 3
  const BANNED: nat := 4

  const COLUMNS: seq<Permission> :=
    [CreateAcc, RegProd, Vote, Stake, Transfer, Propose, SetContract, Blacklist, SetALimits]

  const ALL: set<Permission> :=
    {CreateAcc, RegProd, Vote, Stake, Transfer, Propose, SetContract, Blacklist, SetALimits}

  /** A row holds a value for each of the nine permissions. */
  type Row = r: map<Permission, nat> | r.Keys == ALL witness map p | p in ALL :: 0
  type Table = map<Name, Row>

  /** The argument of setperm2; the contract reads its first nine entries unchecked. */
  type NineOrMore = s: seq<nat> | |s| >= 9 witness [0, 0, 0, 0, 0, 0, 0, 0, 0]

  function Blank(): Row {
    map p | p in ALL :: NONE
  }

  function FullRights(): Row {
    map p | p in ALL :: ON
  }

  lemma IsColumn(p: Permission)
    ensures p in ALL
  {
    assert COLUMNS[Column(p)] == p;
  }

  /** Two rows are the same when they agree on all nine permissions. */
  lemma SameRow(a: Row, b: Row)
    requires forall i :: 0 <= i < 9 ==> At(a, COLUMNS[i]) == At(b, COLUMNS[i])
    ensures a == b
  {
    forall p | p in ALL ensures a[p] == b[p] {
      assert At(a, COLUMNS[Column(p)]) == At(b, COLUMNS[Column(p)]);
    }
  }

  function At(row: Row, p: Permission): nat
  {
    IsColumn(p);
    row[p]
  }

  function With(row: Row, p: Permission, value: nat): Row
  {
    IsColumn(p);
    row[p := value]
  }

  /** The row before an action touches it: the stored one, or nine zeros when none is stored. */
  function RowOf(t: Table, acc: Name): Row
  {
    if acc in t then t[acc] else Blank()
  }

  /** What the rest of the chain sees: `eosio` and `libre` hold every permission whatever is stored. */
  function Privileges(t: Table, acc: Name): Row
  {
    if acc == EOSIO || acc == LIBRE_USER then FullRights() else RowOf(t, acc)
  }

  function Column(p: Permission): (i: nat)
    ensures i < 9 && COLUMNS[i] == p
  {
    match p
    case CreateAcc => 0 case RegProd => 1 case Vote => 2 case Stake => 3 case Transfer => 4
    case Propose => 5 case SetContract => 6 case Blacklist => 7 case SetALimits => 8
  }

  /** The row with every recognised entry of the argument written over it. */
  function Merged(row: Row, perms: map<Key, nat>): Row
  {
    map p | p in ALL :: if Known(p) in perms then perms[Known(p)] else row[p]
  }

  /** The row whose columns are the first nine entries of the argument, in order. */
  function FromColumns(perms: NineOrMore): Row
  {
    map p | p in ALL :: perms[Column(p)]
  }

  function SetPerm(t: Table, accounts: set<Name>, auth: set<Name>, acc: Name, perms: map<Key, nat>): Option<Table>
  {
    if !(EOSIO_LIBRE in auth && acc in accounts) then None else
    Some(t[acc := Merged(RowOf(t, acc), perms)])
  }

  function SetPerm2(t: Table, accounts: set<Name>, auth: set<Name>, acc: Name, perms: NineOrMore): Option<Table>
  {
    if !(EOSIO_LIBRE in auth && acc in accounts) then None else
    Some(t[acc := FromColumns(perms)])
  }

  /** A request turns a permission to pending unless it is on or banned; a new row starts at zero. */
  function ReqPerm(t: Table, auth: set<Name>, acc: Name, permission: Key): Option<Table>
  {
    if acc !in auth then None else
    var row := RowOf(t, acc);
    var requested :=
      if permission.Known? && At(row, permission.permission) != ON && At(row, permission.permission) != BANNED
      then With(row, permission.permission, PENDING)
      else row;
    Some(t[acc := requested])
  }

  function Remove(t: Table, auth: set<Name>, acc: Name): Option<Table>
  {
    if !(EOSIO_LIBRE in auth && acc in t) then None else
    Some(t - {acc})
  }

  function KickBp(t: Table, accounts: set<Name>, auth: set<Name>, producer: Name): Option<Table>
  {
    if !(EOSIO in auth && producer in accounts) then None else
    Some(t[producer := With(RowOf(t, producer), RegProd, OFF)])
  }

  datatype Action =
    | DoSetPerm(acc: Name, perms: map<Key, nat>)
    | DoSetPerm2(acc: Name, values: NineOrMore)
    | DoReqPerm(acc: Name, permission: Key)
    | DoRemove(acc: Name)
    | DoKickBp(producer: Name)

  function Step(t: Table, accounts: set<Name>, auth: set<Name>, a: Action): Option<Table>
  {
    match a
    case DoSetPerm(acc, perms) => SetPerm(t, accounts, auth, acc, perms)
    case DoSetPerm2(acc, values) => SetPerm2(t, accounts, auth, acc, values)
    case DoReqPerm(acc, permission) => ReqPerm(t, auth, acc, permission)
    case DoRemove(acc) => Remove(t, auth, acc)
    case DoKickBp(producer) => KickBp(t, accounts, auth, producer)
  }

  predicate MayRegister(t: Table, acc: Name)
  {
    At(Privileges(t, acc), RegProd) == ON
  }

  /** The two actions that can switch `regprod` on, and the argument that does so. */
  predicate Grants(a: Action, acc: Name)
  {
    match a
    case DoSetPerm(x, perms) => x == acc && Known(RegProd) in perms && perms[Known(RegProd)] == ON
    case DoSetPerm2(x, values) => x == acc && values[1] == ON
    case _ => false
  }

  lemma MergedAt(row: Row, perms: map<Key, nat>, p: Permission)
    ensures At(Merged(row, perms), p) == if Known(p) in perms then perms[Known(p)] else At(row, p)
  {
    IsColumn(p);
  }

  lemma FromColumnsAt(perms: NineOrMore, p: Permission)
    ensures At(FromColumns(perms), p) == perms[Column(p)]
  {
    IsColumn(p);
  }

  lemma BlankAt(p: Permission)
    ensures At(Blank(), p) == NONE
  {
    IsColumn(p);
  }

  /** No registration right for `acc` is new in `t'` unless the action grants it. */
  predicate NoNewRight(t: Table, t': Table, a: Action, acc: Name)
  {
    && (At(RowOf(t', acc), RegProd) == ON ==> At(RowOf(t, acc), RegProd) == ON || Grants(a, acc))
    && (Grants(a, acc) ==> At(RowOf(t', acc), RegProd) == ON)
  }

  lemma SetPermRights(t: Table, acc: Name, x: Name, perms: map<Key, nat>)
    ensures NoNewRight(t, t[x := Merged(RowOf(t, x), perms)], DoSetPerm(x, perms), acc)
  {
    MergedAt(RowOf(t, x), perms, RegProd);
  }

  lemma SetPerm2Rights(t: Table, acc: Name, x: Name, values: NineOrMore)
    ensures NoNewRight(t, t[x := FromColumns(values)], DoSetPerm2(x, values), acc)
  {
    FromColumnsAt(values, RegProd);
  }

  lemma WriteRights(t: Table, acc: Name, x: Name, row: Row, a: Action)
    requires !Grants(a, acc) && (At(row, RegProd) == ON ==> At(RowOf(t, x), RegProd) == ON)
    ensures NoNewRight(t, t[x := row], a, acc)
  {
  }

  lemma RequestedAt(row: Row, p: Permission)
    ensures At(With(row, p, PENDING), RegProd) == if p == RegProd then PENDING else At(row, RegProd)
  {
  }

  /** Registration rights appear only through a grant; requests, removals and kicks never give them. */
  lemma RightsNeedGrant(t: Table, accounts: set<Name>, auth: set<Name>, a: Action, acc: Name)
    requires acc != EOSIO && acc != LIBRE_USER
    requires Step(t, accounts, auth, a).Some?
    ensures MayRegister(Step(t, accounts, auth, a).value, acc) ==> MayRegister(t, acc) || Grants(a, acc)
    ensures Grants(a, acc) ==> MayRegister(Step(t, accounts, auth, a).value, acc)
  {
    StepRights(t, accounts, auth, a, acc);
  }

  lemma StepRights(t: Table, accounts: set<Name>, auth: set<Name>, a: Action, acc: Name)
    requires Step(t, accounts, auth, a).Some?
    ensures NoNewRight(t, Step(t, accounts, auth, a).value, a, acc)
  {
    match a
    case DoSetPerm(x, perms) => SetPermRights(t, acc, x, perms);
    case DoSetPerm2(x, values) => SetPerm2Rights(t, acc, x, values);
    case DoReqPerm(x, permission) =>
      if permission.Known? { RequestedAt(RowOf(t, x), permission.permission); }
      WriteRights(t, acc, x, Step(t, accounts, auth, a).value[x], a);
    case DoRemove(x) => BlankAt(RegProd);
    case DoKickBp(x) => WriteRights(t, acc, x, With(RowOf(t, x), RegProd, OFF), a);
  }
}
