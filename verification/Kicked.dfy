/** A kicked producer stays inactive and out of every later schedule until a grant lets it back. */
module Kicked {
  import opened Base
  import opened State
  import opened Election
  import opened Machine
  import P = Permissions
  import ProducerPay
  import Standing
  import opened Schedules
  import opened PermissionOutcome
  import opened Registration
  import Voting

  ghost predicate Out(c: Chain, n: Name)
  {
    && n in c.producers && !c.producers[n].isActive
    && !P.MayRegister(c.permissions, n)
  }

  /** A step that switches `regprod` on for `n`: a setperm or setperm2 that commits. */
  ghost predicate Readmits(c: Chain, a: Action, n: Name)
  {
    a.DoPermission? && P.Grants(a.permission, n) && Effect(c, a).Some?
  }

  ghost predicate NeverReadmitted(c: Chain, actions: seq<Action>, n: Name)
  {
    forall i :: 0 <= i < |actions| ==> !Readmits(Run(c, actions[..i]), actions[i], n)
  }

  /** The journal grew from `before` to `after` without a schedule that names `n`. */
  ghost predicate LeftOutSince(before: seq<Event>, after: seq<Event>, n: Name)
  {
    && |before| <= |after| && after[..|before|] == before
    && forall i :: |before| <= i < |after| && after[i].Proposed? ==> forall e :: e in after[i].schedule ==> e.producer != n
  }

  lemma KickPutsOut(c: Chain, auth: set<Name>, n: Name)
    requires n != EOSIO && n != LIBRE_USER && Voting.KickBp(c, auth, n).Some?
    ensures Out(Voting.KickBp(c, auth, n).value, n)
  {
  }

  lemma LeftOutTransitive(a: seq<Event>, b: seq<Event>, c: seq<Event>, n: Name)
    requires LeftOutSince(a, b, n) && LeftOutSince(b, c, n)
    ensures LeftOutSince(a, c, n)
  {
    assert c[..|a|] == c[..|b|][..|a|];
    forall i | |a| <= i < |c| && c[i].Proposed? ensures forall e :: e in c[i].schedule ==> e.producer != n {
      if i < |b| { assert c[i] == c[..|b|][i]; }
    }
  }

  lemma ElectionLeavesOut(c: Chain, slot: nat, reply: int, n: Name)
    requires Out(c, n)
    ensures Out(UpdateElectedProducers(c, slot, reply), n)
    ensures LeftOutSince(c.journal, UpdateElectedProducers(c, slot, reply).journal, n)
  {
    ScheduleFacts(c.producers);
  }

  lemma ElectedLeavesOut(c: Chain, slot: nat, reply: int, n: Name)
    requires Out(c, n)
    ensures Out(ProducerPay.Elected(c, slot, reply), n)
    ensures LeftOutSince(c.journal, ProducerPay.Elected(c, slot, reply).journal, n)
  {
    if Sub32(slot, c.global.lastScheduleUpdate) > 90 { ElectionLeavesOut(c, slot, reply, n); }
  }

  lemma StandingLeavesOut(c: Chain, d: Chain, n: Name)
    requires Out(c, n) && Standing.SameStanding(c, d)
    ensures Out(d, n) && LeftOutSince(c.journal, d.journal, n)
  {
    assert Standing.SameRow(c.producers[n], d.producers[n]);
    forall i | |c.journal| <= i < |d.journal| ensures d.journal[i].Paid? || d.journal[i].Produced? {
      assert d.journal[i] == d.journal[|c.journal|..][i - |c.journal|];
    }
  }

  lemma OnBlockLeavesOut(c: Chain, auth: set<Name>, slot: nat, producer: Name, now: nat, reply: int, n: Name)
    requires Out(c, n) && ProducerPay.OnBlock(c, auth, slot, producer, now, reply).Some?
    ensures
      var d := ProducerPay.OnBlock(c, auth, slot, producer, now, reply).value;
      Out(d, n) && LeftOutSince(c.journal, d.journal, n)
  {
    Standing.SettledStanding(c, slot, producer, now);
    var d := ProducerPay.Settled(c, slot, producer, now).value;
    StandingLeavesOut(c, d, n);
    ElectedLeavesOut(d, slot, reply, n);
    LeftOutTransitive(c.journal, d.journal, ProducerPay.Elected(d, slot, reply).journal, n);
  }

  lemma NextLeavesOut(c: Chain, a: Action, n: Name)
    requires n != EOSIO && n != LIBRE_USER
    requires Out(c, n) && !Readmits(c, a, n)
    ensures Out(Next(c, a), n) && LeftOutSince(c.journal, Next(c, a).journal, n)
  {
    if Effect(c, a).Some? {
      if a.DoOnBlock? {
        OnBlockLeavesOut(c, a.auth, a.slot, a.producer, a.now, a.reply, n);
      } else {
        OthersKeepOut(c, a, n);
        OthersProposeNothing(c, a);
        OthersLeaveOut(c.journal, Effect(c, a).value.journal, n);
      }
    }
  }

  lemma OthersLeaveOut(before: seq<Event>, after: seq<Event>, n: Name)
    requires |before| <= |after| && after[..|before|] == before
    requires forall i :: |before| <= i < |after| ==> !after[i].Proposed?
    ensures LeftOutSince(before, after, n)
  {
  }

  lemma RegistrationNeedsRight(c: Chain, a: Action)
    requires (a.DoRegProducer? || a.DoRegProducer2?) && Effect(c, a).Some?
    ensures P.MayRegister(c.permissions, a.producer)
  {
  }

  lemma OthersKeepPermissions(c: Chain, a: Action)
    requires !a.DoOnBlock? && !a.DoPermission? && !a.DoKickBp? && Effect(c, a).Some?
    ensures Effect(c, a).value.permissions == c.permissions
  {
    match a
    case DoRegProducer(auth, producer, key, urlSize) =>
    case DoRegProducer2(auth, producer, authority, urlSize) =>
    case DoUnregProd(auth, producer) =>
    case DoRmvProducer(auth, producer) =>
    case DoVoteProducer(auth, voter, producer, dangling) =>
    case DoVOnStake(auth, staker) =>
    case DoClaimRewards(auth, owner) =>
    case DoToken(auth, token) =>
    case DoStakesChange(stakes) =>
    case DoAccountCreated(account) =>
  }

  lemma OthersKeepInactive(c: Chain, a: Action, n: Name)
    requires n in c.producers && !c.producers[n].isActive
    requires !a.DoOnBlock? && ((a.DoRegProducer? || a.DoRegProducer2?) ==> a.producer != n) && Effect(c, a).Some?
    ensures n in Effect(c, a).value.producers && !Effect(c, a).value.producers[n].isActive
  {
    match a
    case DoRegProducer(auth, producer, key, urlSize) =>
    case DoRegProducer2(auth, producer, authority, urlSize) =>
    case DoUnregProd(auth, producer) =>
    case DoRmvProducer(auth, producer) =>
    case DoKickBp(auth, producer) =>
    case DoVoteProducer(auth, voter, producer, dangling) =>
    case DoVOnStake(auth, staker) =>
    case DoClaimRewards(auth, owner) =>
    case DoToken(auth, token) =>
    case DoPermission(auth, permission) =>
    case DoStakesChange(stakes) =>
    case DoAccountCreated(account) =>
  }

  lemma KickKeepsOut(c: Chain, auth: set<Name>, producer: Name, n: Name)
    requires n != EOSIO && n != LIBRE_USER && !P.MayRegister(c.permissions, n)
    requires Voting.KickBp(c, auth, producer).Some?
    ensures !P.MayRegister(Voting.KickBp(c, auth, producer).value.permissions, n)
  {
    P.RightsNeedGrant(c.permissions, c.accounts, {EOSIO}, P.DoKickBp(producer), n);
  }

  lemma OthersKeepOut(c: Chain, a: Action, n: Name)
    requires n != EOSIO && n != LIBRE_USER
    requires Out(c, n) && !Readmits(c, a, n) && !a.DoOnBlock? && Effect(c, a).Some?
    ensures Out(Effect(c, a).value, n)
  {
    if a.DoRegProducer? || a.DoRegProducer2? { RegistrationNeedsRight(c, a); }
    OthersKeepInactive(c, a, n);
    match a
    case DoPermission(auth, permission) => P.RightsNeedGrant(c.permissions, c.accounts, auth, permission, n);
    case DoKickBp(auth, producer) => KickKeepsOut(c, auth, producer, n);
    case _ => OthersKeepPermissions(c, a);
  }

  /** The run property: without a grant there is no way back in, whatever else happens. */
  lemma {:induction false} KickedStaysOut(c: Chain, actions: seq<Action>, n: Name)
    requires n != EOSIO && n != LIBRE_USER && Out(c, n)
    requires NeverReadmitted(c, actions, n)
    ensures Out(Run(c, actions), n)
    ensures LeftOutSince(c.journal, Run(c, actions).journal, n)
  {
    if actions == [] {
    } else {
      var before := actions[..|actions| - 1];
      var d := Run(c, before);
      assert forall i :: 0 <= i < |before| ==> before[..i] == actions[..i] && before[i] == actions[i];
      KickedStaysOut(c, before, n);
      NextLeavesOut(d, actions[|actions| - 1], n);
      LeftOutTransitive(c.journal, d.journal, Run(c, actions).journal, n);
    }
  }

  /** A committed grant carries the authority of eosio.libre. */
  lemma GrantIsSigned(c: Chain, a: Action, n: Name)
    requires Readmits(c, a, n)
    ensures EOSIO_LIBRE in a.auth
  {
    match a.permission
    case DoSetPerm(x, perms) => SetPermOutcome(c.permissions, c.accounts, a.auth, x, perms, P.RegProd);
    case DoSetPerm2(x, values) => SetPerm2Outcome(c.permissions, c.accounts, a.auth, x, values);
  }

  /** eosio.libre signs no permission action. */
  predicate ContractSilent(a: Action)
  {
    a.DoPermission? ==> EOSIO_LIBRE !in a.auth
  }

  /** While eosio.libre signs no permission action nothing brings a kicked producer back, whoever else signs. */
  lemma OnlyTheContractReadmits(c: Chain, actions: seq<Action>, n: Name)
    requires n != EOSIO && n != LIBRE_USER && Out(c, n)
    requires forall i :: 0 <= i < |actions| ==> ContractSilent(actions[i])
    ensures Out(Run(c, actions), n)
    ensures LeftOutSince(c.journal, Run(c, actions).journal, n)
  {
    forall i | 0 <= i < |actions| ensures !Readmits(Run(c, actions[..i]), actions[i], n) {
      if Readmits(Run(c, actions[..i]), actions[i], n) { GrantIsSigned(Run(c, actions[..i]), actions[i], n); }
    }
    KickedStaysOut(c, actions, n);
  }

  /** A right to register that any step of the chain creates comes from a permission action signed by eosio.libre. */
  lemma NewRightIsSigned(c: Chain, a: Action, n: Name)
    requires !P.MayRegister(c.permissions, n) && P.MayRegister(Next(c, a).permissions, n)
    ensures a.DoPermission? && EOSIO_LIBRE in a.auth && P.Grants(a.permission, n)
  {
    if a.DoPermission? {
      NewRightNeedsAuthority(c.permissions, c.accounts, a.auth, a.permission, n);
    } else {
      OthersGiveNoRight(c, a, n);
    }
  }

  lemma OthersGiveNoRight(c: Chain, a: Action, n: Name)
    requires !a.DoPermission? && !P.MayRegister(c.permissions, n)
    ensures !P.MayRegister(Next(c, a).permissions, n)
  {
    if Effect(c, a).Some? {
      if a.DoKickBp? {
        KickGivesNoRight(c, a.auth, a.producer, n);
      } else if a.DoOnBlock? {
        OnBlockKeepsPermissions(c, a.auth, a.slot, a.producer, a.now, a.reply);
      } else {
        OthersKeepPermissions(c, a);
      }
    }
  }

  lemma KickGivesNoRight(c: Chain, auth: set<Name>, producer: Name, n: Name)
    requires !P.MayRegister(c.permissions, n) && Voting.KickBp(c, auth, producer).Some?
    ensures !P.MayRegister(Voting.KickBp(c, auth, producer).value.permissions, n)
  {
    PrivilegesOutcome(c.permissions, n, P.RegProd);
    KickKeepsOut(c, auth, producer, n);
  }

  lemma OnBlockKeepsPermissions(c: Chain, auth: set<Name>, slot: nat, producer: Name, now: nat, reply: int)
    requires ProducerPay.OnBlock(c, auth, slot, producer, now, reply).Some?
    ensures ProducerPay.OnBlock(c, auth, slot, producer, now, reply).value.permissions == c.permissions
  {
    Standing.SettledStanding(c, slot, producer, now);
  }

  /** A grant does let it back: the next registration commits, and makes it an active producer again. */
  lemma GrantLetsBack(c: Chain, a: Action, n: Name, key: Key)
    requires n != EOSIO && n != LIBRE_USER && Readmits(c, a, n)
    ensures
      var r := Voting.RegProducer(Next(c, a), {n}, n, key, 0);
      && r.Some? && n in r.value.producers && r.value.producers[n].isActive
      && r.value.producers[n].authority == Some(Authority(1, [KeyWeight(key, 1)]))
  {
    GrantGivesRight(c, a, n);
    RightRegisters(Next(c, a), n, key);
  }

  lemma GrantGivesRight(c: Chain, a: Action, n: Name)
    requires n != EOSIO && n != LIBRE_USER && Readmits(c, a, n)
    ensures P.MayRegister(Next(c, a).permissions, n)
  {
    P.RightsNeedGrant(c.permissions, c.accounts, a.auth, a.permission, n);
  }

  lemma RightRegisters(d: Chain, n: Name, key: Key)
    requires P.MayRegister(d.permissions, n)
    ensures
      var r := Voting.RegProducer(d, {n}, n, key, 0);
      && r.Some? && n in r.value.producers && r.value.producers[n].isActive
      && r.value.producers[n].authority == Some(Authority(1, [KeyWeight(key, 1)]))
  {
    RegisterOutcome(d, {n}, n, key, 0);
  }

  /** Right after a kick only the two exempt names can register again. */
  lemma ReturnAfterKick(c: Chain, auth: set<Name>, n: Name, key: Key)
    requires Voting.KickBp(c, auth, n).Some?
    ensures Voting.RegProducer(Voting.KickBp(c, auth, n).value, {n}, n, key, 0).Some? <==> n == EOSIO || n == LIBRE_USER
  {
  }
}
