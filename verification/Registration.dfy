/** Registration and its ends: when they commit, the row they leave, and who is a producer after any run. */
module Registration {
  import opened Base
  import opened Sums
  import opened State
  import opened Voting
  import opened Machine
  import P = Permissions
  import PermissionOutcome
  import ProducerPay
  import Standing

  // ---------------------------------------------------------------- one action

  ghost predicate OtherRowsSame(c: Chain, d: Chain, n: Name)
  {
    && d.producers.Keys == c.producers.Keys + {n}
    && forall m :: m in c.producers && m != n ==> d.producers[m] == c.producers[m]
  }

  /** The row of `n` is active under the authority; votes, unpaid blocks and claim time are kept or zero. */
  ghost predicate Enrolled(c: Chain, d: Chain, n: Name, authority: Authority, key: Key)
  {
    && OtherRowsSame(c, d, n)
    && d.producers[n].isActive && d.producers[n].authority == Some(authority) && d.producers[n].producerKey == key
    && d.producers[n].totalVotes == (if n in c.producers then c.producers[n].totalVotes else 0)
    && d.producers[n].unpaidBlocks == (if n in c.producers then c.producers[n].unpaidBlocks else 0)
    && d.producers[n].lastClaimTime == (if n in c.producers then c.producers[n].lastClaimTime else 0)
    && d == c.(producers := d.producers, journal := c.journal + [Registered(n, authority)])
  }

  /** Signed by the producer, a short enough URL, and the permission to register. */
  ghost predicate MayEnrol(c: Chain, auth: set<Name>, n: Name, urlSize: nat)
  {
    && n in auth && urlSize < 512
    && (n == EOSIO || n == LIBRE_USER || PermissionOutcome.Stored(c.permissions, n, P.RegProd) == 1)
  }

  lemma RegisterOutcome(c: Chain, auth: set<Name>, n: Name, key: Key, urlSize: nat)
    ensures RegProducer(c, auth, n, key, urlSize).Some? <==> MayEnrol(c, auth, n, urlSize)
    ensures RegProducer(c, auth, n, key, urlSize).Some? ==>
            Enrolled(c, RegProducer(c, auth, n, key, urlSize).value, n, Authority(1, [KeyWeight(key, 1)]), key)
  {
    PermissionOutcome.PrivilegesOutcome(c.permissions, n, P.RegProd);
  }

  ghost function Weights(keys: seq<KeyWeight>): map<nat, int>
  {
    map i: nat | i < |keys| :: keys[i].weight
  }

  /** An authority that its own keys can satisfy. */
  ghost predicate Satisfiable(a: Authority)
  {
    && 0 < a.threshold <= Sum(Weights(a.keys))
    && forall i, j :: 0 <= i < j < |a.keys| ==> a.keys[i].key != a.keys[j].key
  }

  lemma {:induction false} WeightIsSum(keys: seq<KeyWeight>)
    ensures Weight(keys) == Sum(Weights(keys))
  {
    if keys == [] {
      assert Weights(keys) == map[];
    } else {
      var last: nat := |keys| - 1;
      var init := keys[..last];
      WeightIsSum(init);
      assert Weights(keys) == Weights(init)[last := keys[last].weight];
      SumUpdate(Weights(init), last, keys[last].weight);
    }
  }

  lemma Register2Outcome(c: Chain, auth: set<Name>, n: Name, authority: Authority, urlSize: nat)
    ensures RegProducer2(c, auth, n, authority, urlSize).Some? <==>
            MayEnrol(c, auth, n, urlSize) && Satisfiable(authority)
    ensures RegProducer2(c, auth, n, authority, urlSize).Some? ==>
            Enrolled(c, RegProducer2(c, auth, n, authority, urlSize).value, n, authority,
                     if |authority.keys| == 1 then authority.keys[0].key else 0)
  {
    PermissionOutcome.PrivilegesOutcome(c.permissions, n, P.RegProd);
    WeightIsSum(authority.keys);
  }

  /** The row of `n` is inactive and without keys; votes, unpaid blocks and claim time are kept. */
  ghost predicate ShutDown(c: Chain, d: Chain, n: Name)
    requires n in c.producers
  {
    && OtherRowsSame(c, d, n)
    && !d.producers[n].isActive && d.producers[n].authority == None && d.producers[n].producerKey == 0
    && d.producers[n].totalVotes == c.producers[n].totalVotes
    && d.producers[n].unpaidBlocks == c.producers[n].unpaidBlocks
    && d.producers[n].lastClaimTime == c.producers[n].lastClaimTime
    && d == c.(producers := d.producers, permissions := d.permissions)
  }

  lemma UnregOutcome(c: Chain, auth: set<Name>, n: Name)
    ensures UnregProd(c, auth, n).Some? <==> n in auth && n in c.producers
    ensures UnregProd(c, auth, n).Some? ==>
            ShutDown(c, UnregProd(c, auth, n).value, n) && UnregProd(c, auth, n).value.permissions == c.permissions
  {
  }

  lemma RmvOutcome(c: Chain, auth: set<Name>, n: Name)
    ensures RmvProducer(c, auth, n).Some? <==> EOSIO in auth && n in c.producers
    ensures RmvProducer(c, auth, n).Some? ==>
            ShutDown(c, RmvProducer(c, auth, n).value, n) && RmvProducer(c, auth, n).value.permissions == c.permissions
  {
  }

  /** A kick also sets `regprod` to off and leaves every other permission of every account. */
  lemma KickOutcome(c: Chain, auth: set<Name>, n: Name, p: P.Permission)
    ensures KickBp(c, auth, n).Some? <==> EOSIO in auth && n in c.producers && n in c.accounts
    ensures KickBp(c, auth, n).Some? ==>
            var d := KickBp(c, auth, n).value;
            && ShutDown(c, d, n) && PermissionOutcome.OthersSame(c.permissions, d.permissions, n)
            && PermissionOutcome.Stored(d.permissions, n, p) ==
               if p == P.RegProd then 3 else PermissionOutcome.Stored(c.permissions, n, p)
  {
    PermissionOutcome.KickBpOutcome(c.permissions, c.accounts, {EOSIO}, n, p);
  }

  // ---------------------------------------------------------------- any run

  /** What the registrations and their ends that committed in a run make of a name. */
  datatype Status = Absent | Active(authority: Authority) | Shut

  ghost function StatusAfter(c: Chain, actions: seq<Action>, n: Name): Status
  {
    if actions == [] then Absent else
    var before, a := actions[..|actions| - 1], actions[|actions| - 1];
    if Effect(Run(c, before), a).None? then StatusAfter(c, before, n) else
    match a
    case DoRegProducer(_, producer, key, _) =>
      if producer == n then Active(Authority(1, [KeyWeight(key, 1)])) else StatusAfter(c, before, n)
    case DoRegProducer2(_, producer, authority, _) =>
      if producer == n then Active(authority) else StatusAfter(c, before, n)
    case DoUnregProd(_, producer) => if producer == n then Shut else StatusAfter(c, before, n)
    case DoRmvProducer(_, producer) => if producer == n then Shut else StatusAfter(c, before, n)
    case DoKickBp(_, producer) => if producer == n then Shut else StatusAfter(c, before, n)
    case _ => StatusAfter(c, before, n)
  }

  ghost predicate HasStatus(ps: map<Name, Producer>, n: Name, status: Status)
  {
    match status
    case Absent => n !in ps
    case Active(authority) => n in ps && ps[n].isActive && ps[n].authority == Some(authority)
    case Shut => n in ps && !ps[n].isActive && ps[n].authority == None
  }

  /** Whatever else changed, the same names are registered, with the same activity and authority. */
  ghost predicate SameRolls(c: Chain, d: Chain)
  {
    && d.producers.Keys == c.producers.Keys
    && forall n :: n in c.producers ==>
         && d.producers[n].isActive == c.producers[n].isActive
         && d.producers[n].authority == c.producers[n].authority
  }

  lemma OnBlockKeepsRolls(c: Chain, auth: set<Name>, slot: nat, producer: Name, now: nat, reply: int)
    requires ProducerPay.OnBlock(c, auth, slot, producer, now, reply).Some?
    ensures SameRolls(c, ProducerPay.OnBlock(c, auth, slot, producer, now, reply).value)
  {
    Standing.SettledStanding(c, slot, producer, now);
    var d := ProducerPay.Settled(c, slot, producer, now).value;
    forall n | n in c.producers
      ensures d.producers[n].isActive == c.producers[n].isActive && d.producers[n].authority == c.producers[n].authority
    {
      assert Standing.SameRow(c.producers[n], d.producers[n]);
    }
  }

  predicate ChangesRolls(a: Action)
  {
    a.DoRegProducer? || a.DoRegProducer2? || a.DoUnregProd? || a.DoRmvProducer? || a.DoKickBp?
  }

  lemma OthersKeepRolls(c: Chain, a: Action)
    requires !ChangesRolls(a) && Effect(c, a).Some?
    ensures SameRolls(c, Effect(c, a).value)
  {
    match a
    case DoVoteProducer(auth, voter, producer, dangling) => UpdateFrame(c, voter, producer, true, dangling);
    case DoVOnStake(auth, staker) =>
      if staker in c.voters { UpdateFrame(c, staker, c.voters[staker].producer, false, 0); }
    case DoOnBlock(auth, slot, producer, now, reply) => OnBlockKeepsRolls(c, auth, slot, producer, now, reply);
    case DoClaimRewards(auth, owner) =>
    case DoToken(auth, token) =>
    case DoPermission(auth, permission) =>
    case DoStakesChange(stakes) =>
    case DoAccountCreated(account) =>
  }

  lemma NextKeepsStatus(c: Chain, a: Action, n: Name, status: Status)
    requires HasStatus(c.producers, n, status) && Effect(c, a).Some? && (ChangesRolls(a) ==> a.producer != n)
    ensures HasStatus(Next(c, a).producers, n, status)
  {
    match a
    case DoRegProducer(auth, producer, key, urlSize) => RegisterOutcome(c, auth, producer, key, urlSize);
    case DoRegProducer2(auth, producer, authority, urlSize) => Register2Outcome(c, auth, producer, authority, urlSize);
    case DoUnregProd(auth, producer) => UnregOutcome(c, auth, producer);
    case DoRmvProducer(auth, producer) => RmvOutcome(c, auth, producer);
    case DoKickBp(auth, producer) => KickOutcome(c, auth, producer, P.RegProd);
    case _ => OthersKeepRolls(c, a);
  }

  lemma NextSetsStatus(c: Chain, a: Action)
    requires Effect(c, a).Some? && ChangesRolls(a)
    ensures
      var ps := Next(c, a).producers;
      match a
      case DoRegProducer(_, n, key, _) => HasStatus(ps, n, Active(Authority(1, [KeyWeight(key, 1)])))
      case DoRegProducer2(_, n, authority, _) => HasStatus(ps, n, Active(authority))
      case _ => HasStatus(ps, a.producer, Shut)
  {
    match a
    case DoRegProducer(auth, producer, key, urlSize) => RegisterOutcome(c, auth, producer, key, urlSize);
    case DoRegProducer2(auth, producer, authority, urlSize) => Register2Outcome(c, auth, producer, authority, urlSize);
    case DoUnregProd(auth, producer) => UnregOutcome(c, auth, producer);
    case DoRmvProducer(auth, producer) => RmvOutcome(c, auth, producer);
    case DoKickBp(auth, producer) => KickOutcome(c, auth, producer, P.RegProd);
  }

  /** On every run the producer table says exactly what the committed registrations and their ends say. */
  lemma {:induction false} StatusOnEveryRun(c: Chain, actions: seq<Action>, n: Name)
    requires Genesis(c)
    ensures HasStatus(Run(c, actions).producers, n, StatusAfter(c, actions, n))
  {
    if actions == [] {
    } else {
      var before, a := actions[..|actions| - 1], actions[|actions| - 1];
      var d := Run(c, before);
      StatusOnEveryRun(c, before, n);
      if Effect(d, a).Some? {
        if ChangesRolls(a) && a.producer == n {
          NextSetsStatus(d, a);
        } else {
          NextKeepsStatus(d, a, n, StatusAfter(c, before, n));
        }
      }
    }
  }

  /** Which actions of a run committed. */
  ghost function Commits(c: Chain, actions: seq<Action>): (r: seq<bool>)
    ensures |r| == |actions|
  {
    if actions == [] then [] else
    var before := actions[..|actions| - 1];
    Commits(c, before) + [Effect(Run(c, before), actions[|actions| - 1]).Some?]
  }

  lemma {:induction false} CommitsAt(c: Chain, actions: seq<Action>, i: nat)
    requires i < |actions|
    ensures Commits(c, actions)[i] == Effect(Run(c, actions[..i]), actions[i]).Some?
  {
    if i < |actions| - 1 {
      CommitsAt(c, actions[..|actions| - 1], i);
      assert actions[..|actions| - 1][..i] == actions[..i];
    }
  }

  predicate Registers(a: Action, n: Name)
  {
    (a.DoRegProducer? || a.DoRegProducer2?) && a.producer == n
  }

  predicate Shuts(a: Action, n: Name)
  {
    (a.DoUnregProd? || a.DoRmvProducer? || a.DoKickBp?) && a.producer == n
  }

  /** No committed end of `n` comes after position `i`. */
  ghost predicate OpenSince(actions: seq<Action>, committed: seq<bool>, i: nat, n: Name)
    requires |committed| == |actions|
  {
    forall j :: i < j < |actions| ==> !(committed[j] && Shuts(actions[j], n))
  }

  /** A committed registration of `n` was not followed by a committed end of it. */
  ghost predicate StillRegistered(actions: seq<Action>, committed: seq<bool>, n: Name)
    requires |committed| == |actions|
  {
    exists i :: 0 <= i < |actions| && committed[i] && Registers(actions[i], n) && OpenSince(actions, committed, i, n)
  }

  lemma RegisteredStep(actions: seq<Action>, committed: seq<bool>, a: Action, ok: bool, n: Name)
    requires |committed| == |actions|
    ensures StillRegistered(actions + [a], committed + [ok], n) <==>
            (ok && Registers(a, n)) || (StillRegistered(actions, committed, n) && !(ok && Shuts(a, n)))
  {
    var all, oks := actions + [a], committed + [ok];
    if StillRegistered(actions, committed, n) && !(ok && Shuts(a, n)) {
      var i :| 0 <= i < |actions| && committed[i] && Registers(actions[i], n) && OpenSince(actions, committed, i, n);
      assert oks[i] && Registers(all[i], n) && OpenSince(all, oks, i, n);
    }
    if ok && Registers(a, n) {
      assert oks[|actions|] && Registers(all[|actions|], n) && OpenSince(all, oks, |actions|, n);
    }
    if StillRegistered(all, oks, n) && !(ok && Registers(a, n)) {
      var i :| 0 <= i < |all| && oks[i] && Registers(all[i], n) && OpenSince(all, oks, i, n);
      forall j | i < j < |actions| ensures !(committed[j] && Shuts(actions[j], n)) {
        assert !(oks[j] && Shuts(all[j], n));
      }
      assert i < |actions| && committed[i] && Registers(actions[i], n) && OpenSince(actions, committed, i, n);
      assert !(oks[|actions|] && Shuts(all[|actions|], n));
    }
  }

  lemma {:induction false} ActiveStatusIff(c: Chain, actions: seq<Action>, n: Name)
    ensures StatusAfter(c, actions, n).Active? <==> StillRegistered(actions, Commits(c, actions), n)
  {
    if actions != [] {
      var before, a := actions[..|actions| - 1], actions[|actions| - 1];
      ActiveStatusIff(c, before, n);
      RegisteredStep(before, Commits(c, before), a, Effect(Run(c, before), a).Some?, n);
      assert actions == before + [a];
    }
  }

  /** A producer is active exactly when no committed end of it came after its last committed registration. */
  lemma ActiveIff(c: Chain, actions: seq<Action>, n: Name)
    requires Genesis(c)
    ensures
      var ps := Run(c, actions).producers;
      n in ps && ps[n].isActive <==> StillRegistered(actions, Commits(c, actions), n)
  {
    StatusOnEveryRun(c, actions, n);
    ActiveStatusIff(c, actions, n);
  }
}
