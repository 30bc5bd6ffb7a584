/** Proposed schedules over whole runs: well formed, never shrinking, signed with the latest keys. */
module Schedules {
  import opened Base
  import opened State
  import opened Election
  import opened Machine
  import ProducerPay
  import Standing
  import Tally
  import Voting

  // ---------------------------------------------------------------- size and order

  ghost predicate WellFormed(schedule: seq<Entry>)
  {
    0 < |schedule| <= SEATS && NamesIncrease(schedule)
  }

  ghost predicate SchedulesSafe(journal: seq<Event>, size: nat)
  {
    && (forall i :: 0 <= i < |journal| && journal[i].Proposed? ==> WellFormed(journal[i].schedule))
    && (forall i :: 0 <= i < |journal| && journal[i].Proposed? && journal[i].accepted ==> |journal[i].schedule| <= size)
    && (forall i, j :: 0 <= i < j < |journal| && journal[i].Proposed? && journal[i].accepted && journal[j].Proposed? ==>
          |journal[i].schedule| <= |journal[j].schedule|)
  }

  ghost predicate Safe(c: Chain)
  {
    Tally.TallyExact(c) && SchedulesSafe(c.journal, c.global.lastScheduleSize)
  }

  lemma ProposalSafe(journal: seq<Event>, size: nat, schedule: seq<Entry>, accepted: bool)
    requires SchedulesSafe(journal, size) && WellFormed(schedule) && size <= |schedule|
    ensures SchedulesSafe(journal + [Proposed(schedule, accepted)], if accepted then |schedule| else size)
  {
  }

  lemma OtherEventsSafe(before: seq<Event>, after: seq<Event>, size: nat)
    requires SchedulesSafe(before, size)
    requires |before| <= |after| && after[..|before|] == before
    requires forall i :: |before| <= i < |after| ==> !after[i].Proposed?
    ensures SchedulesSafe(after, size)
  {
    assert forall i :: 0 <= i < |before| ==> after[i] == before[i];
  }

  lemma ElectedWellFormed(c: Chain)
    requires Tally.TallyExact(c)
    ensures |Schedule(c.producers)| <= SEATS && NamesIncrease(Schedule(c.producers))
  {
    Tally.ExactTalliesAreNonNegative(c);
    ScheduleSize(c.producers);
    ScheduleFacts(c.producers);
  }

  lemma ElectionRecord(c: Chain, slot: nat, reply: int)
    requires |Schedule(c.producers)| <= SEATS
    ensures
      var d, schedule := UpdateElectedProducers(c, slot, reply), Schedule(c.producers);
      if |schedule| == 0 || |schedule| < c.global.lastScheduleSize
      then d.journal == c.journal && d.global.lastScheduleSize == c.global.lastScheduleSize
      else && d.journal == c.journal + [Proposed(schedule, reply >= 0)]
           && d.global.lastScheduleSize == if reply >= 0 then |schedule| else c.global.lastScheduleSize
  {
  }

  lemma ElectionSafe(c: Chain, slot: nat, reply: int)
    requires Safe(c)
    ensures
      var d := UpdateElectedProducers(c, slot, reply);
      && SchedulesSafe(d.journal, d.global.lastScheduleSize)
      && d.global.lastScheduleSize >= c.global.lastScheduleSize
  {
    var schedule := Schedule(c.producers);
    ElectedWellFormed(c);
    ElectionRecord(c, slot, reply);
    if |schedule| != 0 && |schedule| >= c.global.lastScheduleSize {
      ProposalSafe(c.journal, c.global.lastScheduleSize, schedule, reply >= 0);
    }
  }

  lemma StandingSafe(c: Chain, d: Chain)
    requires SchedulesSafe(c.journal, c.global.lastScheduleSize) && Standing.SameStanding(c, d)
    ensures SchedulesSafe(d.journal, d.global.lastScheduleSize)
  {
    forall i | |c.journal| <= i < |d.journal| ensures !d.journal[i].Proposed? {
      assert d.journal[i] == d.journal[|c.journal|..][i - |c.journal|];
    }
    OtherEventsSafe(c.journal, d.journal, c.global.lastScheduleSize);
  }

  lemma OnBlockSafe(c: Chain, auth: set<Name>, slot: nat, producer: Name, now: nat, reply: int)
    requires Safe(c) && ProducerPay.OnBlock(c, auth, slot, producer, now, reply).Some?
    ensures
      var d := ProducerPay.OnBlock(c, auth, slot, producer, now, reply).value;
      && SchedulesSafe(d.journal, d.global.lastScheduleSize)
      && d.global.lastScheduleSize >= c.global.lastScheduleSize
  {
    Standing.SettledStanding(c, slot, producer, now);
    var d := ProducerPay.Settled(c, slot, producer, now).value;
    Tally.StandingKeepsTally(c, d);
    StandingSafe(c, d);
    ElectionSafe(d, slot, reply);
  }

  /** Whatever the host answers, the recorded schedule size never decreases. */
  lemma NextSafe(c: Chain, a: Action)
    requires Safe(c)
    ensures Safe(Next(c, a)) && Next(c, a).global.lastScheduleSize >= c.global.lastScheduleSize
  {
    Tally.NextKeepsTally(c, a);
    if Effect(c, a).Some? {
      var d := Effect(c, a).value;
      match a
      case DoOnBlock(auth, slot, producer, now, reply) => OnBlockSafe(c, auth, slot, producer, now, reply);
      case _ =>
        OthersProposeNothing(c, a);
        OtherEventsSafe(c.journal, d.journal, c.global.lastScheduleSize);
    }
  }

  lemma OthersProposeNothing(c: Chain, a: Action)
    requires !a.DoOnBlock? && Effect(c, a).Some?
    ensures
      var d := Effect(c, a).value;
      && d.global.lastScheduleSize == c.global.lastScheduleSize
      && |c.journal| <= |d.journal| && d.journal[..|c.journal|] == c.journal
      && forall i :: |c.journal| <= i < |d.journal| ==> !d.journal[i].Proposed?
  {
    match a
    case DoRegProducer(auth, producer, key, urlSize) =>
    case DoRegProducer2(auth, producer, authority, urlSize) =>
    case DoUnregProd(auth, producer) =>
    case DoRmvProducer(auth, producer) =>
    case DoKickBp(auth, producer) =>
    case DoVoteProducer(auth, voter, producer, dangling) =>
    case DoVOnStake(auth, staker) =>
    case DoClaimRewards(auth, owner) =>
    case DoToken(auth, token) =>
    case DoPermission(auth, permission) =>
    case DoStakesChange(stakes) =>
    case DoAccountCreated(account) =>
  }

  lemma {:induction false} SchedulesSafeOnEveryRun(c: Chain, actions: seq<Action>)
    requires Genesis(c)
    ensures Safe(Run(c, actions))
  {
    if actions == [] {
      Tally.TallyOnEveryRun(c, actions);
    } else {
      SchedulesSafeOnEveryRun(c, actions[..|actions| - 1]);
      NextSafe(Run(c, actions[..|actions| - 1]), actions[|actions| - 1]);
    }
  }

  // ---------------------------------------------------------------- signing authorities

  /** The authority of the latest committed registration of `n`. */
  function LatestRegistration(journal: seq<Event>, n: Name): Option<Authority>
  {
    if journal == [] then None else
    var last := journal[|journal| - 1];
    if last.Registered? && last.producer == n then Some(last.authority)
    else LatestRegistration(journal[..|journal| - 1], n)
  }

  /** An active producer holds its latest registered authority, and its threshold is not zero. */
  ghost predicate KeyHeld(p: Producer, journal: seq<Event>, n: Name)
  {
    p.isActive ==> p.authority.Some? && p.authority.value.threshold != 0 && p.authority == LatestRegistration(journal, n)
  }

  ghost predicate EntriesCurrent(journal: seq<Event>, i: nat)
    requires i < |journal|
  {
    journal[i].Proposed? ==>
      forall e :: e in journal[i].schedule ==> LatestRegistration(journal[..i], e.producer) == Some(e.authority)
  }

  ghost predicate Signed(c: Chain)
  {
    && (forall n :: n in c.producers ==> KeyHeld(c.producers[n], c.journal, n))
    && (forall i :: 0 <= i < |c.journal| ==> EntriesCurrent(c.journal, i))
  }

  lemma {:induction false} QuietEventsKeepRegistration(before: seq<Event>, after: seq<Event>, n: Name)
    requires |before| <= |after| && after[..|before|] == before
    requires forall i :: |before| <= i < |after| ==> !after[i].Registered? || after[i].producer != n
    ensures LatestRegistration(after, n) == LatestRegistration(before, n)
    decreases |after|
  {
    if |before| < |after| {
      assert after[..|after| - 1][..|before|] == before;
      QuietEventsKeepRegistration(before, after[..|after| - 1], n);
    } else {
      assert after == before;
    }
  }

  lemma EarlierEntriesStayCurrent(before: seq<Event>, after: seq<Event>, i: nat)
    requires |before| <= |after| && after[..|before|] == before
    requires i < |before| && EntriesCurrent(before, i)
    ensures EntriesCurrent(after, i)
  {
    assert after[..i] == after[..|before|][..i];
    assert after[i] == after[..|before|][i];
  }

  ghost predicate QuietStep(c: Chain, d: Chain)
  {
    && |c.journal| <= |d.journal| && d.journal[..|c.journal|] == c.journal
    && (forall i :: |c.journal| <= i < |d.journal| ==> !d.journal[i].Registered? && !d.journal[i].Proposed?)
    && d.producers.Keys == c.producers.Keys
    && (forall n :: n in d.producers && d.producers[n].isActive ==>
         c.producers[n].isActive && c.producers[n].authority == d.producers[n].authority)
  }

  /** Steps that only shut producers down or touch other tables keep every signature current. */
  lemma QuietStepSigned(c: Chain, d: Chain)
    requires Signed(c) && QuietStep(c, d)
    ensures Signed(d)
  {
    forall n | n in d.producers ensures KeyHeld(d.producers[n], d.journal, n) {
      assert KeyHeld(c.producers[n], c.journal, n);
      QuietEventsKeepRegistration(c.journal, d.journal, n);
    }
    forall i | 0 <= i < |d.journal| ensures EntriesCurrent(d.journal, i) {
      if i < |c.journal| {
        assert EntriesCurrent(c.journal, i);
        EarlierEntriesStayCurrent(c.journal, d.journal, i);
      }
    }
  }

  lemma StandingSigned(c: Chain, d: Chain)
    requires Signed(c) && Standing.SameStanding(c, d)
    ensures Signed(d)
  {
    forall i | |c.journal| <= i < |d.journal| ensures d.journal[i].Paid? || d.journal[i].Produced? {
      assert d.journal[i] == d.journal[|c.journal|..][i - |c.journal|];
    }
    forall n | n in d.producers ensures d.producers[n].isActive == c.producers[n].isActive
                                        && d.producers[n].authority == c.producers[n].authority {
      assert Standing.SameRow(c.producers[n], d.producers[n]);
    }
    QuietStepSigned(c, d);
  }

  lemma RegisterSigned(c: Chain, producer: Name, authority: Authority)
    requires Signed(c) && authority.threshold != 0
    ensures Signed(Voting.RegisterProducer(c, producer, authority))
  {
    var d := Voting.RegisterProducer(c, producer, authority);
    assert d.journal[..|c.journal|] == c.journal;
    forall n | n in d.producers ensures KeyHeld(d.producers[n], d.journal, n) {
      if n != producer {
        assert KeyHeld(c.producers[n], c.journal, n);
        QuietEventsKeepRegistration(c.journal, d.journal, n);
      }
    }
    forall i | 0 <= i < |d.journal| ensures EntriesCurrent(d.journal, i) {
      if i < |c.journal| {
        assert EntriesCurrent(c.journal, i);
        EarlierEntriesStayCurrent(c.journal, d.journal, i);
      }
    }
  }

  /** The elected entries carry stored authorities; the legacy key is never used for them. */
  lemma ElectedAreSigned(c: Chain, e: Entry)
    requires Signed(c) && e in Schedule(c.producers)
    ensures LatestRegistration(c.journal, e.producer) == Some(e.authority)
    ensures e.producer in c.producers && c.producers[e.producer].authority == Some(e.authority)
  {
    ScheduleFacts(c.producers);
    assert KeyHeld(c.producers[e.producer], c.journal, e.producer);
  }

  lemma ElectionSigned(c: Chain, slot: nat, reply: int)
    requires Signed(c)
    ensures Signed(UpdateElectedProducers(c, slot, reply))
  {
    var d := UpdateElectedProducers(c, slot, reply);
    if d.journal != c.journal {
      assert d.journal[..|c.journal|] == c.journal;
      forall n | n in d.producers ensures KeyHeld(d.producers[n], d.journal, n) {
        assert KeyHeld(c.producers[n], c.journal, n);
        QuietEventsKeepRegistration(c.journal, d.journal, n);
      }
      forall i | 0 <= i < |d.journal| ensures EntriesCurrent(d.journal, i) {
        if i < |c.journal| {
          assert EntriesCurrent(c.journal, i);
          EarlierEntriesStayCurrent(c.journal, d.journal, i);
        } else {
          forall e | e in d.journal[i].schedule
            ensures LatestRegistration(d.journal[..i], e.producer) == Some(e.authority)
          {
            ElectedAreSigned(c, e);
          }
        }
      }
    }
  }

  lemma OnBlockSigned(c: Chain, auth: set<Name>, slot: nat, producer: Name, now: nat, reply: int)
    requires Signed(c) && ProducerPay.OnBlock(c, auth, slot, producer, now, reply).Some?
    ensures Signed(ProducerPay.OnBlock(c, auth, slot, producer, now, reply).value)
  {
    Standing.SettledStanding(c, slot, producer, now);
    var d := ProducerPay.Settled(c, slot, producer, now).value;
    StandingSigned(c, d);
    ElectionSigned(d, slot, reply);
  }

  lemma NextSigned(c: Chain, a: Action)
    requires Signed(c)
    ensures Signed(Next(c, a))
  {
    if Effect(c, a).Some? {
      var d := Effect(c, a).value;
      match a
      case DoRegProducer(auth, producer, key, urlSize) => RegisterSigned(c, producer, KeyAuthority(key));
      case DoRegProducer2(auth, producer, authority, urlSize) => RegisterSigned(c, producer, authority);
      case DoOnBlock(auth, slot, producer, now, reply) => OnBlockSigned(c, auth, slot, producer, now, reply);
      case _ =>
        OthersSignNothing(c, a);
        QuietStepSigned(c, d);
    }
  }

  lemma OthersSignNothing(c: Chain, a: Action)
    requires !a.DoRegProducer? && !a.DoRegProducer2? && !a.DoOnBlock? && Effect(c, a).Some?
    ensures QuietStep(c, Effect(c, a).value)
  {
    match a
    case DoUnregProd(auth, producer) =>
    case DoRmvProducer(auth, producer) =>
    case DoKickBp(auth, producer) =>
    case DoVoteProducer(auth, voter, producer, dangling) =>
      Voting.UpdateFrame(c, voter, producer, true, dangling);
    case DoVOnStake(auth, staker) =>
      if staker in c.voters { Voting.UpdateFrame(c, staker, c.voters[staker].producer, false, 0); }
    case DoClaimRewards(auth, owner) =>
    case DoToken(auth, token) =>
    case DoPermission(auth, permission) =>
    case DoStakesChange(stakes) =>
    case DoAccountCreated(account) =>
  }

  lemma {:induction false} SignedOnEveryRun(c: Chain, actions: seq<Action>)
    requires Genesis(c)
    ensures Signed(Run(c, actions))
  {
    if actions == [] {
    } else {
      SignedOnEveryRun(c, actions[..|actions| - 1]);
      NextSigned(Run(c, actions[..|actions| - 1]), actions[|actions| - 1]);
    }
  }
}
