/** When onblock holds an election and what it proposes; over runs no election is ever overdue. */
module ElectionLaw {
  import opened Base
  import opened State
  import opened Election
  import opened Machine
  import opened ProducerPay
  import Standing
  import Schedules
  import Tally
  import Voting

  // ---------------------------------------------------------------- the best of the contenders

  /** Active producers with votes. */
  ghost function Contenders(ps: map<Name, Producer>): set<Name>
  {
    set n | n in ps && ps[n].isActive && ps[n].totalVotes > 0
  }

  ghost function Seats(ps: map<Name, Producer>): nat
  {
    if |Contenders(ps)| < 21 then |Contenders(ps)| else 21
  }

  predicate Elects(schedule: seq<Entry>, n: Name)
  {
    exists e :: e in schedule && e.producer == n
  }

  /** More votes, or as many and the smaller name. */
  predicate Better(ps: map<Name, Producer>, a: Name, b: Name)
    requires a in ps && b in ps
  {
    ps[a].totalVotes > ps[b].totalVotes || (ps[a].totalVotes == ps[b].totalVotes && a < b)
  }

  /** What an entry signs with: the stored authority if it can be satisfied, else the old single key. */
  ghost predicate SignsAs(p: Producer, authority: Authority)
  {
    if p.authority.Some? && p.authority.value.threshold > 0
    then p.authority == Some(authority)
    else authority == Authority(1, [KeyWeight(p.producerKey, 1)])
  }

  /** In name order, as many contenders as there are seats, each better than any contender left out. */
  ghost predicate BestSchedule(ps: map<Name, Producer>, schedule: seq<Entry>)
  {
    && |schedule| == Seats(ps)
    && (forall i, j :: 0 <= i < j < |schedule| ==> schedule[i].producer < schedule[j].producer)
    && (forall e :: e in schedule ==> e.producer in Contenders(ps) && SignsAs(ps[e.producer], e.authority))
    && (forall e, n :: e in schedule && n in Contenders(ps) && !Elects(schedule, n) ==> Better(ps, e.producer, n))
  }

  lemma ScheduleIsBest(ps: map<Name, Producer>)
    requires VotesNonNegative(ps)
    ensures BestSchedule(ps, Schedule(ps))
  {
    var schedule := Schedule(ps);
    assert Contenders(ps) == Qualified(ps);
    WinnersCount(ps);
    ScheduleSize(ps);
    ScheduleFacts(ps);
    forall e, n | e in schedule && n in Contenders(ps) && !Elects(schedule, n) ensures Better(ps, e.producer, n) {
      assert EntryOf(ps, n).producer == n;
      assert n !in Winners(ps);
      WinnersAreBest(ps, e.producer, n);
    }
  }

  // ---------------------------------------------------------------- one block

  function Proposals(journal: seq<Event>): seq<Event>
  {
    if journal == [] then [] else
    var last := journal[|journal| - 1];
    Proposals(journal[..|journal| - 1]) + if last.Proposed? then [last] else []
  }

  lemma {:induction false} QuietEvents(before: seq<Event>, after: seq<Event>)
    requires |before| <= |after| && after[..|before|] == before
    requires forall i :: |before| <= i < |after| ==> !after[i].Proposed?
    ensures Proposals(after) == Proposals(before)
    decreases |after|
  {
    if |before| < |after| {
      var init := after[..|after| - 1];
      assert init[..|before|] == before;
      QuietEvents(before, init);
      assert Proposals(init) + [] == Proposals(init);
    } else {
      assert after == before;
    }
  }

  lemma StandingProposesNothing(c: Chain, d: Chain)
    requires Standing.SameStanding(c, d)
    ensures Proposals(d.journal) == Proposals(c.journal)
  {
    forall i | |c.journal| <= i < |d.journal| ensures !d.journal[i].Proposed? {
      assert d.journal[i] == d.journal[|c.journal|..][i - |c.journal|];
    }
    QuietEvents(c.journal, d.journal);
  }

  /** One schedule was proposed, the best one for `ps`, and its size was recorded if the host took it. */
  ghost predicate ProposesBest(c: Chain, d: Chain, reply: int)
  {
    var n := |Proposals(c.journal)|;
    && |Proposals(d.journal)| == n + 1 && Proposals(d.journal)[..n] == Proposals(c.journal)
    && Proposals(d.journal)[n].Proposed?
    && Proposals(d.journal)[n].accepted == (reply >= 0)
    && BestSchedule(c.producers, Proposals(d.journal)[n].schedule)
    && d.global.lastScheduleSize == if reply >= 0 then Seats(c.producers) else c.global.lastScheduleSize
  }

  ghost predicate ProposesNothing(c: Chain, d: Chain)
  {
    Proposals(d.journal) == Proposals(c.journal) && d.global.lastScheduleSize == c.global.lastScheduleSize
  }

  /** An election takes place; it proposes unless nobody contends or the schedule would shrink. */
  ghost predicate HoldsElection(c: Chain, d: Chain, slot: nat, reply: int)
  {
    && d.global.lastScheduleUpdate == slot
    && if 0 < Seats(c.producers) && c.global.lastScheduleSize <= Seats(c.producers)
       then ProposesBest(c, d, reply)
       else ProposesNothing(c, d)
  }

  lemma OneProposal(journal: seq<Event>, e: Event)
    ensures Proposals(journal + [e]) == Proposals(journal) + if e.Proposed? then [e] else []
  {
    assert (journal + [e])[..|journal|] == journal;
  }

  lemma UpdateHoldsElection(c: Chain, slot: nat, reply: int)
    requires VotesNonNegative(c.producers)
    ensures HoldsElection(c, UpdateElectedProducers(c, slot, reply), slot, reply)
  {
    ScheduleIsBest(c.producers);
    Schedules.ElectionRecord(c, slot, reply);
    OneProposal(c.journal, Proposed(Schedule(c.producers), reply >= 0));
    UpdateNotesSlot(c, slot, reply);
  }

  lemma UpdateNotesSlot(c: Chain, slot: nat, reply: int)
    ensures UpdateElectedProducers(c, slot, reply).global.lastScheduleUpdate == slot
    ensures UpdateElectedProducers(c, slot, reply).global.lastBlockSlot == c.global.lastBlockSlot
  {
  }

  ghost predicate SameRoll(ps: map<Name, Producer>, qs: map<Name, Producer>)
  {
    qs.Keys == ps.Keys && forall n :: n in ps ==> Standing.SameRow(ps[n], qs[n])
  }

  lemma SameBest(ps: map<Name, Producer>, qs: map<Name, Producer>, schedule: seq<Entry>)
    requires SameRoll(ps, qs) && BestSchedule(qs, schedule)
    ensures BestSchedule(ps, schedule)
  {
    SameContenders(ps, qs);
    forall e, n | e in schedule && n in Contenders(ps) && !Elects(schedule, n) ensures Better(ps, e.producer, n) {
      assert Better(qs, e.producer, n);
      assert Standing.SameRow(ps[n], qs[n]) && Standing.SameRow(ps[e.producer], qs[e.producer]);
    }
    forall e | e in schedule ensures e.producer in Contenders(ps) && SignsAs(ps[e.producer], e.authority) {
      assert Standing.SameRow(ps[e.producer], qs[e.producer]);
    }
  }

  lemma SameContenders(ps: map<Name, Producer>, qs: map<Name, Producer>)
    requires SameRoll(ps, qs)
    ensures Contenders(qs) == Contenders(ps)
    ensures VotesNonNegative(ps) ==> VotesNonNegative(qs)
  {
    forall n | n in ps ensures qs[n].isActive == ps[n].isActive && qs[n].totalVotes == ps[n].totalVotes {
      assert Standing.SameRow(ps[n], qs[n]);
    }
  }

  lemma StandingHoldsElection(c: Chain, paid: Chain, d: Chain, slot: nat, reply: int)
    requires Standing.SameStanding(c, paid) && HoldsElection(paid, d, slot, reply)
    ensures HoldsElection(c, d, slot, reply)
  {
    StandingProposesNothing(c, paid);
    SameContenders(c.producers, paid.producers);
    if ProposesBest(paid, d, reply) {
      SameBest(c.producers, paid.producers, Proposals(d.journal)[|Proposals(c.journal)|].schedule);
    }
  }

  /**
   * A committed onblock more than 90 slots after the last schedule update always holds the election, at its
   * own slot, for the votes as they stood; at 90 slots or fewer it proposes nothing and the time stays.
   */
  lemma ElectionOutcome(c: Chain, auth: set<Name>, slot: nat, producer: Name, now: nat, reply: int)
    requires VotesNonNegative(c.producers) && OnBlock(c, auth, slot, producer, now, reply).Some?
    ensures
      var d := OnBlock(c, auth, slot, producer, now, reply).value;
      if (slot - c.global.lastScheduleUpdate) % 0x1_0000_0000 > 90
      then HoldsElection(c, d, slot, reply)
      else ProposesNothing(c, d) && d.global.lastScheduleUpdate == c.global.lastScheduleUpdate
  {
    Standing.SettledStanding(c, slot, producer, now);
    var paid := Settled(c, slot, producer, now).value;
    StandingProposesNothing(c, paid);
    if Sub32(slot, paid.global.lastScheduleUpdate) > 90 {
      SameContenders(c.producers, paid.producers);
      UpdateHoldsElection(paid, slot, reply);
      StandingHoldsElection(c, paid, UpdateElectedProducers(paid, slot, reply), slot, reply);
    }
  }

  // ---------------------------------------------------------------- any run

  /** The last block came at most 90 slots after the last election. */
  ghost predicate NotOverdue(c: Chain)
  {
    && c.global.lastScheduleUpdate <= c.global.lastBlockSlot <= c.headerSlot
    && c.global.lastBlockSlot <= c.global.lastScheduleUpdate + 90
  }

  lemma OnBlockNotOverdue(c: Chain, auth: set<Name>, slot: nat, producer: Name, now: nat, reply: int)
    requires VotesNonNegative(c.producers) && OnBlock(c, auth, slot, producer, now, reply).Some?
    requires NotOverdue(c) && c.headerSlot < slot < U32
    ensures NotOverdue(OnBlock(c, auth, slot, producer, now, reply).value.(headerSlot := slot))
  {
    ElectionOutcome(c, auth, slot, producer, now, reply);
    SettledSlot(c, slot, producer, now);
    UpdateNotesSlot(Settled(c, slot, producer, now).value, slot, reply);
    NoWrap(slot, c.global.lastScheduleUpdate);
  }

  lemma NoWrap(slot: nat, earlier: nat)
    requires earlier <= slot < U32
    ensures (slot - earlier) % 0x1_0000_0000 == slot - earlier
  {
  }

  lemma SettledSlot(c: Chain, slot: nat, producer: Name, now: nat)
    requires Settled(c, slot, producer, now).Some?
    ensures Settled(c, slot, producer, now).value.global.lastBlockSlot == slot
  {
    var counted := CountBlock(c, slot, producer, now);
    if now - counted.global.lastUpdatedReward > HOUR {
      PayAllSlot(counted, ProducerOrder(counted.producers), now);
    }
  }

  lemma {:induction false} PayAllSlot(c: Chain, names: seq<Name>, now: nat)
    requires (forall n :: n in names ==> n in c.producers) && PayAll(c, names, now).Some?
    ensures PayAll(c, names, now).value.global.lastBlockSlot == c.global.lastBlockSlot
  {
    if names != [] { PayAllSlot(c, names[..|names| - 1], now); }
  }

  lemma NextNotOverdue(c: Chain, a: Action)
    requires VotesNonNegative(c.producers) && NotOverdue(c) && Timed(c, a)
    ensures NotOverdue(Next(c, a))
  {
    if Effect(c, a).Some? {
      if a.DoOnBlock? {
        OnBlockNotOverdue(c, a.auth, a.slot, a.producer, a.now, a.reply);
      } else {
        OthersKeepSlots(c, a);
      }
    }
  }

  lemma OthersKeepSlots(c: Chain, a: Action)
    requires !a.DoOnBlock? && Effect(c, a).Some?
    ensures
      var d := Effect(c, a).value;
      && d.global.lastScheduleUpdate == c.global.lastScheduleUpdate && d.global.lastBlockSlot == c.global.lastBlockSlot
      && d.headerSlot == c.headerSlot
  {
    match a
    case DoRegProducer(auth, producer, key, urlSize) =>
    case DoRegProducer2(auth, producer, authority, urlSize) =>
    case DoUnregProd(auth, producer) =>
    case DoRmvProducer(auth, producer) =>
    case DoKickBp(auth, producer) =>
    case DoVoteProducer(auth, voter, producer, dangling) => Voting.UpdateFrame(c, voter, producer, true, dangling);
    case DoVOnStake(auth, staker) =>
      if staker in c.voters { Voting.UpdateFrame(c, staker, c.voters[staker].producer, false, 0); }
    case DoClaimRewards(auth, owner) =>
    case DoToken(auth, token) =>
    case DoPermission(auth, permission) =>
    case DoStakesChange(stakes) =>
    case DoAccountCreated(account) =>
  }

  /** On every run with increasing slots no block goes by with an election more than 90 slots overdue. */
  lemma {:induction false} NeverOverdue(c: Chain, actions: seq<Action>)
    requires Genesis(c) && AllTimed(c, actions)
    ensures NotOverdue(Run(c, actions))
  {
    if actions != [] {
      var before := actions[..|actions| - 1];
      TimedPrefix(c, actions);
      NeverOverdue(c, before);
      Tally.TallyOnEveryRun(c, before);
      Tally.ExactTalliesAreNonNegative(Run(c, before));
      NextNotOverdue(Run(c, before), actions[|actions| - 1]);
    }
  }

  lemma OnBlockElects(c: Chain, auth: set<Name>, slot: nat, producer: Name, now: nat, reply: int)
    requires VotesNonNegative(c.producers) && NotOverdue(c) && c.headerSlot < slot < U32
    requires OnBlock(c, auth, slot, producer, now, reply).Some?
    ensures Elections(c, OnBlock(c, auth, slot, producer, now, reply).value.(clock := now, headerSlot := slot), slot, reply)
  {
    ElectionOutcome(c, auth, slot, producer, now, reply);
    ClockChangesNothing(c, OnBlock(c, auth, slot, producer, now, reply).value, now, slot, reply);
  }

  lemma ClockChangesNothing(c: Chain, d: Chain, now: nat, slot: nat, reply: int)
    requires c.global.lastScheduleUpdate <= slot < U32
    requires
      if (slot - c.global.lastScheduleUpdate) % 0x1_0000_0000 > 90
      then HoldsElection(c, d, slot, reply)
      else ProposesNothing(c, d) && d.global.lastScheduleUpdate == c.global.lastScheduleUpdate
    ensures Elections(c, d.(clock := now, headerSlot := slot), slot, reply)
  {
  }

  /** An election exactly when the slot is more than 90 past the last one. */
  ghost predicate Elections(c: Chain, d: Chain, slot: nat, reply: int)
  {
    if slot > c.global.lastScheduleUpdate + 90
    then HoldsElection(c, d, slot, reply)
    else ProposesNothing(c, d) && d.global.lastScheduleUpdate == c.global.lastScheduleUpdate
  }

  lemma NextElects(c: Chain, a: Action)
    requires VotesNonNegative(c.producers) && NotOverdue(c) && Timed(c, a)
    requires a.DoOnBlock? && Effect(c, a).Some?
    ensures Elections(c, Next(c, a), a.slot, a.reply)
  {
    OnBlockElects(c, a.auth, a.slot, a.producer, a.now, a.reply);
  }

  /** On every run, a committed onblock holds the election exactly when its slot is more than 90 past the last. */
  lemma ElectionOnEveryRun(c: Chain, actions: seq<Action>)
    requires Genesis(c) && AllTimed(c, actions) && actions != []
    requires
      var last := actions[|actions| - 1];
      last.DoOnBlock? && Effect(Run(c, actions[..|actions| - 1]), last).Some?
    ensures
      var a := actions[|actions| - 1];
      Elections(Run(c, actions[..|actions| - 1]), Run(c, actions), a.slot, a.reply)
  {
    var before := actions[..|actions| - 1];
    TimedPrefix(c, actions);
    NeverOverdue(c, before);
    Tally.TallyOnEveryRun(c, before);
    Tally.ExactTalliesAreNonNegative(Run(c, before));
    NextElects(Run(c, before), actions[|actions| - 1]);
  }
}
