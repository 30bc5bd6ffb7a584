/** The incremental vote tallies agree with the voters' recorded stakes in every reachable state. */
module Tally {
  import opened Base
  import opened Sums
  import opened State
  import opened Voting
  import opened Machine
  import ProducerPay
  import Standing
  import Election

  /** What each voter contributes to `n`. */
  ghost function Behind(voters: map<Name, Voter>, n: Name): map<Name, int>
  {
    map v | v in voters :: if voters[v].producer == n then voters[v].staked else 0
  }

  ghost function Recorded(voters: map<Name, Voter>): map<Name, int>
  {
    map v | v in voters :: voters[v].staked
  }

  ghost function Votes(ps: map<Name, Producer>): map<Name, int>
  {
    map n | n in ps :: ps[n].totalVotes
  }

  /** A registered producer's tally is the stake behind its name; no stake is behind any other name. */
  ghost predicate Backed(voters: map<Name, Voter>, ps: map<Name, Producer>, n: Name)
  {
    if n in ps then ps[n].totalVotes == Sum(Behind(voters, n)) else Sum(Behind(voters, n)) == 0
  }

  ghost predicate AllBacked(voters: map<Name, Voter>, ps: map<Name, Producer>)
  {
    forall n :: Backed(voters, ps, n)
  }

  ghost predicate Agree(voters: map<Name, Voter>, ps: map<Name, Producer>, weight: int)
  {
    && (forall v :: v in voters ==> voters[v].staked >= 0)
    && AllBacked(voters, ps)
    && weight == Sum(Recorded(voters)) == Sum(Votes(ps))
  }

  ghost predicate TallyExact(c: Chain)
  {
    Agree(c.voters, c.producers, c.global.totalVoteWeight)
  }

  /** The switch starts from what the voter's row says. */
  ghost predicate Starts(voters: map<Name, Voter>, voter: Name, s: Switch)
  {
    && s.now >= 0
    && if voter in voters then s.from == voters[voter].producer && s.before == voters[voter].staked else s.before == 0
  }

  lemma BehindAfter(voters: map<Name, Voter>, voter: Name, s: Switch, n: Name)
    requires Starts(voters, voter, s)
    ensures Sum(Behind(voters[voter := Voter(s.dest, s.now)], n)) == Sum(Behind(voters, n)) + s.Delta(n)
  {
    var value := if n == s.dest then s.now else 0;
    assert Behind(voters[voter := Voter(s.dest, s.now)], n) == Behind(voters, n)[voter := value];
    SumUpdate(Behind(voters, n), voter, value);
  }

  lemma BehindNonNegative(voters: map<Name, Voter>, n: Name)
    requires forall v :: v in voters ==> voters[v].staked >= 0
    ensures Sum(Behind(voters, n)) >= 0
  {
    SumNonNegative(Behind(voters, n));
  }

  lemma ModifiedWeight(ps: map<Name, Producer>, q: Name, delta: int)
    requires q in ps ==> ps[q].totalVotes + delta >= 0
    ensures Sum(Votes(Modified(ps, q, delta))) == Sum(Votes(ps)) + if q in ps then delta else 0
  {
    if q in ps {
      assert Votes(Modified(ps, q, delta)) == Votes(ps)[q := ps[q].totalVotes + delta];
      SumUpdate(Votes(ps), q, ps[q].totalVotes + delta);
    }
  }

  lemma TalliedWeight(ps: map<Name, Producer>, s: Switch)
    requires s.from in ps ==> ps[s.from].totalVotes + s.Delta(s.from) >= 0
    requires s.dest in ps ==> ps[s.dest].totalVotes + s.Delta(s.dest) >= 0
    ensures Sum(Votes(Tallied(ps, s))) == Sum(Votes(ps)) + WeightChange(ps, s)
  {
    TalliedStepwise(ps, s);
    ModifiedWeight(ps, s.dest, s.Delta(s.dest));
    if s.from != s.dest {
      ModifiedWeight(Modified(ps, s.dest, s.Delta(s.dest)), s.from, s.Delta(s.from));
    }
  }

  lemma SwitchKeepsRow(voters: map<Name, Voter>, ps: map<Name, Producer>, voter: Name, s: Switch, n: Name)
    requires Starts(voters, voter, s) && forall v :: v in voters ==> voters[v].staked >= 0
    requires Backed(voters, ps, n)
    requires s.from !in ps ==> s.Delta(s.from) == 0
    requires s.dest !in ps ==> s.Delta(s.dest) == 0
    ensures Backed(voters[voter := Voter(s.dest, s.now)], Tallied(ps, s), n)
    ensures n in ps ==> Tallied(ps, s)[n].totalVotes == ps[n].totalVotes + s.Delta(n) >= 0
  {
    BehindAfter(voters, voter, s, n);
    BehindNonNegative(voters[voter := Voter(s.dest, s.now)], n);
  }

  lemma SwitchKeepsWeight(voters: map<Name, Voter>, ps: map<Name, Producer>, voter: Name, s: Switch)
    requires Starts(voters, voter, s)
    requires s.from in ps ==> ps[s.from].totalVotes + s.Delta(s.from) >= 0
    requires s.dest in ps ==> ps[s.dest].totalVotes + s.Delta(s.dest) >= 0
    requires s.from !in ps ==> s.Delta(s.from) == 0
    requires s.dest !in ps ==> s.Delta(s.dest) == 0
    ensures Sum(Votes(Tallied(ps, s))) == Sum(Votes(ps)) + WeightChange(ps, s)
    ensures Sum(Recorded(voters[voter := Voter(s.dest, s.now)])) == Sum(Recorded(voters)) + WeightChange(ps, s)
  {
    TalliedWeight(ps, s);
    assert Recorded(voters[voter := Voter(s.dest, s.now)]) == Recorded(voters)[voter := s.now];
    SumUpdate(Recorded(voters), voter, s.now);
  }

  lemma SwitchKeepsRows(voters: map<Name, Voter>, ps: map<Name, Producer>, voter: Name, s: Switch)
    requires Starts(voters, voter, s)
    requires (forall v :: v in voters ==> voters[v].staked >= 0) && AllBacked(voters, ps)
    requires s.from !in ps ==> s.Delta(s.from) == 0
    requires s.dest !in ps ==> s.Delta(s.dest) == 0
    ensures AllBacked(voters[voter := Voter(s.dest, s.now)], Tallied(ps, s))
    ensures forall n :: n in ps ==> Tallied(ps, s)[n].totalVotes == ps[n].totalVotes + s.Delta(n) >= 0
  {
    var voters', ps' := voters[voter := Voter(s.dest, s.now)], Tallied(ps, s);
    forall n
      ensures Backed(voters', ps', n)
      ensures n in ps ==> ps'[n].totalVotes == ps[n].totalVotes + s.Delta(n) >= 0
    {
      SwitchKeepsRow(voters, ps, voter, s, n);
    }
  }

  lemma SwitchKeepsAgreement(voters: map<Name, Voter>, ps: map<Name, Producer>, weight: int, voter: Name, s: Switch)
    requires Agree(voters, ps, weight) && Starts(voters, voter, s)
    requires s.from !in ps ==> s.Delta(s.from) == 0
    requires s.dest !in ps ==> s.Delta(s.dest) == 0
    ensures Agree(voters[voter := Voter(s.dest, s.now)], Tallied(ps, s), weight + WeightChange(ps, s))
    ensures forall n :: n in ps ==> Tallied(ps, s)[n].totalVotes == ps[n].totalVotes + s.Delta(n)
  {
    SwitchKeepsRows(voters, ps, voter, s);
    SwitchKeepsWeight(voters, ps, voter, s);
  }

  /** A vote or stake refresh keeps the tallies exact, and its clamp to zero never fires. */
  lemma UpdateKeepsTally(c: Chain, voter: Name, producer: Name, voting: bool, dangling: Name)
    requires TallyExact(c) && UpdateVotes(c, voter, producer, voting, dangling).Some?
    ensures TallyExact(UpdateVotes(c, voter, producer, voting, dangling).value)
    ensures
      var s := SwitchOf(c, voter, producer, dangling);
      s.now >= 0 ==> forall n :: n in c.producers ==>
        Tallied(c.producers, s)[n].totalVotes == c.producers[n].totalVotes + s.Delta(n)
  {
    var s := SwitchOf(c, voter, producer, dangling);
    if s.now >= 0 {
      SwitchKeepsAgreement(c.voters, c.producers, c.global.totalVoteWeight, voter, s);
    }
  }

  lemma RowKeepsAgreement(voters: map<Name, Voter>, ps: map<Name, Producer>, weight: int, n: Name, row: Producer)
    requires Agree(voters, ps, weight)
    requires row.totalVotes == if n in ps then ps[n].totalVotes else 0
    ensures Agree(voters, ps[n := row], weight)
  {
    RowKeepsWeight(ps, n, row);
    var after := ps[n := row];
    forall m ensures Backed(voters, after, m) {
      assert Backed(voters, ps, m);
    }
  }

  lemma RowKeepsWeight(ps: map<Name, Producer>, n: Name, row: Producer)
    requires row.totalVotes == if n in ps then ps[n].totalVotes else 0
    ensures Sum(Votes(ps[n := row])) == Sum(Votes(ps))
  {
    assert Votes(ps[n := row]) == Votes(ps)[n := row.totalVotes];
    SumUpdate(Votes(ps), n, row.totalVotes);
  }

  lemma RegisterKeepsTally(c: Chain, producer: Name, authority: Authority)
    requires TallyExact(c)
    ensures TallyExact(RegisterProducer(c, producer, authority))
  {
    var d := RegisterProducer(c, producer, authority);
    RowKeepsAgreement(c.voters, c.producers, c.global.totalVoteWeight, producer, d.producers[producer]);
  }

  ghost predicate SameVotes(c: Chain, d: Chain)
  {
    && d.producers.Keys == c.producers.Keys && d.voters == c.voters
    && (forall n :: n in c.producers ==> d.producers[n].totalVotes == c.producers[n].totalVotes)
    && d.global.totalVoteWeight == c.global.totalVoteWeight
  }

  lemma SameVotesKeepTally(c: Chain, d: Chain)
    requires TallyExact(c) && SameVotes(c, d)
    ensures TallyExact(d)
  {
    assert Votes(d.producers) == Votes(c.producers);
    forall m ensures Backed(d.voters, d.producers, m) {
      assert Backed(c.voters, c.producers, m);
    }
  }

  lemma StandingKeepsTally(c: Chain, d: Chain)
    requires TallyExact(c) && Standing.SameStanding(c, d)
    ensures TallyExact(d)
  {
    forall n | n in c.producers ensures d.producers[n].totalVotes == c.producers[n].totalVotes {
      assert Standing.SameRow(c.producers[n], d.producers[n]);
    }
    SameVotesKeepTally(c, d);
  }

  lemma OnBlockKeepsTally(c: Chain, auth: set<Name>, slot: nat, producer: Name, now: nat, reply: int)
    requires TallyExact(c) && ProducerPay.OnBlock(c, auth, slot, producer, now, reply).Some?
    ensures TallyExact(ProducerPay.OnBlock(c, auth, slot, producer, now, reply).value)
  {
    Standing.SettledStanding(c, slot, producer, now);
    StandingKeepsTally(c, ProducerPay.Settled(c, slot, producer, now).value);
  }

  lemma NextKeepsTally(c: Chain, a: Action)
    requires TallyExact(c)
    ensures TallyExact(Next(c, a))
  {
    if Effect(c, a).Some? {
      match a
      case DoRegProducer(auth, producer, key, urlSize) => RegisterKeepsTally(c, producer, KeyAuthority(key));
      case DoRegProducer2(auth, producer, authority, urlSize) => RegisterKeepsTally(c, producer, authority);
      case DoVoteProducer(auth, voter, producer, dangling) => UpdateKeepsTally(c, voter, producer, true, dangling);
      case DoVOnStake(auth, staker) =>
        if staker in c.voters { UpdateKeepsTally(c, staker, c.voters[staker].producer, false, 0); }
      case DoOnBlock(auth, slot, producer, now, reply) => OnBlockKeepsTally(c, auth, slot, producer, now, reply);
      case _ =>
        OthersKeepVotes(c, a);
        SameVotesKeepTally(c, Effect(c, a).value);
    }
  }

  lemma OthersKeepVotes(c: Chain, a: Action)
    requires !a.DoRegProducer? && !a.DoRegProducer2? && !a.DoVoteProducer? && !a.DoVOnStake? && !a.DoOnBlock?
    requires Effect(c, a).Some?
    ensures SameVotes(c, Effect(c, a).value)
  {
    match a
    case DoUnregProd(auth, producer) =>
    case DoRmvProducer(auth, producer) =>
    case DoKickBp(auth, producer) =>
    case DoClaimRewards(auth, owner) =>
    case DoToken(auth, token) =>
    case DoPermission(auth, permission) =>
    case DoStakesChange(stakes) =>
    case DoAccountCreated(account) =>
  }

  /** In every reachable state each tally is the sum of the stakes behind it, and the weight their total. */
  lemma {:induction false} TallyOnEveryRun(c: Chain, actions: seq<Action>)
    requires Genesis(c)
    ensures TallyExact(Run(c, actions))
  {
    if actions == [] {
      assert forall n :: Behind(c.voters, n) == map[];
      assert Recorded(c.voters) == map[] && Votes(c.producers) == map[];
    } else {
      TallyOnEveryRun(c, actions[..|actions| - 1]);
      NextKeepsTally(Run(c, actions[..|actions| - 1]), actions[|actions| - 1]);
    }
  }

  lemma ExactTalliesAreNonNegative(c: Chain)
    requires TallyExact(c)
    ensures Election.VotesNonNegative(c.producers)
  {
    forall n | n in c.producers ensures c.producers[n].totalVotes >= 0 {
      assert Backed(c.voters, c.producers, n);
      BehindNonNegative(c.voters, n);
    }
  }

  /** Vote arithmetic stays where doubles are exact, when recorded stakes total at most 2^52. */
  lemma VotesStayExactDoubles(c: Chain, n: Name)
    requires TallyExact(c) && Sum(Recorded(c.voters)) <= EXACT
    requires n in c.producers
    ensures 0 <= c.producers[n].totalVotes <= c.global.totalVoteWeight <= EXACT
  {
    ExactTalliesAreNonNegative(c);
    SumAtLeastRow(Votes(c.producers), n);
  }

  /** The name read through the end iterator never reaches the tables: it can only abort a first vote. */
  lemma FirstVoteIgnoresDanglingName(c: Chain, voter: Name, producer: Name, dangling: Name)
    requires TallyExact(c) && voter !in c.voters
    ensures
      var r := UpdateVotes(c, voter, producer, true, dangling);
      var clean := UpdateVotes(c, voter, producer, true, producer);
      && (r.Some? <==> clean.Some? && (dangling in c.producers ==> c.producers[dangling].isActive))
      && (r.Some? ==> r.value == clean.value)
  {
    ExactTalliesAreNonNegative(c);
    var s := SwitchOf(c, voter, producer, dangling);
    var t := SwitchOf(c, voter, producer, producer);
    DanglingSwitch(c.producers, s, t);
  }

  lemma DanglingSwitch(ps: map<Name, Producer>, s: Switch, t: Switch)
    requires Election.VotesNonNegative(ps)
    requires s.before == t.before == 0 && s.now == t.now && s.dest == t.dest == t.from
    ensures Tallied(ps, s) == Tallied(ps, t) && WeightChange(ps, s) == WeightChange(ps, t)
    ensures forall q :: s.Delta(q) == t.Delta(q)
  {
  }

  /**
   * When a voter with a row may vote again. The producer it leaves must be active too: a voter whose
   * producer was deactivated cannot move its vote anywhere.
   */
  lemma VoteOutcome(c: Chain, auth: set<Name>, voter: Name, producer: Name, dangling: Name)
    requires TallyExact(c) && voter in c.voters
    ensures
      var current := c.voters[voter].producer;
      VoteProducer(c, auth, voter, producer, dangling).Some? <==>
        && voter in auth && HasStake(c.stakes, voter)
        && (current in c.producers ==> c.producers[current].isActive)
        && (if producer in c.producers then c.producers[producer].isActive else Sum(InProgress(c.stakes, voter)) == 0)
  {
    var current := c.voters[voter].producer;
    SumNonNegative(InProgress(c.stakes, voter));
    assert Backed(c.voters, c.producers, current);
    SumAtLeastRow(Behind(c.voters, current), voter);
  }

  const EXACT: int := 0x10_0000_0000_0000   // 2^52

  lemma StakesWithinTotal(voters: map<Name, Voter>, voter: Name, s: Switch)
    requires Starts(voters, voter, s) && forall v :: v in voters ==> voters[v].staked >= 0
    ensures 0 <= s.before <= Sum(Recorded(voters)) && 0 <= s.now <= Sum(Recorded(voters[voter := Voter(s.dest, s.now)]))
  {
    var after := voters[voter := Voter(s.dest, s.now)];
    SumNonNegative(Recorded(voters));
    if voter in voters { SumAtLeastRow(Recorded(voters), voter); }
    SumAtLeastRow(Recorded(after), voter);
  }

  /** Every sum the update computes on the way stays within 2^53, where doubles add integers exactly. */
  lemma EveryStepExact(c: Chain, voter: Name, producer: Name, voting: bool, dangling: Name, q: Name)
    requires TallyExact(c) && UpdateVotes(c, voter, producer, voting, dangling).Some?
    requires Sum(Recorded(c.voters)) <= EXACT
    requires Sum(Recorded(UpdateVotes(c, voter, producer, voting, dangling).value.voters)) <= EXACT
    ensures
      var s := SwitchOf(c, voter, producer, dangling);
      s.now >= 0 ==>
        && -EXACT <= s.Delta(q) <= EXACT
        && -EXACT <= c.global.totalVoteWeight + s.Delta(q) <= 2 * EXACT
        && (q in c.producers ==> 0 <= c.producers[q].totalVotes + s.Delta(q) <= 2 * EXACT)
  {
    var s := SwitchOf(c, voter, producer, dangling);
    if s.now >= 0 {
      StakesWithinTotal(c.voters, voter, s);
      SwitchKeepsAgreement(c.voters, c.producers, c.global.totalVoteWeight, voter, s);
      SwitchKeepsRows(c.voters, c.producers, voter, s);
      SumNonNegative(Recorded(c.voters));
      if q in c.producers { VotesStayExactDoubles(c, q); }
    }
  }

  /** When an update records a stake, it is the stake the table shows for that voter. */
  lemma UpdateRecordsStake(c: Chain, voter: Name, producer: Name, voting: bool, dangling: Name)
    requires UpdateVotes(c, voter, producer, voting, dangling).Some?
    ensures
      var d := UpdateVotes(c, voter, producer, voting, dangling).value;
      if HasStake(c.stakes, voter)
      then d.voters == c.voters[voter := Voter(producer, Sum(InProgress(c.stakes, voter)))]
      else !voting && d == c
  {
    SumNonNegative(InProgress(c.stakes, voter));
  }
}
