/** What votes and stake refreshes commit, and the exact amounts they move. */
module VoteLaw {
  import opened Base
  import opened Sums
  import opened State
  import opened Voting
  import opened Tally

  // ---------------------------------------------------------------- the stake behind an account

  /** An empty stake table puts nothing behind anybody. */
  lemma NoStake(acc: Name)
    ensures Staked(map[], acc) == -1
  {
  }

  /** A new row counts for its own account only, and its amount only in status 1. */
  lemma StakeRowCounts(stakes: map<nat, Stake>, i: nat, row: Stake, acc: Name)
    requires i !in stakes
    ensures Staked(stakes[i := row], acc) ==
            if row.account != acc then Staked(stakes, acc)
            else (if HasStake(stakes, acc) then Staked(stakes, acc) else 0) + if row.status == 1 then row.amount else 0
  {
    var amount := if row.account == acc && row.status == 1 then row.amount else 0;
    assert InProgress(stakes[i := row], acc) == InProgress(stakes, acc)[i := amount];
    SumUpdate(InProgress(stakes, acc), i, amount);
    StakeRowSeen(stakes, i, row, acc);
    if !HasStake(stakes, acc) { SumOfZeros(InProgress(stakes, acc)); }
  }

  lemma StakeRowSeen(stakes: map<nat, Stake>, i: nat, row: Stake, acc: Name)
    requires i !in stakes
    ensures HasStake(stakes[i := row], acc) <==> HasStake(stakes, acc) || row.account == acc
  {
    var after := stakes[i := row];
    if HasStake(stakes, acc) {
      var j :| j in stakes && stakes[j].account == acc;
      assert j in after && after[j].account == acc;
    }
    if row.account == acc { assert i in after && after[i].account == acc; }
  }

  // ---------------------------------------------------------------- what an update moves

  /** What the voter's row puts behind `n`. */
  function Given(voters: map<Name, Voter>, voter: Name, n: Name): int
  {
    if voter in voters && voters[voter].producer == n then voters[voter].staked else 0
  }

  /** The voter's whole stake is now behind `producer`, none of it behind anybody else, and no other table changed. */
  ghost predicate MovesVotes(c: Chain, d: Chain, voter: Name, producer: Name, now: int)
  {
    && OnlyVotes(c, d)
    && d.voters == c.voters[voter := Voter(producer, now)]
    && (forall n :: n in c.producers ==>
         d.producers[n].totalVotes ==
         c.producers[n].totalVotes - Given(c.voters, voter, n) + if n == producer then now else 0)
    && d.global.totalVoteWeight ==
       c.global.totalVoteWeight - (if voter in c.voters then c.voters[voter].staked else 0) + now
  }

  lemma UpdateMoves(c: Chain, voter: Name, producer: Name, voting: bool, dangling: Name)
    requires TallyExact(c) && UpdateVotes(c, voter, producer, voting, dangling).Some? && HasStake(c.stakes, voter)
    ensures MovesVotes(c, UpdateVotes(c, voter, producer, voting, dangling).value, voter, producer, Staked(c.stakes, voter))
  {
    var d := UpdateVotes(c, voter, producer, voting, dangling).value;
    UpdateFrame(c, voter, producer, voting, dangling);
    UpdateKeepsTally(c, voter, producer, voting, dangling);
    UpdateRecordsStake(c, voter, producer, voting, dangling);
    SumNonNegative(InProgress(c.stakes, voter));
    WeightMoves(c, d, voter, producer, Staked(c.stakes, voter));
  }

  lemma WeightMoves(c: Chain, d: Chain, voter: Name, producer: Name, now: int)
    requires TallyExact(c) && TallyExact(d) && d.voters == c.voters[voter := Voter(producer, now)]
    ensures d.global.totalVoteWeight ==
            c.global.totalVoteWeight - (if voter in c.voters then c.voters[voter].staked else 0) + now
  {
    assert Tally.Recorded(d.voters) == Tally.Recorded(c.voters)[voter := now];
    SumUpdate(Tally.Recorded(c.voters), voter, now);
  }

  /** A producer that can take votes: active, or unregistered if there are none to take. */
  ghost predicate CanTake(c: Chain, producer: Name, votes: int)
  {
    if producer in c.producers then c.producers[producer].isActive else votes == 0
  }

  /** A vote moves the whole stake from the producer named before to the one named now. */
  lemma VoteMoves(c: Chain, auth: set<Name>, voter: Name, producer: Name, dangling: Name)
    requires TallyExact(c) && VoteProducer(c, auth, voter, producer, dangling).Some?
    ensures MovesVotes(c, VoteProducer(c, auth, voter, producer, dangling).value, voter, producer, Staked(c.stakes, voter))
  {
    UpdateMoves(c, voter, producer, true, dangling);
  }

  /** When a first vote commits; the only trace of the name read past the table's end is an extra refusal. */
  lemma FirstVoteOutcome(c: Chain, auth: set<Name>, voter: Name, producer: Name, dangling: Name)
    requires TallyExact(c) && voter !in c.voters
    ensures VoteProducer(c, auth, voter, producer, dangling).Some? <==>
            && voter in auth && HasStake(c.stakes, voter) && CanTake(c, producer, Staked(c.stakes, voter))
            && (dangling in c.producers ==> c.producers[dangling].isActive)
  {
    SumNonNegative(InProgress(c.stakes, voter));
  }

  /**
   * A stake change of a known voter with stake rows always reaches its tally, active producer or not; it is
   * refused only when votes would go to a name that is not registered. Otherwise nothing changes.
   */
  lemma VOnStakeOutcome(c: Chain, auth: set<Name>, staker: Name)
    requires TallyExact(c)
    ensures
      var refreshes := staker in c.voters && HasStake(c.stakes, staker);
      && (VOnStake(c, auth, staker).Some? <==>
          && STAKE_LIBRE in auth
          && (refreshes ==> c.voters[staker].producer in c.producers || Staked(c.stakes, staker) == 0))
      && (VOnStake(c, auth, staker).Some? ==>
          if refreshes
          then MovesVotes(c, VOnStake(c, auth, staker).value, staker, c.voters[staker].producer, Staked(c.stakes, staker))
          else VOnStake(c, auth, staker).value == c)
  {
    if staker in c.voters {
      var current := c.voters[staker].producer;
      SumNonNegative(InProgress(c.stakes, staker));
      assert Backed(c.voters, c.producers, current);
      SumAtLeastRow(Behind(c.voters, current), staker);
      if HasStake(c.stakes, staker) && VOnStake(c, auth, staker).Some? { UpdateMoves(c, staker, current, false, 0); }
    }
  }
}
