/** The schedule election: the early-exit scan of the vote index finds exactly the 21 best producers. */
module Election {
  import opened Base
  import opened State
  import opened Tables

  const SEATS: nat := 21

  predicate Qualifies(p: Producer)
  {
    0 < p.totalVotes && p.isActive
  }

  function VoteKeys(ps: map<Name, Producer>): map<nat, int>
  {
    map n | n in ps :: ps[n].ByVotes()
  }

  ghost function Qualified(ps: map<Name, Producer>): set<Name>
  {
    set n | n in ps && Qualifies(ps[n])
  }

  /** The qualified producers ranked before `n`. */
  ghost function Ahead(ps: map<Name, Producer>, n: Name): set<Name>
    requires n in ps
  {
    set m | m in Qualified(ps) && Precedes(VoteKeys(ps), m, n)
  }

  /** A producer is elected when it qualifies and fewer than 21 qualified producers rank before it. */
  ghost function Winners(ps: map<Name, Producer>): set<Name>
  {
    set n | n in Qualified(ps) && |Ahead(ps, n)| < SEATS
  }

  function InNameOrder(names: set<Name>): seq<Name>
  {
    Listing(map n | n in names :: 0)
  }

  function EntryOf(ps: map<Name, Producer>, n: Name): Entry
    requires n in ps
  {
    Entry(n, ps[n].SigningAuthority())
  }

  function Entries(ps: map<Name, Producer>, names: seq<Name>): (entries: seq<Entry>)
    requires forall n :: n in names ==> n in ps
    ensures |entries| == |names|
    ensures forall i :: 0 <= i < |names| ==> entries[i] == EntryOf(ps, names[i])
  {
    seq(|names|, i requires 0 <= i < |names| => EntryOf(ps, names[i]))
  }

  ghost function Schedule(ps: map<Name, Producer>): seq<Entry>
  {
    Entries(ps, InNameOrder(Winners(ps)))
  }

  ghost function UpdateElectedProducers(c: Chain, slot: nat, reply: int): (d: Chain)
    ensures d == c.(global := d.global, journal := d.journal)
  {
    var g := c.global.(lastScheduleUpdate := slot);
    var schedule := Schedule(c.producers);
    if |schedule| == 0 || |schedule| < g.lastScheduleSize then c.(global := g) else
    c.(global := if reply >= 0 then g.(lastScheduleSize := |schedule| % 0x1_0000) else g,
       journal := c.journal + [Proposed(schedule, reply >= 0)])
  }

  // ---------------------------------------------------------------- the scan

  ghost predicate VotesNonNegative(ps: map<Name, Producer>)
  {
    forall n :: n in ps ==> ps[n].totalVotes >= 0
  }

  function Names(s: seq<Name>): set<Name>
  {
    set n | n in s
  }

  lemma {:induction false} DistinctCount(keys: map<nat, int>, idx: seq<nat>, j: nat)
    requires IsListing(keys, idx) && j <= |idx|
    ensures |Names(idx[..j])| == j
  {
    if j > 0 {
      DistinctCount(keys, idx, j - 1);
      ListingDistinct(keys, idx, j - 1);
      assert Names(idx[..j]) == Names(idx[..j - 1]) + {idx[j - 1]};
    }
  }

  /** Rows behind one that does not qualify do not qualify either; this rests on votes not being negative. */
  lemma QualifiedRowsComeFirst(ps: map<Name, Producer>, idx: seq<Name>, i: nat, j: nat)
    requires VotesNonNegative(ps) && IsListing(VoteKeys(ps), idx)
    requires i < j < |idx| && idx[j] in ps && idx[i] in ps && Qualifies(ps[idx[j]])
    ensures Qualifies(ps[idx[i]])
  {
    assert Precedes(VoteKeys(ps), idx[i], idx[j]);
  }

  lemma AheadIsPrefix(ps: map<Name, Producer>, idx: seq<Name>, i: nat)
    requires VotesNonNegative(ps) && IsListing(VoteKeys(ps), idx)
    requires i < |idx| && idx[i] in ps && Qualifies(ps[idx[i]])
    ensures Ahead(ps, idx[i]) == Names(idx[..i]) && |Ahead(ps, idx[i])| == i
  {
    var keys := VoteKeys(ps);
    forall m ensures m in Ahead(ps, idx[i]) <==> m in idx[..i] {
      if m in Ahead(ps, idx[i]) {
        assert m in idx;
        var k :| 0 <= k < |idx| && idx[k] == m;
        assert k < i;
      }
      if m in idx[..i] {
        var k :| 0 <= k < i && idx[k] == m;
        assert idx[k] in idx;
        QualifiedRowsComeFirst(ps, idx, k, i);
        assert Precedes(keys, idx[k], idx[i]);
      }
    }
    DistinctCount(keys, idx, i);
  }

  /** Where the scan stops, it has collected the winners: nobody behind the stopping row is lost. */
  lemma ScanFindsWinners(ps: map<Name, Producer>, idx: seq<Name>, j: nat)
    requires VotesNonNegative(ps) && IsListing(VoteKeys(ps), idx)
    requires j <= |idx| && j <= SEATS
    requires forall i :: 0 <= i < j ==> idx[i] in ps && Qualifies(ps[idx[i]])
    requires j == |idx| || j == SEATS || (idx[j] in ps && !Qualifies(ps[idx[j]]))
    ensures Names(idx[..j]) == Winners(ps)
    ensures |Winners(ps)| == j
  {
    forall n ensures n in Winners(ps) <==> n in idx[..j] {
      if n in idx[..j] {
        var i :| 0 <= i < j && idx[i] == n;
        AheadIsPrefix(ps, idx, i);
      }
      if n in Winners(ps) {
        assert n in VoteKeys(ps);
        assert n in idx;
        var i :| 0 <= i < |idx| && idx[i] == n;
        AheadIsPrefix(ps, idx, i);
        if i > j { QualifiedRowsComeFirst(ps, idx, j, i); }
        assert i < j;
        assert idx[..j][i] == n;
      }
    }
    DistinctCount(VoteKeys(ps), idx, j);
  }

  /** min(21, n) of the n qualified producers are elected. */
  lemma WinnersCount(ps: map<Name, Producer>)
    requires VotesNonNegative(ps)
    ensures |Winners(ps)| == if |Qualified(ps)| < SEATS then |Qualified(ps)| else SEATS
  {
    var idx := Listing(VoteKeys(ps));
    assert forall i :: 0 <= i < |idx| ==> idx[i] in idx && idx[i] in ps;
    var q := 0;
    while q < |idx| && Qualifies(ps[idx[q]])
      invariant q <= |idx|
      invariant forall i :: 0 <= i < q ==> Qualifies(ps[idx[i]])
    {
      q := q + 1;
    }
    assert Names(idx[..q]) == Qualified(ps) by {
      forall n | n in Qualified(ps) ensures n in idx[..q] {
        assert n in VoteKeys(ps);
        assert n in idx;
        var i :| 0 <= i < |idx| && idx[i] == n;
        if i > q { QualifiedRowsComeFirst(ps, idx, q, i); }
        assert idx[..q][i] == n;
      }
      forall n | n in idx[..q] ensures n in Qualified(ps) {
        var i :| 0 <= i < q && idx[i] == n;
      }
    }
    DistinctCount(VoteKeys(ps), idx, q);
    ScanFindsWinners(ps, idx, if q < SEATS then q else SEATS);
  }

  /** Nobody left out has more votes than somebody elected; equal votes are decided by name. */
  lemma WinnersAreBest(ps: map<Name, Producer>, winner: Name, loser: Name)
    requires winner in Winners(ps) && loser in Qualified(ps) && loser !in Winners(ps)
    ensures ps[winner].totalVotes > ps[loser].totalVotes
            || (ps[winner].totalVotes == ps[loser].totalVotes && winner < loser)
  {
    var keys := VoteKeys(ps);
    if !Precedes(keys, winner, loser) {
      assert winner != loser && Precedes(keys, loser, winner);
      assert Ahead(ps, loser) <= Ahead(ps, winner);
      SubsetCount(Ahead(ps, loser), Ahead(ps, winner));
      assert false;
    }
  }

  lemma {:induction false} SubsetCount(a: set<Name>, b: set<Name>)
    requires a <= b
    ensures |a| <= |b|
  {
    assert b == a + (b - a);
  }

  /**
   * Without the non-negative premise the early exit does lose producers: an inactive row with
   * negative votes sorts before every active one that has fewer votes in absolute value.
   */
  lemma NegativeVotesHideWinners()
    ensures
      var bad := Producer(-5, 0, false, 0, 0, None);
      var good := Producer(3, 1, true, 0, 0, Some(KeyAuthority(1)));
      var ps: map<Name, Producer> := map[7 := bad, 8 := good];
      && IsListing(VoteKeys(ps), [7, 8])
      && !Qualifies(ps[7])
      && 8 in Winners(ps)
  {
    var bad := Producer(-5, 0, false, 0, 0, None);
    var good := Producer(3, 1, true, 0, 0, Some(KeyAuthority(1)));
    var ps: map<Name, Producer> := map[7 := bad, 8 := good];
    assert Ahead(ps, 8) == {};
  }

  // ---------------------------------------------------------------- the schedule

  ghost predicate NamesIncrease(schedule: seq<Entry>)
  {
    forall i, j :: 0 <= i < j < |schedule| ==> schedule[i].producer < schedule[j].producer
  }

  function InsertByName(s: seq<Entry>, e: Entry): (r: seq<Entry>)
    ensures multiset(r) == multiset(s) + multiset{e}
  {
    if s == [] || e.producer < s[0].producer then [e] + s else
    assert s == [s[0]] + s[1..];
    [s[0]] + InsertByName(s[1..], e)
  }

  /** The library sort of the elected entries by producer name. */
  function SortByName(s: seq<Entry>): (r: seq<Entry>)
    ensures multiset(r) == multiset(s)
  {
    if s == [] then [] else
    assert s == [s[0]] + s[1..];
    InsertByName(SortByName(s[1..]), s[0])
  }

  ghost predicate NamesDistinct(s: seq<Entry>)
  {
    forall i, j :: 0 <= i < j < |s| ==> s[i].producer != s[j].producer
  }

  lemma {:induction false} InsertKeepsOrder(s: seq<Entry>, e: Entry)
    requires NamesIncrease(s) && forall x :: x in s ==> x.producer != e.producer
    ensures NamesIncrease(InsertByName(s, e))
  {
    if s != [] && e.producer > s[0].producer {
      InsertKeepsOrder(s[1..], e);
      var r := InsertByName(s[1..], e);
      forall x | x in r ensures s[0].producer < x.producer {
        assert x in multiset(r);
        if x != e { assert x in s[1..]; }
      }
    }
  }

  lemma {:induction false} SortOrders(s: seq<Entry>)
    requires NamesDistinct(s)
    ensures NamesIncrease(SortByName(s))
  {
    if s != [] {
      SortOrders(s[1..]);
      var r := SortByName(s[1..]);
      forall x | x in r ensures x.producer != s[0].producer {
        assert x in multiset(r);
        assert x in s[1..];
      }
      InsertKeepsOrder(r, s[0]);
    }
  }

  lemma ScheduleFacts(ps: map<Name, Producer>)
    ensures NamesIncrease(Schedule(ps))
    ensures forall e :: e in Schedule(ps) <==> e.producer in Winners(ps) && e == EntryOf(ps, e.producer)
  {
    var ones: map<Name, int> := map n | n in Winners(ps) :: 0;
    var names := InNameOrder(Winners(ps));
    var schedule := Schedule(ps);
    assert IsListing(ones, names);
    forall i, j | 0 <= i < j < |schedule| ensures schedule[i].producer < schedule[j].producer {
      assert Precedes(ones, names[i], names[j]);
    }
    forall e ensures e in schedule <==> e.producer in Winners(ps) && e == EntryOf(ps, e.producer) {
      if e in schedule {
        var i :| 0 <= i < |schedule| && schedule[i] == e;
        assert names[i] in names;
      }
      if e.producer in Winners(ps) && e == EntryOf(ps, e.producer) {
        assert e.producer in names;
        var i :| 0 <= i < |names| && names[i] == e.producer;
        assert schedule[i] == e;
      }
    }
  }

  lemma ScheduleSize(ps: map<Name, Producer>)
    requires VotesNonNegative(ps)
    ensures |Schedule(ps)| == |Winners(ps)| <= SEATS
  {
    var ones: map<Name, int> := map n | n in Winners(ps) :: 0;
    var names := InNameOrder(Winners(ps));
    DistinctCount(ones, names, |names|);
    assert names[..|names|] == names;
    assert Names(names) == Winners(ps);
    WinnersCount(ps);
  }

  /** The schedule is the only strictly name-sorted list of the winners' entries. */
  lemma ScheduleUnique(ps: map<Name, Producer>, schedule: seq<Entry>)
    requires NamesIncrease(schedule)
    requires forall e :: e in schedule <==> e.producer in Winners(ps) && e == EntryOf(ps, e.producer)
    ensures schedule == Schedule(ps)
  {
    var ones: map<Name, int> := map n | n in Winners(ps) :: 0;
    var names := seq(|schedule|, i requires 0 <= i < |schedule| => schedule[i].producer);
    forall n ensures n in names <==> n in ones {
      if n in names {
        var i :| 0 <= i < |names| && names[i] == n;
        assert schedule[i] in schedule;
      }
      if n in ones {
        assert EntryOf(ps, n) in schedule;
        var i :| 0 <= i < |schedule| && schedule[i] == EntryOf(ps, n);
        assert names[i] == n;
      }
    }
    forall i, j | 0 <= i < j < |names| ensures names[i] in ones && names[j] in ones && Precedes(ones, names[i], names[j]) {
      assert names[i] in names && names[j] in names;
    }
    ListingUnique(ones, names);
    assert names == InNameOrder(Winners(ps));
    forall i | 0 <= i < |schedule| ensures schedule[i] == Schedule(ps)[i] {
      assert schedule[i] in schedule;
    }
  }
}
