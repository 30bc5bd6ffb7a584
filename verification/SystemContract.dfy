/** libre.system: the contract object, its tables and global state updated in place. */
module SystemContract {
  import opened Base
  import opened State
  import opened TokenContract
  import opened PermissionContract
  import opened Sums
  import L = Ledger
  import P = Permissions
  import Tables
  import Voting
  import Election
  import ProducerPay
  import Standing

  // ---------------------------------------------------------------- the stake index

  /** First position in the account index whose account is not below `acc`. */
  method LowerBound(stakes: map<nat, Stake>, index: seq<nat>, acc: Name) returns (i: nat)
    requires index == AccountIndex(stakes)
    ensures i <= |index|
    ensures forall j :: 0 <= j < |index| ==> index[j] in stakes && (j < i <==> stakes[index[j]].account < acc)
  {
    ghost var keys: map<nat, int> := map r | r in stakes :: stakes[r].account;
    assert forall j :: 0 <= j < |index| ==> index[j] in index && index[j] in keys;
    i := 0;
    while i < |index| && stakes[index[i]].account < acc
      invariant i <= |index|
      invariant forall j :: 0 <= j < i ==> stakes[index[j]].account < acc
    {
      i := i + 1;
    }
    forall j | i <= j < |index| ensures stakes[index[j]].account >= acc {
      if i < j { assert Tables.Precedes(keys, index[i], index[j]); }
    }
  }

  /** What a scan of the given rows adds up for the account. */
  function Scanned(stakes: map<nat, Stake>, rows: seq<nat>, acc: Name): nat
    requires forall r :: r in rows ==> r in stakes
  {
    if rows == [] then 0 else
    Scanned(stakes, rows[..|rows| - 1], acc) + Voting.InProgressAmount(stakes[rows[|rows| - 1]], acc)
  }

  ghost function Visited(stakes: map<nat, Stake>, rows: set<nat>, acc: Name): map<nat, int>
  {
    map r | r in stakes :: if r in rows then Voting.InProgressAmount(stakes[r], acc) else 0
  }

  lemma VisitOneMore(stakes: map<nat, Stake>, rows: set<nat>, r: nat, acc: Name)
    requires r in stakes && r !in rows
    ensures Sum(Visited(stakes, rows + {r}, acc))
            == Sum(Visited(stakes, rows, acc)) + Voting.InProgressAmount(stakes[r], acc)
  {
    var amount := Voting.InProgressAmount(stakes[r], acc);
    assert Visited(stakes, rows + {r}, acc) == Visited(stakes, rows, acc)[r := amount];
    SumUpdate(Visited(stakes, rows, acc), r, amount);
  }

  /** Scanning distinct rows one by one gives the sum over those rows of the table. */
  lemma {:induction false} ScannedIsSum(stakes: map<nat, Stake>, rows: seq<nat>, acc: Name)
    requires forall r :: r in rows ==> r in stakes
    requires forall i, j :: 0 <= i < j < |rows| ==> rows[i] != rows[j]
    ensures Scanned(stakes, rows, acc) == Sum(Visited(stakes, Election.Names(rows), acc))
  {
    if rows == [] {
      SumOfZeros(Visited(stakes, Election.Names(rows), acc));
    } else {
      var init, r := rows[..|rows| - 1], rows[|rows| - 1];
      ScannedIsSum(stakes, init, acc);
      VisitOneMore(stakes, Election.Names(init), r, acc);
      assert Election.Names(rows) == Election.Names(init) + {r};
    }
  }

  lemma InRangeIffOwned(stakes: map<nat, Stake>, index: seq<nat>, first: nat, end: nat, acc: Name, r: nat)
    requires index == AccountIndex(stakes) && Stretch(stakes, index, first, end, acc) && r in stakes
    ensures r in index[first..end] <==> stakes[r].account == acc
  {
    assert r in (map i | i in stakes :: stakes[i].account);
    assert r in index;
    var j :| 0 <= j < |index| && index[j] == r;
    if stakes[r].account == acc { assert index[first..end][j - first] == r; }
    if r in index[first..end] {
      var k :| 0 <= k < end - first && index[first..end][k] == r;
      assert index[first + k] == r;
    }
  }

  lemma StretchRows(stakes: map<nat, Stake>, index: seq<nat>, first: nat, end: nat, acc: Name)
    requires index == AccountIndex(stakes) && Stretch(stakes, index, first, end, acc)
    ensures forall i, j :: first <= i < j < end ==> index[i] != index[j]
    ensures Visited(stakes, Election.Names(index[first..end]), acc) == Voting.InProgress(stakes, acc)
  {
    forall i, j | first <= i < j < end ensures index[i] != index[j] {
      assert Tables.Precedes(map r | r in stakes :: stakes[r].account, index[i], index[j]);
    }
    forall r | r in stakes
      ensures r in Election.Names(index[first..end]) <==> stakes[r].account == acc
    {
      InRangeIffOwned(stakes, index, first, end, acc, r);
    }
  }

  /** The account's stretch of the index holds all its rows: the scan is the sum over the whole table. */
  lemma StretchTotal(stakes: map<nat, Stake>, index: seq<nat>, first: nat, end: nat, acc: Name)
    requires index == AccountIndex(stakes) && Stretch(stakes, index, first, end, acc)
    requires forall r :: r in index[first..end] ==> r in stakes
    ensures Voting.Staked(stakes, acc) == if first < end then Scanned(stakes, index[first..end], acc) else -1
  {
    StretchRows(stakes, index, first, end, acc);
    ScannedIsSum(stakes, index[first..end], acc);
    if first < end { assert stakes[index[first]].account == acc; }
    if Voting.HasStake(stakes, acc) {
      var r :| r in stakes && stakes[r].account == acc;
      InRangeIffOwned(stakes, index, first, end, acc, r);
    }
  }

  /** The loop between the two bounds of the index. */
  method ScanStretch(stakes: map<nat, Stake>, index: seq<nat>, first: nat, end: nat, acc: Name)
    returns (total: int, exist: bool)
    requires first <= end <= |index| && forall r :: r in index ==> r in stakes
    requires forall j :: first <= j < end ==> stakes[index[j]].account == acc
    ensures exist <==> first < end
    ensures total == Scanned(stakes, index[first..end], acc)
  {
    total, exist := 0, false;
    var itr := first;
    while itr != end
      invariant first <= itr <= end
      invariant total == Scanned(stakes, index[first..itr], acc)
      invariant exist <==> first < itr
      decreases end - itr
    {
      var row := stakes[index[itr]];
      exist := exist || row.account == acc;
      if row.account == acc && row.status == STAKE_IN_PROGRESS {
        total := total + row.amount;
      }
      assert index[first..itr + 1][..itr - first] == index[first..itr];
      itr := itr + 1;
    }
  }

  /** Scans the account's stretch of the account index: -1 when it is empty. */
  method GetStaked(stakes: map<nat, Stake>, acc: Name) returns (r: int)
    ensures r == Voting.Staked(stakes, acc)
  {
    var index := AccountIndex(stakes);
    var first := LowerBound(stakes, index, acc);
    var end := LowerBound(stakes, index, acc + 1);
    OneStretch(stakes, index, first, end, acc);
    IndexRows(stakes);
    var total, exist := ScanStretch(stakes, index, first, end, acc);
    StretchTotal(stakes, index, first, end, acc);
    return if exist then total else -1;
  }

  lemma IndexRows(stakes: map<nat, Stake>)
    ensures forall r :: r in AccountIndex(stakes) ==> r in stakes
  {
    var keys: map<nat, int> := map r | r in stakes :: stakes[r].account;
    assert Tables.IsListing(keys, Tables.Listing(keys));
  }

  /** The account index of the stake table. */
  function AccountIndex(stakes: map<nat, Stake>): seq<nat>
  {
    Tables.Listing(map r | r in stakes :: stakes[r].account)
  }

  ghost predicate Stretch(stakes: map<nat, Stake>, index: seq<nat>, first: nat, end: nat, acc: Name)
  {
    && first <= end <= |index|
    && forall j :: 0 <= j < |index| ==> index[j] in stakes && (first <= j < end <==> stakes[index[j]].account == acc)
  }

  lemma OneStretch(stakes: map<nat, Stake>, index: seq<nat>, first: nat, end: nat, acc: Name)
    requires first <= |index| && end <= |index|
    requires forall j :: 0 <= j < |index| ==> index[j] in stakes && (j < first <==> stakes[index[j]].account < acc)
    requires forall j :: 0 <= j < |index| ==> index[j] in stakes && (j < end <==> stakes[index[j]].account < acc + 1)
    ensures Stretch(stakes, index, first, end, acc)
  {
    assert end < |index| ==> index[end] in stakes;
  }

  // ---------------------------------------------------------------- the delta loop

  /** The producer rows after the loop has handled the names in `done`. */
  ghost function TalliedSoFar(ps: map<Name, Producer>, s: Voting.Switch, done: set<Name>): map<Name, Producer>
  {
    map q | q in ps :: if q in done then Voting.Retally(ps[q], s.Delta(q)) else ps[q]
  }

  ghost function WeightSoFar(ps: map<Name, Producer>, s: Voting.Switch, done: set<Name>): int
  {
    (if s.from in ps && s.from in done then s.Delta(s.from) else 0)
    + (if s.dest in ps && s.dest in done && s.dest != s.from then s.Delta(s.dest) else 0)
  }

  /** Rows and weight after the names in `done`, all of them accepted. */
  ghost predicate Progress(ps: map<Name, Producer>, s: Voting.Switch, voting: bool, done: set<Name>,
                           now: map<Name, Producer>, gained: int)
  {
    && now == TalliedSoFar(ps, s, done)
    && gained == WeightSoFar(ps, s, done)
    && forall q :: q in done ==> Voting.Accepts(ps, s, voting, q)
  }

  lemma NoProgress(ps: map<Name, Producer>, s: Voting.Switch, voting: bool)
    ensures Progress(ps, s, voting, {}, ps, 0)
  {
  }

  lemma LoopRound(ps: map<Name, Producer>, s: Voting.Switch, voting: bool, done: set<Name>,
                  now: map<Name, Producer>, gained: int, q: Name)
    requires Progress(ps, s, voting, done, now, gained)
    requires (q == s.from || q == s.dest) && q !in done
    ensures q in now <==> q in ps
    ensures q in ps ==> now[q] == ps[q]
    ensures Voting.Accepts(ps, s, voting, q) ==>
            Progress(ps, s, voting, done + {q}, Voting.Modified(now, q, s.Delta(q)),
                     gained + if q in ps then s.Delta(q) else 0)
  {
    assert TalliedSoFar(ps, s, done + {q}) == Voting.Modified(now, q, s.Delta(q));
  }

  lemma LoopDone(ps: map<Name, Producer>, s: Voting.Switch, voting: bool, now: map<Name, Producer>, gained: int)
    requires Progress(ps, s, voting, {s.from, s.dest}, now, gained)
    ensures Voting.Accepts(ps, s, voting, s.from) && Voting.Accepts(ps, s, voting, s.dest)
    ensures now == Voting.Tallied(ps, s) && gained == Voting.WeightChange(ps, s)
  {
  }

  lemma NextName(names: set<Name>, order: seq<Name>, i: nat)
    requires order == Election.InNameOrder(names) && i < |order|
    ensures order[i] in names && order[i] !in Election.Names(order[..i])
    ensures Election.Names(order[..i + 1]) == Election.Names(order[..i]) + {order[i]}
  {
    Tables.ListingDistinct(map n | n in names :: 0, order, i);
  }

  lemma AllNames(names: set<Name>, order: seq<Name>)
    requires order == Election.InNameOrder(names)
    ensures Election.Names(order[..|order|]) == names
  {
    assert order[..|order|] == order;
    assert forall q :: q in order <==> q in (map n | n in names :: 0);
  }

  lemma TalliedNonNegative(ps: map<Name, Producer>, s: Voting.Switch)
    requires Election.VotesNonNegative(ps)
    ensures Election.VotesNonNegative(Voting.Tallied(ps, s))
  {
  }

  method ProducerDelta(oldProducer: Name, oldStaked: int, newProducer: Name, staked: int) returns (delta: map<Name, int>)
    ensures delta.Keys == {oldProducer, newProducer}
    ensures forall q :: q in delta ==> delta[q] == Voting.Switch(oldProducer, oldStaked, newProducer, staked).Delta(q)
  {
    delta := map[];
    if oldProducer == newProducer {
      delta := delta[oldProducer := staked - oldStaked];
    } else {
      delta := delta[oldProducer := 0 - oldStaked];
      delta := delta[newProducer := staked];
    }
  }

  // ---------------------------------------------------------------- the payout loop

  /** The chain after the first `i` rounds. */
  function PaidUpTo(c: Chain, names: seq<Name>, i: nat, now: nat): Option<Chain>
    requires i <= |names| && forall n :: n in names ==> n in c.producers
  {
    ProducerPay.PayAll(c, names[..i], now)
  }

  lemma {:induction false} AbortSpreads(c: Chain, names: seq<Name>, i: nat, now: nat)
    requires i <= |names| && forall n :: n in names ==> n in c.producers
    requires PaidUpTo(c, names, i, now).None?
    ensures ProducerPay.PayAll(c, names, now).None?
    decreases |names|
  {
    if i < |names| {
      assert names[..|names| - 1][..i] == names[..i];
      AbortSpreads(c, names[..|names| - 1], i, now);
    } else {
      assert names[..i] == names;
    }
  }

  lemma PayNext(c: Chain, names: seq<Name>, i: nat, now: nat)
    requires i < |names| && forall n :: n in names ==> n in c.producers
    requires PaidUpTo(c, names, i, now).Some?
    ensures names[i] in PaidUpTo(c, names, i, now).value.producers
    ensures PaidUpTo(c, names, i + 1, now) == ProducerPay.PayOne(PaidUpTo(c, names, i, now).value, names[i], now)
  {
    assert names[..i + 1][..i] == names[..i];
  }

  lemma AllPaid(c: Chain, names: seq<Name>, now: nat)
    requires forall n :: n in names ==> n in c.producers
    ensures PaidUpTo(c, names, |names|, now) == ProducerPay.PayAll(c, names, now)
  {
    assert names[..|names|] == names;
  }

  class System {
    var producers: map<Name, Producer>
    var voters: map<Name, Voter>
    var payments: map<Name, int>
    var global: Global
    var journal: seq<Event>

    const token: Token
    const libre: Libre

    // The environment as this contract sees it.
    var stakes: map<nat, Stake>
    var accounts: set<Name>
    var clock: nat
    var headerSlot: nat

    function View(): Chain
      reads this, token, libre
    {
      Chain(producers, voters, payments, global, token.View(), libre.table, journal, stakes, accounts, clock, headerSlot)
    }

    /** No tally is negative: the clamp in the vote update sees to it whatever the stakes are. */
    ghost predicate Valid()
      reads this
    {
      Election.VotesNonNegative(producers)
    }

    constructor (stakes: map<nat, Stake>, accounts: set<Name>)
      ensures Valid() && Genesis(View()) && fresh(token) && fresh(libre)
    {
      producers, voters, payments, journal := map[], map[], map[], [];
      global := Global(0, 0, 0, 0, 0, 0, 0);
      this.stakes, this.accounts := stakes, accounts;
      clock, headerSlot := 0, 0;
      token := new Token();
      libre := new Libre();
    }

    /** The host puts this contract's and the token contract's tables back when an action aborts. */
    method Restore(c: Chain)
      requires c.voters == voters && c.permissions == libre.table && c.stakes == stakes && c.accounts == accounts
      requires c.clock == clock && c.headerSlot == headerSlot
      modifies this`producers, this`payments, this`global, this`journal, token
      ensures View() == c
    {
      producers, payments, global, journal := c.producers, c.payments, c.global, c.journal;
      token.Restore(c.ledger);
    }

    // -------------------------------------------------------------- registration

    method RegisterProducer(producer: Name, authority: Authority)
      requires Valid()
      modifies this`producers, this`journal
      ensures Valid()
      ensures View() == Voting.RegisterProducer(old(View()), producer, authority)
    {
      var key := 0;
      if |authority.keys| == 1 { key := authority.keys[0].key; }
      if producer in producers {
        var info := producers[producer].(producerKey := key, isActive := true, authority := Some(authority));
        producers := producers[producer := info];
      } else {
        producers := producers[producer := Producer(0, key, true, 0, 0, Some(authority))];
      }
      journal := journal + [Registered(producer, authority)];
    }

    method RegProducer(auth: set<Name>, producer: Name, key: Key, urlSize: nat) returns (ok: bool)
      requires Valid()
      modifies this`producers, this`journal
      ensures Valid()
      ensures Committed(ok, old(View()), View(), Voting.RegProducer(old(View()), auth, producer, key, urlSize))
    {
      var rights := libre.GetPriv(producer);
      if producer !in auth || urlSize >= 512 || P.At(rights, P.RegProd) != P.ON { return false; }
      RegisterProducer(producer, KeyAuthority(key));
      return true;
    }

    method RegProducer2(auth: set<Name>, producer: Name, authority: Authority, urlSize: nat) returns (ok: bool)
      requires Valid()
      modifies this`producers, this`journal
      ensures Valid()
      ensures Committed(ok, old(View()), View(), Voting.RegProducer2(old(View()), auth, producer, authority, urlSize))
    {
      var rights := libre.GetPriv(producer);
      if producer !in auth || urlSize >= 512 || P.At(rights, P.RegProd) != P.ON || !Voting.ValidAuthority(authority) {
        return false;
      }
      RegisterProducer(producer, authority);
      return true;
    }

    method Deactivate(producer: Name) returns (ok: bool)
      requires Valid()
      modifies this`producers
      ensures Valid()
      ensures Committed(ok, old(View()), View(), Voting.Deactivated(old(View()), producer))
    {
      if producer !in producers { return false; }
      producers := producers[producer := producers[producer].(producerKey := 0, authority := None, isActive := false)];
      return true;
    }

    method UnregProd(auth: set<Name>, producer: Name) returns (ok: bool)
      requires Valid()
      modifies this`producers
      ensures Valid()
      ensures Committed(ok, old(View()), View(), Voting.UnregProd(old(View()), auth, producer))
    {
      if producer !in auth { return false; }
      ok := Deactivate(producer);
    }

    method RmvProducer(auth: set<Name>, producer: Name) returns (ok: bool)
      requires Valid()
      modifies this`producers
      ensures Valid()
      ensures Committed(ok, old(View()), View(), Voting.RmvProducer(old(View()), auth, producer))
    {
      if EOSIO !in auth { return false; }
      ok := Deactivate(producer);
    }

    method KickBp(auth: set<Name>, producer: Name) returns (ok: bool)
      requires Valid()
      modifies this`producers, libre
      ensures Valid()
      ensures Committed(ok, old(View()), View(), Voting.KickBp(old(View()), auth, producer))
    {
      if EOSIO !in auth { return false; }
      var before := producers;
      ok := Deactivate(producer);
      if ok {
        ok := libre.KickBp(accounts, {EOSIO}, producer);
        if !ok { producers := before; }
      }
    }

    // -------------------------------------------------------------- votes

    /** One entry of the delta map: aborts on an inactive or, for a non-zero delta, unknown producer. */
    method AddVotes(q: Name, delta: int, voting: bool) returns (ok: bool)
      modifies this`producers, this`global
      ensures ok <==> if q in old(producers) then voting ==> old(producers)[q].isActive else delta == 0
      ensures producers == if ok then Voting.Modified(old(producers), q, delta) else old(producers)
      ensures global == if ok && q in old(producers)
                        then old(global).(totalVoteWeight := old(global).totalVoteWeight + delta)
                        else old(global)
    {
      if q !in producers { return delta == 0; }
      if voting && !producers[q].isActive { return false; }
      var votes := producers[q].totalVotes + delta;
      if votes < 0 { votes := 0; }
      producers := producers[q := producers[q].(totalVotes := votes)];
      global := global.(totalVoteWeight := global.totalVoteWeight + delta);
      return true;
    }

    /** The loop over the delta map, in name order; on failure the tables are left for the caller to restore. */
    method ApplyDeltas(delta: map<Name, int>, voting: bool, ghost s: Voting.Switch) returns (ok: bool)
      requires delta.Keys == {s.from, s.dest} && forall q :: q in delta ==> delta[q] == s.Delta(q)
      modifies this`producers, this`global
      ensures ok <==> Voting.Accepts(old(producers), s, voting, s.from) && Voting.Accepts(old(producers), s, voting, s.dest)
      ensures ok ==> producers == Voting.Tallied(old(producers), s)
      ensures ok ==> global == old(global).(totalVoteWeight := old(global).totalVoteWeight
                                                               + Voting.WeightChange(old(producers), s))
    {
      var order := Election.InNameOrder(delta.Keys);
      ghost var before, weight, done := producers, global.totalVoteWeight, {};
      NoProgress(before, s, voting);
      var i := 0;
      while i < |order|
        invariant i <= |order| && done == Election.Names(order[..i])
        invariant Progress(before, s, voting, done, producers, global.totalVoteWeight - weight)
        invariant global == old(global).(totalVoteWeight := global.totalVoteWeight)
      {
        var q := order[i];
        NextName(delta.Keys, order, i);
        LoopRound(before, s, voting, done, producers, global.totalVoteWeight - weight, q);
        ok := AddVotes(q, delta[q], voting);
        if !ok { return false; }
        done := done + {q};
        i := i + 1;
      }
      AllNames(delta.Keys, order);
      LoopDone(before, s, voting, producers, global.totalVoteWeight - weight);
      return true;
    }

    method UpdateVotes(voter: Name, producer: Name, voting: bool, dangling: Name) returns (ok: bool)
      requires Valid()
      modifies this`producers, this`voters, this`global
      ensures Valid()
      ensures Committed(ok, old(View()), View(), Voting.UpdateVotes(old(View()), voter, producer, voting, dangling))
    {
      var staked := GetStaked(stakes, voter);
      if !voting && staked == -1 { return true; }
      if staked <= -1 { return false; }
      var oldStaked := if voter in voters then voters[voter].staked else 0;
      var oldProducer := if voter in voters then voters[voter].producer else dangling;

      var delta := ProducerDelta(oldProducer, oldStaked, producer, staked);
      var producersBefore, globalBefore := producers, global;
      ghost var s := Voting.SwitchOf(old(View()), voter, producer, dangling);
      TalliedNonNegative(producers, s);
      ok := ApplyDeltas(delta, voting, s);
      if ok {
        voters := voters[voter := Voter(producer, staked)];
      } else {
        producers, global := producersBefore, globalBefore;
      }
    }

    method VoteProducer(auth: set<Name>, voter: Name, producer: Name, dangling: Name) returns (ok: bool)
      requires Valid()
      modifies this`producers, this`voters, this`global
      ensures Valid()
      ensures Committed(ok, old(View()), View(), Voting.VoteProducer(old(View()), auth, voter, producer, dangling))
    {
      if voter !in auth { return false; }
      ok := UpdateVotes(voter, producer, true, dangling);
    }

    method VOnStake(auth: set<Name>, staker: Name) returns (ok: bool)
      requires Valid()
      modifies this`producers, this`voters, this`global
      ensures Valid()
      ensures Committed(ok, old(View()), View(), Voting.VOnStake(old(View()), auth, staker))
    {
      if STAKE_LIBRE !in auth { return false; }
      if staker !in voters { return true; }
      ok := UpdateVotes(staker, voters[staker].producer, false, 0);
    }

    // -------------------------------------------------------------- election

    /** The early-exit scan of the vote index. */
    method TopProducers() returns (top: seq<Entry>)
      requires Valid()
      ensures |top| == |Election.Winners(producers)|
      ensures Election.SortByName(top) == Election.Schedule(producers)
    {
      var idx := Tables.Listing(Election.VoteKeys(producers));
      assert forall i :: 0 <= i < |idx| ==> idx[i] in idx && idx[i] in producers;
      top := [];
      var it := 0;
      while it < |idx| && |top| < 21 && 0 < producers[idx[it]].totalVotes && producers[idx[it]].isActive
        invariant it <= |idx| && |top| == it <= 21
        invariant forall i :: 0 <= i < it ==>
          Election.Qualifies(producers[idx[i]]) && top[i] == Election.EntryOf(producers, idx[i])
      {
        top := top + [Entry(idx[it], producers[idx[it]].SigningAuthority())];
        it := it + 1;
      }
      Election.ScanFindsWinners(producers, idx, it);
      SortedIsSchedule(producers, idx, it, top);
    }

    method UpdateElectedProducers(slot: nat, reply: int)
      requires Valid()
      modifies this`global, this`journal
      ensures Valid()
      ensures View() == Election.UpdateElectedProducers(old(View()), slot, reply)
    {
      global := global.(lastScheduleUpdate := slot);
      var top := TopProducers();
      Election.ScheduleSize(producers);
      if |top| == 0 || |top| < global.lastScheduleSize { return; }
      var schedule := Election.SortByName(top);
      if reply >= 0 {
        global := global.(lastScheduleSize := |top| % 0x1_0000);
      }
      journal := journal + [Proposed(schedule, reply >= 0)];
    }

    // -------------------------------------------------------------- rewards

    method CalculatePayPerBlock() returns (rate: nat)
      ensures rate == ProducerPay.PayPerBlock(global)
    {
      var sixMonths := ProducerPay.DAY;
      var elapsed := ProducerPay.SlotTime(global.lastBlockSlot) - global.activatedTime;
      if elapsed < sixMonths { return 4; }
      else if elapsed >= sixMonths && elapsed < sixMonths * 2 { return 2; }
      else { return 1; }
    }

    /** One round of the payout loop; on failure the tables are left for the caller to restore. */
    method PayProducer(n: Name, now: nat) returns (ok: bool)
      requires n in producers
      modifies this`producers, this`payments, this`global, this`journal, token
      ensures ok == ProducerPay.PayOne(old(View()), n, now).Some?
      ensures ok ==> View() == ProducerPay.PayOne(old(View()), n, now).value
    {
      var row := producers[n];
      if row.unpaidBlocks == 0 { return true; }
      var rate := CalculatePayPerBlock();
      var tokens := (rate * row.unpaidBlocks) % U32;
      ok := token.Issue({EOSIO}, EOSIO, L.Asset(tokens, L.CORE), "");
      if !ok { return false; }
      ok := token.Transfer(accounts, {EOSIO}, EOSIO, BPAY, L.Asset(tokens, L.CORE), "");
      if !ok { return false; }
      Credit(n, tokens, rate, now);
      return true;
    }

    method Credit(n: Name, tokens: int, rate: nat, now: nat)
      requires n in producers && rate == ProducerPay.PayPerBlock(global)
      modifies this`producers, this`payments, this`global, this`journal
      ensures View() == ProducerPay.Credited(old(View()), n, tokens, now)
    {
      var row := producers[n];
      global := global.(totalUnpaidBlocks := Sub32(global.totalUnpaidBlocks, row.unpaidBlocks));
      if n in payments {
        payments := payments[n := payments[n] + tokens];
      } else {
        payments := payments[n := tokens];
      }
      producers := producers[n := row.(lastClaimTime := now, unpaidBlocks := 0)];
      journal := journal + [Paid(n, rate, row.unpaidBlocks)];
    }

    /** The loop body, against the prefix of rounds already made. */
    method PayRound(ghost start: Chain, order: seq<Name>, i: nat, now: nat) returns (ok: bool)
      requires i < |order| && forall n :: n in order ==> n in start.producers
      requires PaidUpTo(start, order, i, now) == Some(View())
      modifies this`producers, this`payments, this`global, this`journal, token
      ensures ok ==> PaidUpTo(start, order, i + 1, now) == Some(View())
      ensures !ok ==> PaidUpTo(start, order, i + 1, now).None?
    {
      PayNext(start, order, i, now);
      ok := PayProducer(order[i], now);
    }

    /** The payout loop over the producer table, in primary-key order. */
    method PayLoop(now: nat) returns (ok: bool)
      modifies this`producers, this`payments, this`global, this`journal, token
      ensures ProducerPay.PayAll(old(View()), ProducerPay.ProducerOrder(old(producers)), now)
              == if ok then Some(View()) else None
    {
      ghost var start := View();
      var order := ProducerPay.ProducerOrder(producers);
      var i := 0;
      while i < |order|
        invariant i <= |order|
        invariant PaidUpTo(start, order, i, now) == Some(View())
      {
        ok := PayRound(start, order, i, now);
        if !ok {
          AbortSpreads(start, order, i + 1, now);
          return false;
        }
        i := i + 1;
      }
      AllPaid(start, order, now);
      return true;
    }

    method UpdRewards(now: nat) returns (ok: bool)
      modifies this`producers, this`payments, this`global, this`journal, token
      ensures ok == ProducerPay.UpdRewards(old(View()), now).Some?
      ensures ok ==> View() == ProducerPay.UpdRewards(old(View()), now).value
    {
      ok := PayLoop(now);
      if ok { global := global.(lastUpdatedReward := now); }
    }

    method CountBlock(slot: nat, producer: Name, now: nat)
      modifies this`producers, this`global, this`journal
      ensures View() == ProducerPay.CountBlock(old(View()), slot, producer, now)
    {
      global := global.(lastBlockSlot := slot);
      if global.activatedTime == 0 { global := global.(activatedTime := now); }
      if producer in producers {
        global := global.(totalUnpaidBlocks := (global.totalUnpaidBlocks + 1) % U32);
        var p := producers[producer];
        producers := producers[producer := p.(unpaidBlocks := (p.unpaidBlocks + 1) % U32)];
        journal := journal + [Produced(producer)];
      }
    }

    /** The reward half of onblock; on failure the tables are left for the caller to restore. */
    method Settle(slot: nat, producer: Name, now: nat) returns (ok: bool)
      modifies this`producers, this`payments, this`global, this`journal, token
      ensures ok == ProducerPay.Settled(old(View()), slot, producer, now).Some?
      ensures ok ==> View() == ProducerPay.Settled(old(View()), slot, producer, now).value
    {
      CountBlock(slot, producer, now);
      ok := true;
      if now - global.lastUpdatedReward > ProducerPay.HOUR {
        ok := UpdRewards(now);
      }
    }

    method OnBlock(auth: set<Name>, slot: nat, producer: Name, now: nat, reply: int) returns (ok: bool)
      requires Valid()
      modifies this`producers, this`payments, this`global, this`journal, token
      ensures Valid()
      ensures Committed(ok, old(View()), View(), ProducerPay.OnBlock(old(View()), auth, slot, producer, now, reply))
    {
      if EOSIO !in auth { return false; }
      var before := View();
      ok := Settle(slot, producer, now);
      if !ok {
        Restore(before);
        return false;
      }
      SettledNonNegative(before, slot, producer, now);
      if Sub32(slot, global.lastScheduleUpdate) > 90 {
        UpdateElectedProducers(slot, reply);
      }
      return true;
    }

    method ClaimRewards(auth: set<Name>, owner: Name) returns (ok: bool)
      requires Valid()
      modifies this`payments, this`journal, token
      ensures Valid()
      ensures Committed(ok, old(View()), View(), ProducerPay.ClaimRewards(old(View()), auth, owner))
    {
      if owner !in auth || owner !in payments || payments[owner] == 0 { return false; }
      var amount := payments[owner];
      ok := token.Transfer(accounts, {BPAY, owner}, BPAY, owner, L.Asset(amount, L.CORE), "");
      if !ok { return false; }
      payments := payments[owner := 0];
      journal := journal + [Claimed(owner, amount)];
    }
  }

  lemma SortedIsSchedule(ps: map<Name, Producer>, idx: seq<Name>, it: nat, top: seq<Entry>)
    requires Tables.IsListing(Election.VoteKeys(ps), idx) && |top| == it <= |idx|
    requires forall i :: 0 <= i < it ==> idx[i] in ps && top[i] == Election.EntryOf(ps, idx[i])
    requires Election.Names(idx[..it]) == Election.Winners(ps)
    ensures Election.SortByName(top) == Election.Schedule(ps)
  {
    forall i, j | 0 <= i < j < |top| ensures top[i].producer != top[j].producer {
      assert Tables.Precedes(Election.VoteKeys(ps), idx[i], idx[j]);
    }
    Election.SortOrders(top);
    var r := Election.SortByName(top);
    forall e ensures e in r <==> e.producer in Election.Winners(ps) && e == Election.EntryOf(ps, e.producer) {
      assert e in r <==> e in multiset(r);
      assert e in top <==> e in multiset(top);
      if e in top {
        var i :| 0 <= i < |top| && top[i] == e;
        assert idx[..it][i] == e.producer;
      }
      if e.producer in Election.Winners(ps) && e == Election.EntryOf(ps, e.producer) {
        assert e.producer in idx[..it];
        var i :| 0 <= i < it && idx[i] == e.producer;
        assert top[i] == e;
      }
    }
    Election.ScheduleUnique(ps, r);
  }

  lemma SettledNonNegative(c: Chain, slot: nat, producer: Name, now: nat)
    requires Election.VotesNonNegative(c.producers) && ProducerPay.Settled(c, slot, producer, now).Some?
    ensures Election.VotesNonNegative(ProducerPay.Settled(c, slot, producer, now).value.producers)
  {
    Standing.SettledStanding(c, slot, producer, now);
    var d := ProducerPay.Settled(c, slot, producer, now).value;
    forall n | n in d.producers ensures d.producers[n].totalVotes >= 0 {
      assert Standing.SameRow(c.producers[n], d.producers[n]);
    }
  }
}
