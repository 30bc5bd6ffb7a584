/** Iteration order of a table: rows sorted by an index value, ties by primary key. */
module Tables {

  predicate Precedes(keys: map<nat, int>, a: nat, b: nat)
    requires a in keys && b in keys
  {
    keys[a] < keys[b] || (keys[a] == keys[b] && a < b)
  }

  ghost predicate IsListing(keys: map<nat, int>, s: seq<nat>)
  {
    && (forall n :: n in s <==> n in keys)
    && (forall i, j :: 0 <= i < j < |s| ==> Precedes(keys, s[i], s[j]))
  }

  predicate IsFirst(keys: map<nat, int>, k: nat)
    requires k in keys
  {
    forall j <- keys.Keys :: j == k || Precedes(keys, k, j)
  }

  lemma {:induction false} FirstExists(keys: map<nat, int>)
    requires keys != map[]
    ensures exists k :: k in keys && IsFirst(keys, k)
    decreases keys.Keys
  {
    var j :| j in keys;
    var rest := keys - {j};
    if rest == map[] {
      assert forall n :: n in keys && n != j ==> n in rest;
      assert IsFirst(keys, j);
    } else {
      FirstExists(rest);
      var k :| k in rest && IsFirst(rest, k);
      var least := if Precedes(keys, j, k) then j else k;
      forall n | n in keys ensures n == least || Precedes(keys, least, n) {
        if n != j && n != k { assert n in rest; assert Precedes(rest, k, n); }
      }
      assert IsFirst(keys, least);
    }
  }

  /** The rows in the order the host's index iterates over them. */
  function Listing(keys: map<nat, int>): (s: seq<nat>)
    ensures IsListing(keys, s)
    decreases keys.Keys
  {
    if keys == map[] then [] else
    FirstExists(keys);
    var k :| k in keys && IsFirst(keys, k);
    var rest := keys - {k};
    assert forall n :: n in rest ==> Precedes(keys, k, n);
    assert forall a, b :: a in rest && b in rest && Precedes(rest, a, b) ==> Precedes(keys, a, b);
    [k] + Listing(rest)
  }

  /** A table has one listing only: an index fixes the order completely. */
  lemma {:induction false} ListingUnique(keys: map<nat, int>, s: seq<nat>)
    requires IsListing(keys, s)
    ensures s == Listing(keys)
    decreases keys.Keys
  {
    var t := Listing(keys);
    if s == [] {
      assert forall n :: n in keys ==> n in s;
      assert keys == map[];
    } else {
      assert s[0] in s;
      FirstOfListing(keys, s);
      FirstOfListing(keys, t);
      var k := s[0];
      assert t[0] == k;
      TailOfListing(keys, s);
      TailOfListing(keys, t);
      ListingUnique(keys - {k}, s[1..]);
      ListingUnique(keys - {k}, t[1..]);
      assert s == [k] + s[1..] && t == [k] + t[1..];
    }
  }

  lemma FirstOfListing(keys: map<nat, int>, s: seq<nat>)
    requires IsListing(keys, s) && keys != map[]
    ensures s != [] && s[0] in keys && IsFirst(keys, s[0])
  {
    var n :| n in keys;
    assert n in s;
    forall j | j in keys ensures j == s[0] || Precedes(keys, s[0], j) {
      assert j in s;
      var i :| 0 <= i < |s| && s[i] == j;
    }
  }

  lemma TailOfListing(keys: map<nat, int>, s: seq<nat>)
    requires IsListing(keys, s) && s != []
    ensures IsListing(keys - {s[0]}, s[1..])
  {
    var rest := keys - {s[0]};
    forall n ensures n in s[1..] <==> n in rest {
      if n in s[1..] {
        var i :| 0 <= i < |s[1..]| && s[1..][i] == n;
        assert s[i + 1] == n && Precedes(keys, s[0], s[i + 1]);
      }
      if n in rest {
        assert n in s;
        var i :| 0 <= i < |s| && s[i] == n;
        assert s[1..][i - 1] == n;
      }
    }
  }

  /** A listing holds each row once, so a prefix never repeats a row. */
  lemma ListingDistinct(keys: map<nat, int>, s: seq<nat>, i: nat)
    requires IsListing(keys, s) && i < |s|
    ensures s[i] !in s[..i] && s[i] in keys
  {
    assert s[i] in s;
    assert forall j :: 0 <= j < i ==> Precedes(keys, s[j], s[i]) && s[j] != s[i];
  }
}
