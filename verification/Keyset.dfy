/**
 Keyset pagination: `WHERE key > after ORDER BY key LIMIT n`, the shape of every
 cursor query of the program.
 */
module Keyset {

  predicate IsSmallest(s: set<nat>, m: nat) {
    m in s && forall x :: x in s ==> m <= x
  }

  lemma {:induction false} SmallestExists(s: set<nat>, x: nat)
    requires x in s
    ensures exists m :: IsSmallest(s, m)
    decreases x
  {
    if y :| y in s && y < x {
      SmallestExists(s, y);
    } else {
      assert IsSmallest(s, x);
    }
  }

  function Smallest(s: set<nat>): (m: nat)
    requires s != {}
    ensures IsSmallest(s, m)
  {
    assert exists m :: IsSmallest(s, m) by {
      var x :| x in s;
      SmallestExists(s, x);
    }
    var m :| IsSmallest(s, m);
    m
  }

  predicate Ascending(p: seq<nat>) {
    forall i, j :: 0 <= i < j < |p| ==> p[i] < p[j]
  }

  function Above(keys: set<nat>, after: nat): (r: set<nat>)
    ensures forall k :: k in r <==> k in keys && after < k
  {
    set k | k in keys && after < k
  }

  /** One page of the scan. */
  function Page(keys: set<nat>, after: nat, limit: nat): (p: seq<nat>)
    ensures |p| <= limit
    decreases limit
  {
    if limit == 0 || Above(keys, after) == {} then []
    else
      var m := Smallest(Above(keys, after));
      [m] + Page(keys, m, limit - 1)
  }

  /** A page holds keys above the cursor, in ascending order. */
  lemma {:induction false} PageIsSound(keys: set<nat>, after: nat, limit: nat)
    ensures Ascending(Page(keys, after, limit))
    ensures forall k :: k in Page(keys, after, limit) ==> k in keys && after < k
    decreases limit
  {
    if limit == 0 || Above(keys, after) == {} {
    } else {
      var m := Smallest(Above(keys, after));
      PageIsSound(keys, m, limit - 1);
      var rest := Page(keys, m, limit - 1);
      var p := Page(keys, after, limit);
      assert p == [m] + rest;
      forall i, j | 0 <= i < j < |p| ensures p[i] < p[j] {
        assert p[j] == rest[j - 1] && p[j] in rest;
        assert 0 < i ==> p[i] == rest[i - 1];
      }
    }
  }

  /** No key up to the page's end is left out, and a short page holds every key above the cursor. */
  lemma {:induction false} PageIsComplete(keys: set<nat>, after: nat, limit: nat, k: nat)
    requires k in keys && after < k
    requires var p := Page(keys, after, limit); |p| < limit || (0 < |p| && k <= p[|p| - 1])
    ensures k in Page(keys, after, limit)
    decreases limit
  {
    assert k in Above(keys, after);
    var m := Smallest(Above(keys, after));
    var rest := Page(keys, m, limit - 1);
    var p := Page(keys, after, limit);
    assert p == [m] + rest;
    if m < k {
      assert 0 < |rest| ==> p[|p| - 1] == rest[|rest| - 1];
      PageIsComplete(keys, m, limit - 1, k);
    }
  }
}
