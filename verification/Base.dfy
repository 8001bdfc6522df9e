/** Shared vocabulary: optional values, keys, and facts about finite sets. */
module Base {

  datatype Option<+T> = None | Some(value: T)

  /** One integer clock; the unit is the second. */
  type Time = int

  /** An AUTOINCREMENT row id; never handed out twice. */
  type Id = nat

  /** The address of an actor. */
  type Actor = nat

  /**
   Text that the program only compares for equality and for order: a digest or
   a name. Zero stands for the empty text, which is where every keyset scan starts
   and which is never a key.
   */
  type Key = k: nat | 0 < k witness 1

  function Minimum(a: nat, b: nat): (m: nat)
    ensures m <= a && m <= b && (m == a || m == b)
  {
    if a <= b then a else b
  }

  lemma SubsetSize<T>(a: set<T>, b: set<T>)
    requires a <= b
    ensures |a| <= |b|
    ensures |b - a| == |b| - |a|
    ensures |a| == |b| ==> a == b
  {
    assert b == a + (b - a);
    assert a !! (b - a);
    if |a| == |b| {
      assert |b - a| == 0;
      assert b - a == {};
    }
  }

  /** A duplicate-free sequence of members of s is no longer than s. */
  lemma {:induction false} DistinctFits<T>(q: seq<T>, s: set<T>)
    requires forall i :: 0 <= i < |q| ==> q[i] in s
    requires forall i, j :: 0 <= i < j < |q| ==> q[i] != q[j]
    ensures |q| <= |s|
  {
    if q == [] {
    } else {
      var rest := q[1..];
      forall i | 0 <= i < |rest| ensures rest[i] in s - {q[0]} {
        assert rest[i] == q[i + 1];
      }
      DistinctFits(rest, s - {q[0]});
    }
  }

  lemma {:induction false} StaysTrue(p: seq<bool>, i: nat, j: nat)
    requires i <= j < |p| && forall k :: 0 <= k < |p| - 1 && p[k] ==> p[k + 1]
    ensures p[i] ==> p[j]
  {
    if i < j {
      StaysTrue(p, i, j - 1);
    }
  }

  /** Event k happened, and nothing between it and n undid it. */
  ghost predicate Since(did: seq<bool>, undid: seq<bool>, k: nat, n: nat)
    requires |did| == |undid| && n <= |did|
  {
    k < n && did[k] && forall j :: k < j < n ==> !undid[j]
  }

  /** A condition that only `did` brings about and only `undid` ends goes back to an event that still stands. */
  lemma {:induction false} GoesBack(p: seq<bool>, did: seq<bool>, undid: seq<bool>, n: nat)
    requires |p| == |did| + 1 && |did| == |undid| && n < |p| && !p[0]
    requires forall i :: 0 <= i < |did| ==> (p[i + 1] <==> (p[i] && !undid[i]) || did[i])
    ensures p[n] <==> exists k :: Since(did, undid, k, n)
  {
    if n != 0 {
      GoesBack(p, did, undid, n - 1);
      if p[n] {
        if did[n - 1] {
          assert Since(did, undid, n - 1, n);
        } else {
          var k: nat :| Since(did, undid, k, n - 1);
          assert Since(did, undid, k, n);
        }
      }
      if k: nat :| Since(did, undid, k, n) {
        assert k < n - 1 ==> Since(did, undid, k, n - 1);
      }
    }
  }

  /** It holds at every point since that event. */
  lemma HoldsSince(p: seq<bool>, did: seq<bool>, undid: seq<bool>, k: nat, n: nat, j: nat)
    requires |p| == |did| + 1 && |did| == |undid| && n < |p| && !p[0]
    requires forall i :: 0 <= i < |did| ==> (p[i + 1] <==> (p[i] && !undid[i]) || did[i])
    requires Since(did, undid, k, n) && k < j <= n
    ensures p[j]
  {
    assert Since(did, undid, k, j);
    GoesBack(p, did, undid, j);
  }
}
