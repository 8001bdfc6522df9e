/**
 Replication of a pushed manifest to another registry: a depth-first walk with a
 shared visited set that writes to the target as it returns. Every call to the source
 and to the target may fail, and then the whole walk stops.
 */
module Replication {
  import opened Base

  type Digest = Key

  /** The references of a manifest body; one that does not parse has none. */
  datatype Manifest = Manifest(config: Option<Digest>, layers: seq<Digest>, manifests: seq<Digest>)

  type Source = map<Digest, Manifest>

  /** parseRefs: the blobs are the config and the layers, the children are the index entries. */
  function Blobs(m: Manifest): seq<Digest> {
    (if m.config.Some? then [m.config.value] else []) + m.layers
  }

  predicate Child(source: Source, d: Digest, c: Digest) {
    d in source && c in source[d].manifests
  }

  /** A PutManifest request, by digest or by tag: the digest, and what the target held when it arrived. */
  datatype Put = Put(digest: Digest, manifests: set<Digest>, blobs: set<Digest>)

  /** The config and every layer are there. */
  ghost predicate HasBlobs(m: Manifest, blobs: set<Digest>) {
    (m.config.Some? ==> m.config.value in blobs) && forall l :: l in m.layers ==> l in blobs
  }

  lemma BlobsAreAll(m: Manifest, blobs: set<Digest>)
    ensures (forall b :: b in Blobs(m) ==> b in blobs) <==> HasBlobs(m, blobs)
  {
    var rest := if m.config.Some? then [m.config.value] else [];
    assert Blobs(m) == rest + m.layers;
    assert forall b :: b in Blobs(m) <==> b in rest || b in m.layers;
  }

  /** Everything the manifest refers to was on the target before the manifest. */
  ghost predicate Complete(source: Source, p: Put) {
    && p.digest in source
    && (forall c :: c in source[p.digest].manifests ==> c in p.manifests)
    && HasBlobs(source[p.digest], p.blobs)
  }

  /** References point at content, so each one has a lower rank. */
  ghost predicate Ranked(source: Source, rank: Digest -> nat) {
    forall d, c :: Child(source, d, c) ==> rank(c) < rank(d)
  }

  // ---- the walk's invariant ------------------------------------------------

  ghost predicate Placed(source: Source, visited: set<Digest>, manifests: set<Digest>, blobs: set<Digest>, d: Digest) {
    && d in source && d in manifests
    && (forall c :: c in source[d].manifests ==> c in visited)
    && (forall b :: b in Blobs(source[d]) ==> b in blobs)
  }

  /** What has been visited and is not in progress is on the target, with its blobs, and its children are visited. */
  ghost predicate Settled(source: Source, visited: set<Digest>, manifests: set<Digest>, blobs: set<Digest>, stack: set<Digest>) {
    stack <= visited && forall d :: d in visited && d !in stack ==> Placed(source, visited, manifests, blobs, d)
  }

  /** Every request in the rest of the log was complete. */
  ghost predicate PutsComplete(source: Source, was: seq<Put>, log: seq<Put>) {
    was <= log && forall i :: |was| <= i < |log| ==> Complete(source, log[i])
  }

  lemma PutsChain(source: Source, a: seq<Put>, b: seq<Put>, c: seq<Put>)
    requires PutsComplete(source, a, b) && PutsComplete(source, b, c)
    ensures PutsComplete(source, a, c)
  {
    forall i | |a| <= i < |c| ensures Complete(source, c[i]) {
      assert i < |b| ==> c[i] == b[i];
    }
  }

  ghost predicate Below(rank: Digest -> nat, d: Digest, stack: set<Digest>) {
    forall e :: e in stack ==> rank(d) < rank(e)
  }

  ghost predicate AtOrAbove(rank: Digest -> nat, d: Digest, stack: set<Digest>) {
    forall e :: e in stack ==> rank(d) <= rank(e)
  }

  lemma VisitShrinks(keys: set<Digest>, visited: set<Digest>, d: Digest)
    requires d in keys && d !in visited
    ensures |keys - (visited + {d})| < |keys - visited|
  {
    assert keys - (visited + {d}) == (keys - visited) - {d};
  }

  /** With acyclic references, a visited child is never in progress, so it is on the target. */
  lemma ReadyToPut(source: Source, visited: set<Digest>, manifests: set<Digest>, blobs: set<Digest>,
                   stack: set<Digest>, d: Digest, rank: Digest -> nat)
    requires d in source && (forall c :: c in source[d].manifests ==> c in visited)
    requires Settled(source, visited, manifests, blobs, stack + {d})
    ensures Below(rank, d, stack) && Ranked(source, rank) ==> forall c :: c in source[d].manifests ==> c in manifests
  {
    if Below(rank, d, stack) && Ranked(source, rank) {
      forall c | c in source[d].manifests ensures c in manifests {
        assert Child(source, d, c);
        assert c !in stack + {d};
      }
    }
  }

  lemma MoreBlobsSettled(source: Source, visited: set<Digest>, manifests: set<Digest>, blobs: set<Digest>,
                         more: set<Digest>, stack: set<Digest>)
    requires Settled(source, visited, manifests, blobs, stack) && blobs <= more
    ensures Settled(source, visited, manifests, more, stack)
  {
    forall d | d in visited && d !in stack ensures Placed(source, visited, manifests, more, d) {
      assert Placed(source, visited, manifests, blobs, d);
    }
  }

  /** Putting the manifest takes it off the stack. */
  lemma PutSettles(source: Source, visited: set<Digest>, manifests: set<Digest>, blobs: set<Digest>, stack: set<Digest>, d: Digest)
    requires Settled(source, visited, manifests, blobs, stack + {d}) && d in source
    requires (forall c :: c in source[d].manifests ==> c in visited) && (forall b :: b in Blobs(source[d]) ==> b in blobs)
    ensures Settled(source, visited, manifests + {d}, blobs, stack)
  {
    forall e | e in visited && e !in stack ensures Placed(source, visited, manifests + {d}, blobs, e) {
      if e != d {
        assert Placed(source, visited, manifests, blobs, e);
      }
    }
  }

  // ---- closure -------------------------------------------------------------

  ghost predicate Descends(source: Source, p: seq<Digest>) {
    0 < |p| && forall i :: 0 <= i < |p| - 1 ==> Child(source, p[i], p[i + 1])
  }

  ghost predicate Reaches(source: Source, d: Digest, e: Digest) {
    exists p :: Descends(source, p) && p[0] == d && p[|p| - 1] == e
  }

  lemma {:induction false} PathIsVisited(source: Source, visited: set<Digest>, manifests: set<Digest>, blobs: set<Digest>,
                                         p: seq<Digest>, i: nat)
    requires Settled(source, visited, manifests, blobs, {}) && Descends(source, p) && p[0] in visited && i < |p|
    ensures p[i] in visited
  {
    if i == 0 {
    } else {
      PathIsVisited(source, visited, manifests, blobs, p, i - 1);
      assert Child(source, p[i - 1], p[i]);
      assert Placed(source, visited, manifests, blobs, p[i - 1]);
    }
  }

  // ---- the walk ------------------------------------------------------------

  /** Every reference leads to something the source can read. */
  ghost predicate Stocked(source: Source, held: set<Digest>) {
    && (forall d, c :: Child(source, d, c) ==> c in source)
    && (forall d, b :: d in source && b in Blobs(source[d]) ==> b in held)
  }

  class Target {
    var manifests: set<Digest>
    var tags: map<Key, Digest>
    var blobs: set<Digest>
    const reliable: bool // no call to the source or the target fails
    ghost var log: seq<Put>

    constructor (m: set<Digest>, b: set<Digest>, never: bool)
      ensures manifests == m && blobs == b && tags == map[] && log == [] && reliable == never
    {
      manifests, blobs, tags, log, reliable := m, b, map[], [], never;
    }

    /** Whether the next call succeeds; one that fails has no effect. */
    method Attempt() returns (ok: bool)
      ensures reliable ==> ok
    {
      ok := *;
      if reliable {
        ok := true;
      }
    }

    /** PUT by digest. */
    method PutManifest(d: Digest) returns (ok: bool)
      modifies this`manifests, this`log
      ensures ok ==> manifests == old(manifests) + {d}
      ensures !ok ==> manifests == old(manifests)
      ensures reliable ==> ok
      ensures log == old(log) + [Put(d, old(manifests), blobs)]
    {
      log := log + [Put(d, manifests, blobs)];
      ok := Attempt();
      if ok {
        manifests := manifests + {d};
      }
    }

    /** PUT by tag: the same request with the tag as reference. */
    method PutTag(tag: Key, d: Digest) returns (ok: bool)
      modifies this`tags, this`log
      ensures tags == if ok then old(tags)[tag := d] else old(tags)
      ensures reliable ==> ok
      ensures log == old(log) + [Put(d, manifests, blobs)]
    {
      log := log + [Put(d, manifests, blobs)];
      ok := Attempt();
      if ok {
        tags := tags[tag := d];
      }
    }

    /** ensureBlob: nothing to do when the target has it, otherwise copy it from the source. */
    method EnsureBlob(held: set<Digest>, b: Digest) returns (ok: bool)
      modifies this`blobs
      ensures ok ==> blobs == old(blobs) + {b} && (b in old(blobs) || b in held)
      ensures !ok ==> blobs == old(blobs)
      ensures reliable && b in held ==> ok
    {
      ok := Attempt(); // BlobExists
      if !ok || b in blobs {
        return;
      }
      if b !in held {
        return false;
      }
      ok := Attempt(); // PushBlob
      if ok {
        blobs := blobs + {b};
      }
    }
  }

  class Walk {
    const source: Source
    const held: set<Digest> // blobs the source can read
    const target: Target
    var visited: set<Digest>

    constructor (s: Source, h: set<Digest>, t: Target)
      ensures source == s && held == h && target == t && visited == {}
    {
      source, held, target, visited := s, h, t, {};
    }

    method EnsureBlobs(blobs: seq<Digest>) returns (ok: bool)
      modifies target`blobs
      ensures old(target.blobs) <= target.blobs
      ensures ok ==> forall b :: b in blobs ==> b in target.blobs
      ensures target.reliable && (forall b :: b in blobs ==> b in held) ==> ok
    {
      var i := 0;
      while i < |blobs|
        invariant 0 <= i <= |blobs|
        invariant old(target.blobs) <= target.blobs
        invariant forall b :: b in blobs[..i] ==> b in target.blobs
      {
        assert blobs[..i + 1] == blobs[..i] + [blobs[i]];
        ok := target.EnsureBlob(held, blobs[i]);
        if !ok {
          return;
        }
        i := i + 1;
      }
      assert blobs[..|blobs|] == blobs;
      ok := true;
    }

    /**
     replicate. `stack` holds the manifests in progress and `rank` witnesses that references
     are acyclic; without that witness the walk still ends and success still means completeness.
     */
    method Replicate(tag: Option<Key>, digest: Digest, ghost stack: set<Digest>, ghost rank: Digest -> nat)
      returns (ok: bool)
      requires Settled(source, visited, target.manifests, target.blobs, stack)
      modifies this`visited, target
      ensures old(visited) <= visited && old(target.manifests) <= target.manifests && old(target.blobs) <= target.blobs
      ensures target.reliable && Stocked(source, held) && digest in source ==> ok
      ensures ok ==> digest in visited && Settled(source, visited, target.manifests, target.blobs, stack)
      ensures ok && tag.Some? && digest !in old(visited) ==> target.tags == old(target.tags)[tag.value := digest]
      ensures tag.None? ==> target.tags == old(target.tags)
      ensures Below(rank, digest, stack) && Ranked(source, rank) ==> PutsComplete(source, old(target.log), target.log)
      decreases |source.Keys - visited|, 0
    {
      if digest in visited {
        return true;
      }
      ghost var before := visited;
      visited := visited + {digest};
      var readable := target.Attempt();
      if digest !in source || !readable {
        return false;
      }
      VisitShrinks(source.Keys, before, digest);
      var m := source[digest];
      ok := ReplicateChildren(digest, m.manifests, stack + {digest}, rank);
      if !ok {
        return;
      }
      ghost var blobs0, log0 := target.blobs, target.log;
      ok := EnsureBlobs(Blobs(m));
      if !ok {
        return;
      }
      MoreBlobsSettled(source, visited, target.manifests, blobs0, target.blobs, stack + {digest});
      BlobsAreAll(m, target.blobs);
      ReadyToPut(source, visited, target.manifests, target.blobs, stack, digest, rank);
      PutSettles(source, visited, target.manifests, target.blobs, stack, digest);
      ok := target.PutManifest(digest);
      assert PutsComplete(source, log0, target.log) <== Below(rank, digest, stack) && Ranked(source, rank);
      if ok && tag.Some? {
        ghost var log1 := target.log;
        ok := target.PutTag(tag.value, digest);
        assert PutsComplete(source, log1, target.log) <== Below(rank, digest, stack) && Ranked(source, rank);
        if Below(rank, digest, stack) && Ranked(source, rank) {
          PutsChain(source, log0, log1, target.log);
        }
      }
    }

    /** The children in order, each walked with the parent on the stack. */
    method ReplicateChildren(parent: Digest, children: seq<Digest>, ghost stack: set<Digest>, ghost rank: Digest -> nat)
      returns (ok: bool)
      requires Settled(source, visited, target.manifests, target.blobs, stack)
      requires parent in source && children == source[parent].manifests
      modifies this`visited, target
      ensures old(visited) <= visited && old(target.manifests) <= target.manifests && old(target.blobs) <= target.blobs
      ensures ok ==> Settled(source, visited, target.manifests, target.blobs, stack)
      ensures ok ==> forall c :: c in children ==> c in visited
      ensures target.reliable && Stocked(source, held) ==> ok
      ensures target.tags == old(target.tags)
      ensures AtOrAbove(rank, parent, stack) && Ranked(source, rank) ==> PutsComplete(source, old(target.log), target.log)
      decreases |source.Keys - visited|, 1
    {
      var i := 0;
      while i < |children|
        invariant 0 <= i <= |children|
        invariant old(visited) <= visited && old(target.manifests) <= target.manifests && old(target.blobs) <= target.blobs
        invariant Settled(source, visited, target.manifests, target.blobs, stack)
        invariant forall c :: c in children[..i] ==> c in visited
        invariant target.tags == old(target.tags)
        invariant AtOrAbove(rank, parent, stack) && Ranked(source, rank) ==> PutsComplete(source, old(target.log), target.log)
      {
        assert Child(source, parent, children[i]);
        assert children[..i + 1] == children[..i] + [children[i]];
        assert source.Keys - visited <= source.Keys - old(visited);
        SubsetSize(source.Keys - visited, source.Keys - old(visited));
        ghost var was := target.log;
        ok := Replicate(None, children[i], stack, rank);
        if AtOrAbove(rank, parent, stack) && Ranked(source, rank) {
          PutsChain(source, old(target.log), was, target.log);
        }
        if !ok {
          return;
        }
        i := i + 1;
      }
      assert children[..|children|] == children;
      ok := true;
    }

    /**
     One replication job: from an empty visited set. Every request of the run was complete when
     it was made, also when the run failed; success leaves the whole closure on the target.
     */
    method Process(tag: Option<Key>, digest: Digest, ghost rank: Digest -> nat) returns (ok: bool)
      modifies this`visited, target
      ensures Ranked(source, rank) ==> PutsComplete(source, old(target.log), target.log)
      ensures old(target.manifests) <= target.manifests && old(target.blobs) <= target.blobs
      ensures ok ==> forall d :: Reaches(source, digest, d) ==>
                d in source && d in target.manifests && HasBlobs(source[d], target.blobs)
      ensures ok && tag.Some? ==> target.tags == old(target.tags)[tag.value := digest]
      ensures target.reliable && Stocked(source, held) && digest in source ==> ok
    {
      visited := {};
      ok := Replicate(tag, digest, {}, rank);
      if ok {
        forall d | Reaches(source, digest, d) ensures d in visited {
          var p :| Descends(source, p) && p[0] == digest && p[|p| - 1] == d;
          PathIsVisited(source, visited, target.manifests, target.blobs, p, |p| - 1);
        }
        forall d | d in visited ensures HasBlobs(source[d], target.blobs) {
          assert Placed(source, visited, target.manifests, target.blobs, d);
          BlobsAreAll(source[d], target.blobs);
        }
      }
    }
  }
}
