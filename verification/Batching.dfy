/** Choosing and batching the files of an incremental ingest (collector/pipeline.go). */
module Batching {
  import opened Wrappers

  function Flatten<T>(batches: seq<seq<T>>): seq<T> {
    if batches == [] then [] else Flatten(batches[..|batches| - 1]) + batches[|batches| - 1]
  }

  function Bytes<T>(items: seq<T>, sizeOf: T -> int): int {
    if items == [] then 0 else Bytes(items[..|items| - 1], sizeOf) + sizeOf(items[|items| - 1])
  }

  lemma FlattenSnoc<T>(batches: seq<seq<T>>, last: seq<T>)
    ensures Flatten(batches + [last]) == Flatten(batches) + last
  {
  }

  lemma BytesSnoc<T>(items: seq<T>, x: T, sizeOf: T -> int)
    ensures Bytes(items + [x], sizeOf) == Bytes(items, sizeOf) + sizeOf(x)
  {
  }

  /** A batch that holds at most one item or fits the cap. */
  predicate Fits<T>(batch: seq<T>, sizeOf: T -> int, maxBytes: int) {
    batch != [] && (|batch| > 1 ==> Bytes(batch, sizeOf) <= maxBytes)
  }

  /** Batches are closed only by an item that would not have fit. */
  predicate Greedy<T>(batches: seq<seq<T>>, sizeOf: T -> int, maxBytes: int) {
    forall i :: 0 <= i && i + 1 < |batches| && batches[i + 1] != [] ==>
      Bytes(batches[i], sizeOf) + sizeOf(batches[i + 1][0]) > maxBytes
  }

  lemma GreedyNext<T>(batches: seq<seq<T>>, x: T, sizeOf: T -> int, maxBytes: int)
    requires Greedy(batches, sizeOf, maxBytes)
    requires batches != [] ==> Bytes(batches[|batches| - 1], sizeOf) + sizeOf(x) > maxBytes
    ensures Greedy(batches + [[x]], sizeOf, maxBytes)
  {
  }

  lemma GreedyGrow<T>(batches: seq<seq<T>>, cur: seq<T>, x: T, sizeOf: T -> int, maxBytes: int)
    requires Greedy(batches + [cur], sizeOf, maxBytes) && cur != []
    ensures Greedy(batches + [cur + [x]], sizeOf, maxBytes)
  {
    forall i | 0 <= i && i + 1 < |batches + [cur]| && (batches + [cur + [x]])[i + 1] != []
      ensures Bytes((batches + [cur + [x]])[i], sizeOf) + sizeOf((batches + [cur + [x]])[i + 1][0]) > maxBytes
    {
      var next := (batches + [cur])[i + 1];
      assert next == if i + 1 < |batches| then batches[i + 1] else cur;
      assert (batches + [cur])[i] == batches[i] && next[0] == (batches + [cur + [x]])[i + 1][0];
    }
  }

  /** ChunkBySize: the batches concatenate to the items, none is empty, only a single
      item may exceed the cap, and no batch is closed early. */
  method ChunkBySize<T>(items: seq<T>, sizeOf: T -> int, maxBytes: int) returns (batches: seq<seq<T>>)
    ensures Flatten(batches) == items
    ensures forall i :: 0 <= i < |batches| ==> Fits(batches[i], sizeOf, maxBytes)
    ensures Greedy(batches, sizeOf, maxBytes)
  {
    batches := [];
    var cur: seq<T>, curBytes := [], 0;
    var i := 0;
    while i < |items|
      invariant i <= |items| && Flatten(batches) + cur == items[..i]
      invariant curBytes == Bytes(cur, sizeOf)
      invariant forall j :: 0 <= j < |batches| ==> Fits(batches[j], sizeOf, maxBytes)
      invariant cur == [] ==> i == 0 && batches == []
      invariant cur != [] ==> Fits(cur, sizeOf, maxBytes) && Greedy(batches + [cur], sizeOf, maxBytes)
    {
      var size := sizeOf(items[i]);
      assert items[..i + 1] == items[..i] + [items[i]];
      if |cur| > 0 && curBytes + size > maxBytes {
        FlattenSnoc(batches, cur);
        batches := batches + [cur];
        cur, curBytes := [], 0;
      }
      BytesSnoc(cur, items[i], sizeOf);
      if cur == [] {
        GreedyNext(batches, items[i], sizeOf, maxBytes);
      } else {
        GreedyGrow(batches, cur, items[i], sizeOf, maxBytes);
      }
      cur := cur + [items[i]];
      curBytes := curBytes + size;
      i := i + 1;
    }
    if |cur| > 0 {
      FlattenSnoc(batches, cur);
      batches := batches + [cur];
    }
    assert items[..i] == items;
  }

  /** A file's change-detection fingerprint (size, mtime, inode and token in one). */
  type Fingerprint = nat

  /** Whether a candidate is skipped: its fingerprint can be had and is the known one. */
  predicate Unchanged<F>(f: F, path: F -> string, fingerprintOf: F -> Option<Fingerprint>,
      known: map<string, Fingerprint>) {
    fingerprintOf(f).Some? && path(f) in known && known[path(f)] == fingerprintOf(f).value
  }

  function Changed<F>(fs: seq<F>, path: F -> string, fingerprintOf: F -> Option<Fingerprint>,
      known: map<string, Fingerprint>): seq<F> {
    if fs == [] then []
    else
      var front, f := Changed(fs[..|fs| - 1], path, fingerprintOf, known), fs[|fs| - 1];
      if Unchanged(f, path, fingerprintOf, known) then front else front + [f]
  }

  /** PartitionByFingerprint: the candidates that are not known under their current
      fingerprint, in order; the paths of the others; and the fingerprints of exactly
      those candidates that have one. */
  method PartitionByFingerprint<F>(candidates: seq<F>, path: F -> string, fingerprintOf: F -> Option<Fingerprint>,
      known: map<string, Fingerprint>)
    returns (changed: seq<F>, skipped: seq<string>, fingerprints: map<string, Fingerprint>)
    ensures changed == Changed(candidates, path, fingerprintOf, known)
    ensures forall f :: f in changed <==> f in candidates && !Unchanged(f, path, fingerprintOf, known)
    ensures forall p :: p in skipped <==>
        exists f :: f in candidates && path(f) == p && Unchanged(f, path, fingerprintOf, known)
    ensures |changed| + |skipped| == |candidates|
    ensures forall f :: f in candidates && fingerprintOf(f).Some? ==> path(f) in fingerprints
    ensures forall p :: p in fingerprints ==>
        exists f :: f in candidates && path(f) == p && fingerprintOf(f) == Some(fingerprints[p])
  {
    changed, skipped, fingerprints := [], [], map[];
    var i := 0;
    while i < |candidates|
      invariant i <= |candidates|
      invariant changed == Changed(candidates[..i], path, fingerprintOf, known)
      invariant forall f :: f in changed <==> f in candidates[..i] && !Unchanged(f, path, fingerprintOf, known)
      invariant forall p :: p in skipped <==>
          exists f :: f in candidates[..i] && path(f) == p && Unchanged(f, path, fingerprintOf, known)
      invariant |changed| + |skipped| == i
      invariant forall f :: f in candidates[..i] && fingerprintOf(f).Some? ==> path(f) in fingerprints
      invariant forall p :: p in fingerprints ==>
          exists f :: f in candidates[..i] && path(f) == p && fingerprintOf(f) == Some(fingerprints[p])
    {
      var f := candidates[i];
      var p := path(f);
      var fp := fingerprintOf(f);
      assert candidates[..i + 1] == candidates[..i] + [f];
      assert candidates[..i + 1][..i] == candidates[..i];
      assert f in candidates[..i + 1];
      i := i + 1;
      if fp.None? {
        changed := changed + [f];
        continue;
      }
      fingerprints := fingerprints[p := fp.value];
      if p in known && known[p] == fp.value {
        skipped := skipped + [p];
        continue;
      }
      changed := changed + [f];
    }
    assert candidates[..i] == candidates;
  }
}
