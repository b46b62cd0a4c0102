/** The durable event log (BoltStore): one bucket of key/value entries in byte order
    of their keys, read and pruned through cursors. */
module EventLog {
  import opened Wrappers
  import opened Records
  import opened EventKeys
  import Broker

  datatype Entry = Entry(key: Key, value: LiveEvent)

  /** The records a bucket stands for. */
  function Decode(es: seq<Entry>): (rs: seq<Rec>) {
    seq(|es|, i requires 0 <= i < |es| => Rec(EventID(es[i].key), es[i].value))
  }

  /** Entries under eight-byte keys in strictly increasing id order ... */
  predicate Ordered(es: seq<Entry>) {
    (forall i :: 0 <= i < |es| ==> |es[i].key| == KEY_SIZE) && Increasing(Decode(es)) && Positive(Decode(es))
  }

  /** ... which is the byte order bbolt keeps them in. */
  lemma OrderedIsByteOrder(es: seq<Entry>)
    requires forall i :: 0 <= i < |es| ==> |es[i].key| == KEY_SIZE
    ensures Increasing(Decode(es)) <==> forall i, j :: 0 <= i < j < |es| ==> LexLess(es[i].key, es[j].key)
  {
    forall i, j | 0 <= i < j < |es|
      ensures LexLess(es[i].key, es[j].key) <==> Decode(es)[i].id < Decode(es)[j].id
    {
      KeyOrder(es[i].key, es[j].key);
    }
  }

  lemma IdsFit(es: seq<Entry>)
    requires Ordered(es)
    ensures forall r :: r in Decode(es) ==> r.id <= MAX_ID
  {
    forall i | 0 <= i < |es| ensures Decode(es)[i].id <= MAX_ID {
      IdRoundTrip(es[i].key);
    }
  }

  lemma DecodeSlice(es: seq<Entry>, lo: nat, hi: nat)
    requires lo <= hi <= |es|
    ensures Decode(es[lo..hi]) == Decode(es)[lo..hi]
  {
  }

  lemma DecodeConcat(a: seq<Entry>, b: seq<Entry>)
    ensures Decode(a + b) == Decode(a) + Decode(b)
  {
  }

  /** The log with a record put under its id: what is below, the record, what is above. */
  function Put(rs: seq<Rec>, r: Rec): seq<Rec>
    requires r.id > 0
  {
    Between(rs, 0, r.id - 1) + [r] + Above(rs, r.id)
  }

  /** An id above everything in the log is appended at its end. */
  lemma PutAtEnd(rs: seq<Rec>, r: Rec)
    requires Increasing(rs) && Positive(rs) && LastId(rs) < r.id
    ensures Put(rs, r) == rs + [r]
  {
    LastIsGreatest(rs);
    BetweenWhole(rs, 0, r.id - 1);
    AboveNothing(rs, r.id);
  }

  /** The keepN-th newest id of a log with at least keepN records. */
  function KeepFloor(rs: seq<Rec>, keepN: nat): nat
    requires 0 < keepN <= |rs|
  {
    rs[|rs| - keepN].id
  }

  /** A record retention may delete: older than `before` when that is set, and below
      the floor of the keepN newest when there is one. */
  predicate Expendable(rs: seq<Rec>, r: Rec, before: Option<int>, keepN: int) {
    && (before.Some? ==> r.ev.at < before.value)
    && (keepN > 0 ==> keepN <= |rs| && r.id < KeepFloor(rs, keepN))
  }

  /** The length of the longest prefix of expendable records. */
  ghost predicate IsPruneLength(rs: seq<Rec>, d: nat, before: Option<int>, keepN: int) {
    && d <= |rs|
    && (forall i :: 0 <= i < d ==> Expendable(rs, rs[i], before, keepN))
    && (d < |rs| ==> !Expendable(rs, rs[d], before, keepN))
  }

  /** Ids without a hole between the first and the last. */
  predicate Gapless(rs: seq<Rec>) {
    forall i :: 0 <= i < |rs| ==> rs[i].id == FirstId(rs) + i
  }

  /** What a prune leaves: a suffix holding the newest min(keepN, size) records, the
      last id when any must be kept, no hole that was not there, and nothing that was
      inside the retention age. */
  lemma PruneKeepsSuffix(rs: seq<Rec>, d: nat, before: Option<int>, keepN: int)
    requires Increasing(rs) && IsPruneLength(rs, d, before, keepN)
    ensures keepN > 0 ==> |rs[d..]| >= (if keepN <= |rs| then keepN else |rs|)
    ensures keepN > 0 ==> LastId(rs[d..]) == LastId(rs)
    ensures Gapless(rs) ==> Gapless(rs[d..])
    ensures before.Some? ==> forall r :: r in rs && r !in rs[d..] ==> r.ev.at < before.value
  {
    if keepN > 0 && rs != [] {
      var floor := if keepN <= |rs| then |rs| - keepN else 0;
      assert !Expendable(rs, rs[floor], before, keepN);
    }
    assert rs == rs[..d] + rs[d..];
  }

  /** The bucket and the live-session snapshot buckets of one bbolt file. */
  class BoltStore {
    var bucket: seq<Entry>
    var snapshotMeta: Option<nat>
    var snapshotBucket: Option<map<string, Rec>>

    ghost predicate Valid()
      reads this
    {
      Ordered(bucket)
    }

    ghost function Log(): seq<Rec>
      reads this
    {
      Decode(bucket)
    }

    constructor ()
      ensures Valid() && Log() == []
      ensures snapshotMeta == None && snapshotBucket == None
    {
      bucket := [];
      snapshotMeta := None;
      snapshotBucket := None;
    }

    /** AppendWithID. `committed` is whether the context was still live and the
        transaction went through; a failure leaves the log as it was. */
    method AppendWithID(id: nat, ev: LiveEvent, committed: bool) returns (ok: bool)
      requires Valid() && id <= MAX_ID
      modifies this`bucket
      ensures Valid()
      ensures ok <==> ev.typ != "" && id != 0 && committed
      ensures ok ==> Log() == Put(old(Log()), Rec(id, ev))
      ensures !ok ==> bucket == old(bucket)
      ensures ok && LastId(old(Log())) < id ==> Log() == old(Log()) + [Rec(id, ev)]
    {
      if ev.typ == "" || id == 0 || !committed {
        return false;
      }
      KeyRoundTrip(id);
      if LastId(Log()) < id {
        PutAtEnd(Log(), Rec(id, ev));
      }
      BucketPut(EventKey(id), ev);
      ok := true;
    }

    /** bucket.Put: the entry takes its place in byte order, replacing one of the same key. */
    method BucketPut(key: Key, value: LiveEvent)
      requires Valid() && |key| == KEY_SIZE && EventID(key) > 0
      modifies this`bucket
      ensures Valid() && Log() == Put(old(Log()), Rec(EventID(key), value))
    {
      var lo := Seek(key);
      var hi := if lo < |bucket| && bucket[lo].key == key then lo + 1 else lo;
      if lo < |bucket| {
        KeyOrder(bucket[lo].key, key);
        assert Decode(bucket)[lo].id == EventID(bucket[lo].key);
      }
      PutCut(bucket, lo, hi, key, value);
      bucket := bucket[..lo] + [Entry(key, value)] + bucket[hi..];
    }

    /** LastID: 0 on an empty log. */
    method LastID() returns (id: nat)
      requires Valid()
      ensures id == LastId(Log())
    {
      id := if |bucket| == 0 then 0 else EventID(bucket[|bucket| - 1].key);
    }

    /** MinID: 0 on an empty log; otherwise the smallest id there is. */
    method MinID() returns (id: nat)
      requires Valid()
      ensures id == FirstId(Log())
      ensures forall r :: r in Log() ==> id <= r.id
    {
      IdsFit(bucket);
      id := if |bucket| == 0 then 0 else EventID(bucket[0].key);
    }

    /** The cursor position of the first entry whose key is not below `key`. */
    method Seek(key: Key) returns (p: nat)
      requires Valid() && |key| == KEY_SIZE
      ensures p <= |bucket|
      ensures forall i :: 0 <= i < p ==> Decode(bucket)[i].id < EventID(key)
      ensures forall i :: p <= i < |bucket| ==> EventID(key) <= Decode(bucket)[i].id
    {
      p := 0;
      while p < |bucket| && LexLess(bucket[p].key, key)
        invariant p <= |bucket|
        invariant forall i :: 0 <= i < p ==> Decode(bucket)[i].id < EventID(key)
      {
        KeyOrder(bucket[p].key, key);
        assert Decode(bucket)[p].id == EventID(bucket[p].key);
        p := p + 1;
      }
      if p < |bucket| {
        KeyOrder(bucket[p].key, key);
        assert EventID(key) <= Decode(bucket)[p].id;
      }
    }

    /** cursor.Seek(eventKey(after + 1)). */
    method SeekAfter(after: nat) returns (p: nat)
      requires Valid() && after < MAX_ID
      ensures p <= |bucket|
      ensures forall i :: 0 <= i < p ==> Decode(bucket)[i].id <= after
      ensures forall i :: p <= i < |bucket| ==> after < Decode(bucket)[i].id
    {
      KeyRoundTrip(after + 1);
      p := Seek(EventKey(after + 1));
    }

    /** ReplayRange: the records over `after`, up to `until` when that is set, at most
        `limit` of them, in id order. */
    method ReplayRange(after: nat, until: nat, limit: int) returns (out: seq<Rec>)
      requires Valid() && after <= MAX_ID
      ensures out == Broker.ReplayRange(Log(), after, until, if limit <= 0 then REPLAY_BATCH else limit)
    {
      var max := if limit <= 0 then REPLAY_BATCH else limit;
      ghost var log := Decode(bucket);
      if after == MAX_ID {
        NothingOverMaxId(bucket, until);
        return [];
      }
      var start := SeekAfter(after);
      var i := start;
      out := [];
      while i < |bucket|
        invariant start <= i <= |bucket| && i - start < max
        invariant out == log[start..i]
        invariant until > 0 && i > start ==> log[i - 1].id <= until
      {
        var id := EventID(bucket[i].key);
        assert log[i] == Rec(id, bucket[i].value);
        if until > 0 && id > until {
          break;
        }
        out := out + [Rec(id, bucket[i].value)];
        i := i + 1;
        if |out| >= max {
          break;
        }
      }
      ScanResult(log, start, i, after, until, max);
    }

    /** Prune: deletes the longest prefix of expendable records, oldest first. */
    method Prune(before: Option<int>, keepN: int) returns (deleted: nat)
      requires Valid()
      modifies this`bucket
      ensures Valid()
      ensures deleted <= |old(Log())| && Log() == old(Log())[deleted..]
      ensures before.None? && keepN <= 0 ==> deleted == 0
      ensures before.Some? || keepN > 0 ==> IsPruneLength(old(Log()), deleted, before, keepN)
    {
      if before.None? && keepN <= 0 {
        return 0;
      }
      IdsFit(bucket);
      var floor, keepAll := FindKeepFloor(keepN);
      if keepAll {
        return 0;
      }
      var victims := FindVictims(before, floor, keepN);
      ghost var all := bucket;
      deleted := 0;
      while deleted < |victims|
        invariant deleted <= |victims| <= |all| && bucket == all[deleted..]
        invariant Valid() && (forall i :: 0 <= i < |victims| ==> victims[i] == all[i].key)
      {
        BucketDelete(victims[deleted]);
        deleted := deleted + 1;
      }
      DecodeSlice(all, deleted, |all|);
    }

    /** The id of the keepN-th newest event, walking the cursor backwards; keepAll when
        there are fewer. */
    method FindKeepFloor(keepN: int) returns (floor: Option<nat>, keepAll: bool)
      requires Valid()
      ensures keepAll <==> keepN > |bucket| && keepN > 0
      ensures floor.Some? <==> 0 < keepN <= |bucket|
      ensures floor.Some? ==> floor.value == KeepFloor(Log(), keepN)
    {
      if keepN <= 0 {
        return None, false;
      }
      var n, c := 0, |bucket|;
      while c > 0
        invariant 0 <= c <= |bucket| && n == |bucket| - c < keepN
      {
        c := c - 1;
        n := n + 1;
        if n == keepN {
          return Some(EventID(bucket[c].key)), false;
        }
      }
      return None, true;
    }

    /** The keys of the oldest contiguous run of expendable events. */
    method FindVictims(before: Option<int>, floor: Option<nat>, ghost keepN: int) returns (victims: seq<Key>)
      requires Valid()
      requires floor.Some? <==> 0 < keepN <= |bucket|
      requires floor.Some? ==> floor.value == KeepFloor(Log(), keepN)
      requires keepN <= |bucket|
      ensures |victims| <= |bucket| && forall i :: 0 <= i < |victims| ==> victims[i] == bucket[i].key
      ensures IsPruneLength(Log(), |victims|, before, keepN)
    {
      victims := [];
      var c := 0;
      while c < |bucket|
        invariant c <= |bucket| && |victims| == c
        invariant forall i :: 0 <= i < c ==> victims[i] == bucket[i].key
        invariant forall i :: 0 <= i < c ==> Expendable(Log(), Log()[i], before, keepN)
      {
        assert Log()[c] == Rec(EventID(bucket[c].key), bucket[c].value);
        if floor.Some? && EventID(bucket[c].key) >= floor.value {
          break;
        }
        if before.Some? && bucket[c].value.at >= before.value {
          break;
        }
        victims := victims + [bucket[c].key];
        c := c + 1;
      }
    }

    /** bucket.Delete: the entry of that key, if there is one, goes. */
    method BucketDelete(key: Key)
      requires Valid()
      modifies this`bucket
      ensures Valid()
      ensures old(bucket) != [] && old(bucket)[0].key == key ==> bucket == old(bucket)[1..]
      ensures forall e :: e in bucket <==> e in old(bucket) && e.key != key
    {
      var p := 0;
      while p < |bucket| && bucket[p].key != key
        modifies {}
        invariant p <= |bucket| && forall i :: 0 <= i < p ==> bucket[i].key != key
      {
        p := p + 1;
      }
      if p < |bucket| {
        CutOne(bucket, p);
        bucket := bucket[..p] + bucket[p + 1..];
      }
    }

    /** SaveLiveSnapshot replaces the whole entry bucket and its watermark. */
    method SaveLiveSnapshot(watermark: nat, entries: map<string, Rec>)
      modifies this`snapshotMeta, this`snapshotBucket
      ensures snapshotMeta == Some(watermark) && snapshotBucket == Some(entries)
    {
      snapshotBucket := Some(entries);
      snapshotMeta := Some(watermark);
    }

    /** LoadLiveSnapshot: no entries unless both buckets are there. */
    method LoadLiveSnapshot() returns (watermark: nat, entries: Option<map<string, Rec>>)
      ensures snapshotMeta.Some? && snapshotBucket.Some? ==>
          watermark == snapshotMeta.value && entries == snapshotBucket
      ensures snapshotMeta.None? || snapshotBucket.None? ==> entries == None
    {
      if snapshotMeta.None? {
        return 0, None;
      }
      watermark := snapshotMeta.value;
      if snapshotBucket.None? {
        return watermark, None;
      }
      entries := snapshotBucket;
    }
  }

  lemma NothingAbove(rs: seq<Rec>, after: nat, until: nat)
    requires forall r :: r in rs ==> r.id <= after
    ensures Selected(rs, after, until) == []
  {
    AboveNothing(rs, after);
    BetweenNothing(rs, after, until);
  }

  lemma NothingOverMaxId(es: seq<Entry>, until: nat)
    requires Ordered(es)
    ensures Selected(Decode(es), MAX_ID, until) == []
  {
    IdsFit(es);
    NothingAbove(Decode(es), MAX_ID, until);
  }

  /** What a cursor has selected by any position is a prefix of the whole selection. */
  lemma ScanCut(rs: seq<Rec>, i: nat, after: nat, until: nat)
    requires i <= |rs|
    ensures Selected(rs, after, until) == Selected(rs[..i], after, until) + Selected(rs[i..], after, until)
    ensures Take(Selected(rs, after, until), |Selected(rs[..i], after, until)|) == Selected(rs[..i], after, until)
  {
    assert rs == rs[..i] + rs[i..];
    BetweenConcat(rs[..i], rs[i..], after, until);
    AboveConcat(rs[..i], rs[i..], after);
  }

  lemma SelectedNothing(rs: seq<Rec>, after: nat, until: nat)
    requires forall r :: r in rs ==> r.id <= after || (until > 0 && until < r.id)
    ensures Selected(rs, after, until) == []
  {
    if until > 0 {
      BetweenNothing(rs, after, until);
    } else {
      AboveNothing(rs, after);
    }
  }

  /** A scan that started at the first id over `after` and stopped at the end, at an
      id over `until` or at the limit has read the selection, cut at the limit. */
  lemma ScanResult(rs: seq<Rec>, start: nat, i: nat, after: nat, until: nat, max: nat)
    requires Increasing(rs) && start <= i <= |rs| && i - start <= max
    requires forall j :: 0 <= j < start ==> rs[j].id <= after
    requires forall j :: start <= j < |rs| ==> after < rs[j].id
    requires until > 0 && i > start ==> rs[i - 1].id <= until
    requires i == |rs| || (until > 0 && rs[i].id > until) || i - start == max
    ensures rs[start..i] == Take(Selected(rs, after, until), max)
  {
    SelectedFront(rs, start, i, after, until);
    ScanCut(rs, i, after, until);
    if i - start < max {
      SelectedRest(rs, i, after, until);
    }
  }

  lemma SelectedFront(rs: seq<Rec>, start: nat, i: nat, after: nat, until: nat)
    requires Increasing(rs) && start <= i <= |rs|
    requires forall j :: 0 <= j < start ==> rs[j].id <= after
    requires forall j :: start <= j < |rs| ==> after < rs[j].id
    requires until > 0 && i > start ==> rs[i - 1].id <= until
    ensures Selected(rs[..i], after, until) == rs[start..i]
  {
    var front, picked := rs[..start], rs[start..i];
    assert rs[..i] == front + picked;
    SelectedNothing(front, after, until);
    if until > 0 {
      forall r | r in picked ensures after < r.id <= until { }
      BetweenConcat(front, picked, after, until);
      BetweenWhole(picked, after, until);
      assert [] + picked == picked;
    } else {
      AboveConcat(front, picked, after);
      AboveWhole(picked, after);
      assert [] + picked == picked;
    }
  }

  lemma SelectedRest(rs: seq<Rec>, i: nat, after: nat, until: nat)
    requires Increasing(rs) && i <= |rs|
    requires i == |rs| || (until > 0 && rs[i].id > until)
    ensures Selected(rs[i..], after, until) == []
  {
    forall r | r in rs[i..] ensures until > 0 && until < r.id { }
    SelectedNothing(rs[i..], after, until);
  }

  lemma CutOne(es: seq<Entry>, p: nat)
    requires Ordered(es) && p < |es|
    ensures Ordered(es[..p] + es[p + 1..])
    ensures forall e :: e in es[..p] + es[p + 1..] <==> e in es && e.key != es[p].key
  {
    forall i | 0 <= i < |es| && i != p ensures es[i].key != es[p].key {
      assert Decode(es)[i].id != Decode(es)[p].id;
    }
    DecodeConcat(es[..p], es[p + 1..]);
    DecodeSlice(es, 0, p);
    DecodeSlice(es, p + 1, |es|);
    assert Decode(es[..p] + es[p + 1..]) == Decode(es)[..p] + Decode(es)[p + 1..];
    IncreasingWithout(Decode(es), p);
  }

  lemma IncreasingWithout(rs: seq<Rec>, p: nat)
    requires Increasing(rs) && Positive(rs) && p < |rs|
    ensures Increasing(rs[..p] + rs[p + 1..]) && Positive(rs[..p] + rs[p + 1..])
  {
  }

  lemma PutCut(es: seq<Entry>, lo: nat, hi: nat, key: Key, value: LiveEvent)
    requires Ordered(es) && |key| == KEY_SIZE && EventID(key) > 0
    requires lo <= hi <= |es| && hi <= lo + 1
    requires forall i :: 0 <= i < lo ==> Decode(es)[i].id < EventID(key)
    requires lo < |es| ==> EventID(key) <= Decode(es)[lo].id
    requires hi == lo + 1 <==> lo < |es| && Decode(es)[lo].id == EventID(key)
    ensures Ordered(es[..lo] + [Entry(key, value)] + es[hi..])
    ensures Decode(es[..lo] + [Entry(key, value)] + es[hi..]) == Put(Decode(es), Rec(EventID(key), value))
  {
    var rs, r := Decode(es), Rec(EventID(key), value);
    DecodeConcat(es[..lo] + [Entry(key, value)], es[hi..]);
    DecodeConcat(es[..lo], [Entry(key, value)]);
    DecodeSlice(es, 0, lo);
    DecodeSlice(es, hi, |es|);
    assert Decode([Entry(key, value)]) == [r];
    InsertCut(rs, lo, hi, r);
    assert Decode(es[..lo] + [Entry(key, value)] + es[hi..]) == rs[..lo] + [r] + rs[hi..];
  }

  lemma InsertCut(rs: seq<Rec>, lo: nat, hi: nat, r: Rec)
    requires Increasing(rs) && Positive(rs) && r.id > 0
    requires lo <= hi <= |rs| && hi <= lo + 1
    requires forall i :: 0 <= i < lo ==> rs[i].id < r.id
    requires lo < |rs| ==> r.id <= rs[lo].id
    requires hi == lo + 1 <==> lo < |rs| && rs[lo].id == r.id
    ensures var rs' := rs[..lo] + [r] + rs[hi..]; Increasing(rs') && Positive(rs') && rs' == Put(rs, r)
  {
    forall i | hi <= i < |rs| ensures r.id < rs[i].id { }
    CutBelow(rs, lo, r.id);
    CutAbove(rs, hi, r.id);
    SpliceIncreasing(rs, lo, hi, r);
  }

  lemma SpliceIncreasing(rs: seq<Rec>, lo: nat, hi: nat, r: Rec)
    requires Increasing(rs) && Positive(rs) && r.id > 0 && lo <= hi <= |rs|
    requires forall i :: 0 <= i < lo ==> rs[i].id < r.id
    requires forall i :: hi <= i < |rs| ==> r.id < rs[i].id
    ensures Increasing(rs[..lo] + [r] + rs[hi..]) && Positive(rs[..lo] + [r] + rs[hi..])
  {
  }

  lemma CutBelow(rs: seq<Rec>, lo: nat, id: nat)
    requires lo <= |rs| && Positive(rs) && id > 0
    requires forall i :: 0 <= i < lo ==> rs[i].id < id
    requires forall i :: lo <= i < |rs| ==> id <= rs[i].id
    ensures Between(rs, 0, id - 1) == rs[..lo]
  {
    assert rs == rs[..lo] + rs[lo..];
    BetweenConcat(rs[..lo], rs[lo..], 0, id - 1);
    BetweenWhole(rs[..lo], 0, id - 1);
    BetweenNothing(rs[lo..], 0, id - 1);
  }

  lemma CutAbove(rs: seq<Rec>, hi: nat, id: nat)
    requires hi <= |rs|
    requires forall i :: 0 <= i < hi ==> rs[i].id <= id
    requires forall i :: hi <= i < |rs| ==> id < rs[i].id
    ensures Above(rs, id) == rs[hi..]
  {
    assert rs == rs[..hi] + rs[hi..];
    AboveConcat(rs[..hi], rs[hi..], id);
    AboveNothing(rs[..hi], id);
    AboveWhole(rs[hi..], id);
  }
}
