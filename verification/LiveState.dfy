/** Live session state: a last-writer map under an (At, id) order, folded from the
    events as they are emitted, and seeded at startup from a snapshot and the log.
    The theory holds for any way of naming an event's session; liveEventKey is one. */
module LiveState {
  import opened Wrappers
  import opened Records

  const RECENT_SCAN: nat := 10000

  type Sessions = map<string, Rec>

  /** Names the session an event belongs to; "" when it names none. */
  type Naming = LiveEvent -> string

  /** liveEventSupersedes: the later instant wins, at a tie the higher id. */
  predicate Supersedes(incoming: Rec, prev: Rec) {
    if incoming.ev.at > prev.ev.at then true
    else if incoming.ev.at < prev.ev.at then false
    else incoming.id > prev.id
  }

  /** The order it decides: by instant, then by id. */
  predicate AtOrBelow(r: Rec, s: Rec) {
    r.ev.at < s.ev.at || (r.ev.at == s.ev.at && r.id <= s.id)
  }

  /** Emit's update of liveSessions for one record. */
  function Upsert(key: Naming, m: Sessions, r: Rec): Sessions {
    var k := key(r.ev);
    if k == "" then m
    else if k in m && !Supersedes(r, m[k]) then m
    else m[k := r]
  }

  function Fold(key: Naming, m: Sessions, rs: seq<Rec>): Sessions {
    if rs == [] then m else Upsert(key, Fold(key, m, rs[..|rs| - 1]), rs[|rs| - 1])
  }

  /** Independent of any order: m holds, for each session some record names, a record of it
      that every record of it is at or below, by instant and then by id, and nothing else. */
  ghost predicate IsLatest(key: Naming, m: Sessions, rs: seq<Rec>) {
    && (forall k :: k in m ==> k != "" && m[k] in rs && key(m[k].ev) == k)
    && (forall r :: r in rs && key(r.ev) != "" ==> key(r.ev) in m && AtOrBelow(r, m[key(r.ev)]))
  }

  /** No two records share an id. */
  ghost predicate DistinctIds(rs: seq<Rec>) {
    forall r, r' :: r in rs && r' in rs && r.id == r'.id ==> r == r'
  }

  /** liveSessions[key] is the (At, id)-greatest event folded for that key. */
  lemma {:induction false} FoldIsLatest(key: Naming, rs: seq<Rec>)
    ensures IsLatest(key, Fold(key, map[], rs), rs)
  {
    if rs != [] {
      var front, x := rs[..|rs| - 1], rs[|rs| - 1];
      FoldIsLatest(key, front);
      assert rs == front + [x];
      UpsertLatest(key, Fold(key, map[], front), front, x);
    }
  }

  lemma UpsertLatest(key: Naming, m: Sessions, rs: seq<Rec>, x: Rec)
    requires IsLatest(key, m, rs)
    ensures IsLatest(key, Upsert(key, m, x), rs + [x])
  {
  }

  lemma LatestIsUnique(key: Naming, m: Sessions, m': Sessions, rs: seq<Rec>, rs': seq<Rec>)
    requires IsLatest(key, m, rs) && IsLatest(key, m', rs')
    requires DistinctIds(rs) && forall r :: r in rs <==> r in rs'
    ensures m == m'
  {
  }

  /** The fold depends on which events were seen, not on their order or repetition. */
  lemma FoldIgnoresOrder(key: Naming, a: seq<Rec>, b: seq<Rec>)
    requires DistinctIds(a) && forall r :: r in a <==> r in b
    ensures Fold(key, map[], a) == Fold(key, map[], b)
  {
    FoldIsLatest(key, a);
    FoldIsLatest(key, b);
    LatestIsUnique(key, Fold(key, map[], a), Fold(key, map[], b), a, b);
  }

  lemma {:induction false} FoldConcat(key: Naming, m: Sessions, a: seq<Rec>, b: seq<Rec>)
    ensures Fold(key, m, a + b) == Fold(key, Fold(key, m, a), b)
  {
    if b == [] {
      assert a + b == a;
    } else {
      assert (a + b)[..|a + b| - 1] == a + b[..|b| - 1];
      FoldConcat(key, m, a, b[..|b| - 1]);
    }
  }

  /** Folding events that were already folded changes nothing. */
  lemma RefoldChangesNothing(key: Naming, a: seq<Rec>, b: seq<Rec>)
    requires DistinctIds(a) && forall r :: r in b ==> r in a
    ensures Fold(key, Fold(key, map[], a), b) == Fold(key, map[], a)
  {
    FoldConcat(key, map[], a, b);
    FoldIgnoresOrder(key, a, a + b);
  }

  /** Within one lifetime the cached states have distinct event ids. */
  lemma StatesHaveDistinctIds(key: Naming, rs: seq<Rec>, j: string, k: string)
    requires DistinctIds(rs)
    ensures var m := Fold(key, map[], rs); j in m && k in m && m[j].id == m[k].id ==> j == k
  {
    FoldIsLatest(key, rs);
  }

  // ------------------------------------------------------------ startup

  /** Where loadLiveState starts reading the log. */
  function ReplayFrom(lastID: nat, watermark: Option<nat>): nat {
    var after := if watermark.Some? then watermark.value else 0;
    if lastID > RECENT_SCAN && lastID - RECENT_SCAN > after then lastID - RECENT_SCAN else after
  }

  /** What loadLiveState leaves in liveSessions. */
  function Loaded(key: Naming, log: seq<Rec>, watermark: Option<nat>, entries: Sessions): Sessions {
    if LastId(log) == 0 then map[]
    else
      var seed := if watermark.Some? then entries else map[];
      Fold(key, seed, Between(log, ReplayFrom(LastId(log), watermark), LastId(log)))
  }

  /** Reading the log up to its last id reads all there is. */
  lemma BetweenToLast(log: seq<Rec>, after: nat)
    requires Increasing(log)
    ensures Between(log, after, LastId(log)) == Above(log, after)
  {
    if after <= LastId(log) {
      AboveSplits(log, after, LastId(log));
      AboveEmpty(log, LastId(log));
    } else {
      AboveEmpty(log, after);
      BetweenEmpty(log, after, LastId(log));
    }
  }

  /** Snapshot plus tail: a snapshot of everything emitted, followed by the log over
      the point the load starts from, is the fold of both. */
  lemma SnapshotPlusTail(key: Naming, log: seq<Rec>, w: nat, emitted: seq<Rec>)
    requires Increasing(log) && LastId(log) > 0
    ensures Loaded(key, log, Some(w), Fold(key, map[], emitted))
            == Fold(key, map[], emitted + Above(log, ReplayFrom(LastId(log), Some(w))))
  {
    BetweenToLast(log, ReplayFrom(LastId(log), Some(w)));
    FoldConcat(key, map[], emitted, Above(log, ReplayFrom(LastId(log), Some(w))));
  }

  /** When the snapshot covers the log up to its watermark w and the log has moved on
      by at most RECENT_SCAN ids, loading gives the fold of everything. */
  lemma LoadedIsFullFold(key: Naming, log: seq<Rec>, w: nat, emitted: seq<Rec>)
    requires Increasing(log) && LastId(log) > 0 && LastId(log) <= w + RECENT_SCAN
    requires forall r :: r in log && r.id <= w ==> r in emitted
    requires DistinctIds(emitted + log)
    ensures Loaded(key, log, Some(w), Fold(key, map[], emitted)) == Fold(key, map[], emitted + log)
  {
    SnapshotPlusTail(key, log, w, emitted);
    AboveMembers(log, w);
    FoldIgnoresOrder(key, emitted + log, emitted + Above(log, w));
  }

  /** Without a snapshot: the fold of the recent window, which is all of a log whose
      last id is within it. */
  lemma LoadedWithoutSnapshot(key: Naming, log: seq<Rec>)
    requires Increasing(log) && Positive(log) && LastId(log) <= RECENT_SCAN
    ensures Loaded(key, log, None, map[]) == Fold(key, map[], log)
  {
    LastIsGreatest(log);
    BetweenWhole(log, 0, LastId(log));
  }

  /** `kept` holds a record of the session of `r` that `r` is at or below. */
  ghost predicate Outlived(key: Naming, r: Rec, kept: seq<Rec>) {
    exists k :: k in kept && key(k.ev) == key(r.ev) && AtOrBelow(r, k)
  }

  /** Every record of `missed` that names a session is outlived. */
  ghost predicate AllOutlived(key: Naming, missed: seq<Rec>, kept: seq<Rec>) {
    forall r :: r in missed && key(r.ev) != "" ==> Outlived(key, r, kept)
  }

  lemma OrderIsTransitive(a: Rec, b: Rec, c: Rec)
    requires AtOrBelow(a, b) && AtOrBelow(b, c)
    ensures AtOrBelow(a, c)
  {
  }

  /** The latest of all records is the latest of a part that outlives the others. */
  lemma OutlivedIsLatest(key: Naming, m: Sessions, part: seq<Rec>, missed: seq<Rec>, all: seq<Rec>)
    requires IsLatest(key, m, part) && AllOutlived(key, missed, part)
    requires forall r :: r in all <==> r in part || r in missed
    ensures IsLatest(key, m, all)
  {
    forall r | r in missed && key(r.ev) != "" ensures key(r.ev) in m && AtOrBelow(r, m[key(r.ev)]) {
      assert Outlived(key, r, part);
      var k :| k in part && key(k.ev) == key(r.ev) && AtOrBelow(r, k);
      OrderIsTransitive(r, k, m[key(r.ev)]);
    }
  }

  lemma LatestOutlives(key: Naming, m: Sessions, part: seq<Rec>, missed: seq<Rec>, all: seq<Rec>)
    requires IsLatest(key, m, part) && IsLatest(key, m, all) && forall r :: r in missed ==> r in all
    ensures AllOutlived(key, missed, part)
  {
    forall r | r in missed && key(r.ev) != "" ensures Outlived(key, r, part) {
      var k := m[key(r.ev)];
      assert k in part && key(k.ev) == key(r.ev) && AtOrBelow(r, k);
    }
  }

  /** Leaving records out of a fold is harmless iff each that names a session is outlived by
      one that stays. */
  lemma FoldWithout(key: Naming, part: seq<Rec>, missed: seq<Rec>, all: seq<Rec>)
    requires DistinctIds(all) && forall r :: r in all <==> r in part || r in missed
    ensures Fold(key, map[], part) == Fold(key, map[], all) <==> AllOutlived(key, missed, part)
  {
    var m, whole := Fold(key, map[], part), Fold(key, map[], all);
    FoldIsLatest(key, part);
    FoldIsLatest(key, all);
    if AllOutlived(key, missed, part) {
      OutlivedIsLatest(key, m, part, missed, all);
      LatestIsUnique(key, m, whole, all, all);
    }
    if m == whole {
      LatestOutlives(key, m, part, missed, all);
    }
  }

  /** A stale snapshot: past RECENT_SCAN ids, the load equals the full fold iff every
      skipped record that names a session is outlived by one of the snapshot's or of the
      recent ones. */
  lemma StaleSnapshot(key: Naming, log: seq<Rec>, w: nat, emitted: seq<Rec>)
    requires Increasing(log) && LastId(log) > w + RECENT_SCAN
    requires forall r :: r in log && r.id <= w ==> r in emitted
    requires DistinctIds(emitted + log)
    ensures var cut := LastId(log) - RECENT_SCAN;
      Loaded(key, log, Some(w), Fold(key, map[], emitted)) == Fold(key, map[], emitted + log) <==>
      AllOutlived(key, Between(log, w, cut), emitted + Above(log, cut))
  {
    var cut := LastId(log) - RECENT_SCAN;
    SnapshotPlusTail(key, log, w, emitted);
    AboveMembers(log, cut);
    BetweenMembers(log, w, cut);
    var part, missed := emitted + Above(log, cut), Between(log, w, cut);
    forall r | r in emitted + log ensures r in part || r in missed { }
    FoldWithout(key, part, missed, emitted + log);
  }

  lemma IncreasingIsDistinct(rs: seq<Rec>)
    requires Increasing(rs)
    ensures DistinctIds(rs)
  {
  }

  /** No snapshot is an empty one at 0. */
  lemma NoSnapshotIsEmptyOne(key: Naming, log: seq<Rec>)
    ensures Loaded(key, log, None, map[]) == Loaded(key, log, Some(0), Fold(key, map[], []))
  {
  }

  lemma NothingAtZero(log: seq<Rec>)
    requires Positive(log)
    ensures forall r :: r in log ==> r.id > 0
  {
  }

  /** And so without a snapshot, for the recent records alone. */
  lemma LongLogWithoutSnapshot(key: Naming, log: seq<Rec>)
    requires Increasing(log) && Positive(log) && LastId(log) > RECENT_SCAN
    ensures var cut := LastId(log) - RECENT_SCAN;
      Loaded(key, log, None, map[]) == Fold(key, map[], log) <==>
      AllOutlived(key, Between(log, 0, cut), Above(log, cut))
  {
    var cut, recent := LastId(log) - RECENT_SCAN, Above(log, LastId(log) - RECENT_SCAN);
    IncreasingIsDistinct(log);
    NothingAtZero(log);
    NoSnapshotIsEmptyOne(key, log);
    assert [] + log == log;
    assert [] + recent == recent;
    StaleSnapshot(key, log, 0, []);
  }

  /** Such a log exists: with the watermark at 0 and records 1 and 10001 of two
      sessions, the first is lost. */
  lemma StaleSnapshotLoses(key: Naming, a: LiveEvent, b: LiveEvent)
    requires key(a) != "" && key(b) != "" && key(a) != key(b)
    ensures var log := [Rec(1, a), Rec(RECENT_SCAN + 1, b)];
            Loaded(key, log, Some(0), map[]) != Fold(key, map[], log)
  {
    var r1, r2 := Rec(1, a), Rec(RECENT_SCAN + 1, b);
    var log := [r1, r2];
    SnapshotPlusTail(key, log, 0, []);
    OnlyTheSecond(r1, r2, 1);
    assert [] + [r2] == [r2];
    NamesOnlyItsOwn(key, r2, key(a));
    FoldNames(key, log, r1);
  }

  lemma OnlyTheSecond(r1: Rec, r2: Rec, lo: nat)
    requires r1.id <= lo < r2.id
    ensures Above([r1, r2], lo) == [r2]
  {
    AboveSnoc([r1], r2, lo);
    AboveSnoc([], r1, lo);
    assert [] + [r1] == [r1] && [r1] + [r2] == [r1, r2] && [] + [r2] == [r2];
  }

  lemma NamesOnlyItsOwn(key: Naming, r: Rec, k: string)
    requires key(r.ev) != k
    ensures k !in Fold(key, map[], [r])
  {
  }

  lemma FoldNames(key: Naming, rs: seq<Rec>, r: Rec)
    requires r in rs && key(r.ev) != ""
    ensures key(r.ev) in Fold(key, map[], rs)
  {
  }
}
